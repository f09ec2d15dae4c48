/** Step 3 of the wizard (VariableInputStep.tsx): the variable schema of each
    catalog service, the effect that pre-populates defaults, the variable and
    custom-configuration editors, and the Continue guard. JSON parsing is the
    predicate `json` the caller supplies. */
module VariableStep {
  import opened Common
  import opened Wizard
  import ServiceStep

  datatype InputType = TextInput | NumberInput

  /** One entry of `serviceVariables`; `default` is absent on the fields the user
      must type in. */
  datatype VariableDef = VariableDef(name: string, title: string, kind: InputType, required: bool, default: Option<string>)

  /** No two entries of a schema share a name. */
  predicate NamesDistinct(schema: seq<VariableDef>) {
    forall i, j :: 0 <= i < j < |schema| ==> schema[i].name != schema[j].name
  }

  /** The variable lists of `serviceVariables`, one per catalog service. */
  const ComputeEngineVars: seq<VariableDef> := [
    VariableDef("instance_name", "Instance Name", TextInput, true, None),
    VariableDef("machine_type", "Machine Type", TextInput, true, Some("e2-medium")),
    VariableDef("zone", "Zone", TextInput, true, Some("us-central1-a")),
    VariableDef("image", "Image", TextInput, true, Some("ubuntu-2004-lts"))]
  const GkeVars: seq<VariableDef> := [
    VariableDef("cluster_name", "Cluster Name", TextInput, true, None),
    VariableDef("location", "Location", TextInput, true, Some("us-central1")),
    VariableDef("node_count", "Node Count", NumberInput, true, Some("3")),
    VariableDef("machine_type", "Machine Type", TextInput, true, Some("e2-medium"))]
  const CloudSqlVars: seq<VariableDef> := [
    VariableDef("instance_name", "Instance Name", TextInput, true, None),
    VariableDef("database_version", "Database Version", TextInput, true, Some("POSTGRES_13")),
    VariableDef("tier", "Tier", TextInput, true, Some("db-f1-micro")),
    VariableDef("region", "Region", TextInput, true, Some("us-central1"))]
  const Ec2Vars: seq<VariableDef> := [
    VariableDef("instance_name", "Instance Name", TextInput, true, None),
    VariableDef("instance_type", "Instance Type", TextInput, true, Some("t3.micro")),
    VariableDef("ami_id", "AMI ID", TextInput, true, Some("ami-0c02fb55956c7d316")),
    VariableDef("availability_zone", "Availability Zone", TextInput, true, Some("us-east-1a"))]
  const EksVars: seq<VariableDef> := [
    VariableDef("cluster_name", "Cluster Name", TextInput, true, None),
    VariableDef("region", "Region", TextInput, true, Some("us-east-1")),
    VariableDef("node_group_name", "Node Group Name", TextInput, true, None),
    VariableDef("instance_types", "Instance Types", TextInput, true, Some("t3.medium"))]
  const RdsVars: seq<VariableDef> := [
    VariableDef("db_instance_identifier", "DB Instance Identifier", TextInput, true, None),
    VariableDef("engine", "Engine", TextInput, true, Some("postgres")),
    VariableDef("instance_class", "Instance Class", TextInput, true, Some("db.t3.micro")),
    VariableDef("allocated_storage", "Allocated Storage (GB)", NumberInput, true, Some("20"))]
  const VirtualMachinesVars: seq<VariableDef> := [
    VariableDef("vm_name", "VM Name", TextInput, true, None),
    VariableDef("vm_size", "VM Size", TextInput, true, Some("Standard_B1s")),
    VariableDef("location", "Location", TextInput, true, Some("East US")),
    VariableDef("admin_username", "Admin Username", TextInput, true, Some("azureuser"))]
  const AksVars: seq<VariableDef> := [
    VariableDef("cluster_name", "Cluster Name", TextInput, true, None),
    VariableDef("location", "Location", TextInput, true, Some("East US")),
    VariableDef("node_count", "Node Count", NumberInput, true, Some("3")),
    VariableDef("vm_size", "VM Size", TextInput, true, Some("Standard_DS2_v2"))]
  const CosmosDbVars: seq<VariableDef> := [
    VariableDef("account_name", "Account Name", TextInput, true, None),
    VariableDef("location", "Location", TextInput, true, Some("East US")),
    VariableDef("consistency_level", "Consistency Level", TextInput, true, Some("Session")),
    VariableDef("throughput", "Throughput", NumberInput, true, Some("400"))]

  /** `serviceVariables[service] || []`: the list of a catalog service, and the
      empty list for any other string. */
  function Schema(service: string): (r: seq<VariableDef>)
    ensures service !in ServiceStep.CatalogIds ==> r == []
  {
    if service == "compute-engine" then ComputeEngineVars
    else if service == "gke" then GkeVars
    else if service == "cloud-sql" then CloudSqlVars
    else if service == "ec2" then Ec2Vars
    else if service == "eks" then EksVars
    else if service == "rds" then RdsVars
    else if service == "virtual-machines" then VirtualMachinesVars
    else if service == "aks" then AksVars
    else if service == "cosmos-db" then CosmosDbVars
    else []
  }

  /** `variable.default` is truthy. */
  predicate HasDefault(v: VariableDef) {
    v.default.Some? && v.default.value != ""
  }

  /** `!data.variables[name]`: the value is absent or the empty string. A value
      of blanks is set. */
  predicate Unset(vars: map<string, string>, name: string) {
    name !in vars || vars[name] == ""
  }

  /** The schema entry named `k` has a default and `k` is unset. */
  predicate Fillable(schema: seq<VariableDef>, vars: map<string, string>, k: string) {
    exists v :: v in schema && v.name == k && HasDefault(v) && Unset(vars, k)
  }

  /** The `defaultVariables` map the effect collects, walking the schema in
      order (a later entry would overwrite an earlier one of the same name). */
  function MissingDefaults(schema: seq<VariableDef>, vars: map<string, string>): map<string, string> {
    if |schema| == 0 then map[]
    else
      var v := schema[0];
      (if HasDefault(v) && Unset(vars, v.name) then map[v.name := v.default.value] else map[])
      + MissingDefaults(schema[1..], vars)
  }

  /** The collected map holds one default per schema entry that has one and
      whose variable is unset, and nothing else. */
  lemma {:induction false} MissingDefaultsSpec(schema: seq<VariableDef>, vars: map<string, string>)
    ensures forall k :: k in MissingDefaults(schema, vars) <==> Fillable(schema, vars, k)
    ensures forall k :: k in MissingDefaults(schema, vars) ==>
      exists v :: v in schema && v.name == k && HasDefault(v) && MissingDefaults(schema, vars)[k] == v.default.value
  {
    if |schema| > 0 {
      var v := schema[0];
      MissingDefaultsSpec(schema[1..], vars);
      forall k ensures Fillable(schema, vars, k) <==> (k == v.name && HasDefault(v) && Unset(vars, k)) || Fillable(schema[1..], vars, k) {
        if Fillable(schema, vars, k) {
          var w :| w in schema && w.name == k && HasDefault(w) && Unset(vars, k);
          if w != v {
            assert w in schema[1..];
          }
        }
        if Fillable(schema[1..], vars, k) {
          var w :| w in schema[1..] && w.name == k && HasDefault(w) && Unset(vars, k);
          assert w in schema;
        }
      }
      var m := MissingDefaults(schema, vars);
      forall k | k in m
        ensures exists w :: w in schema && w.name == k && HasDefault(w) && m[k] == w.default.value
      {
        if k in MissingDefaults(schema[1..], vars) {
          var w :| w in schema[1..] && w.name == k && HasDefault(w) && MissingDefaults(schema[1..], vars)[k] == w.default.value;
          assert w in schema;
        } else {
          assert v in schema;
        }
      }
    }
  }

  /** The effect's decision: `None` when nothing is missing (no `updateData`
      call), otherwise the variables with the missing defaults added. */
  function Prepopulate(schema: seq<VariableDef>, vars: map<string, string>): (r: Option<map<string, string>>)
    ensures r.None? <==> forall k :: !Fillable(schema, vars, k)
    ensures r.Some? ==> r.value.Keys == vars.Keys + MissingDefaults(schema, vars).Keys
  {
    var extra := MissingDefaults(schema, vars);
    MissingDefaultsSpec(schema, vars);
    if |extra.Keys| == 0 then
      assert forall k :: k !in extra;
      None
    else
      assert exists k :: k in extra.Keys;
      Some(vars + extra)
  }

  /** The variables once the effect has run. */
  function Populated(schema: seq<VariableDef>, vars: map<string, string>): map<string, string> {
    Prepopulate(schema, vars).GetOr(vars)
  }

  /** Pre-population fills a variable exactly when the schema gives it a default
      and its value is absent or empty, and then with that default; every other
      key, inside the schema or not, keeps its presence and its value. */
  lemma {:induction false} PrepopulateFillsOnlyUnset(schema: seq<VariableDef>, vars: map<string, string>, k: string)
    ensures Fillable(schema, vars, k) ==>
      exists v :: v in schema && v.name == k && HasDefault(v) && k in Populated(schema, vars) && Populated(schema, vars)[k] == v.default.value
    ensures !Fillable(schema, vars, k) ==>
      (k in Populated(schema, vars) <==> k in vars) && (k in vars ==> Populated(schema, vars)[k] == vars[k])
  {
    var extra := MissingDefaults(schema, vars);
    MissingDefaultsSpec(schema, vars);
    var out := Populated(schema, vars);
    assert out == if |extra.Keys| == 0 then vars else vars + extra;
    if Fillable(schema, vars, k) {
      assert k in extra;
      var v :| v in schema && v.name == k && HasDefault(v) && extra[k] == v.default.value;
      assert k in out && out[k] == v.default.value;
    } else {
      assert k !in extra;
    }
  }

  /** Running the effect a second time finds nothing missing, so it calls
      `updateData` at most once in a row. */
  lemma {:induction false} PrepopulateIdempotent(schema: seq<VariableDef>, vars: map<string, string>)
    ensures Prepopulate(schema, Populated(schema, vars)).None?
  {
    var out := Populated(schema, vars);
    forall k ensures !Fillable(schema, out, k) {
      PrepopulateFillsOnlyUnset(schema, vars, k);
    }
  }

  /** The pre-populating effect applied to the wizard's request. */
  function ApplyDefaults(d: WizardData): (r: WizardData)
    ensures r == d.(variables := Populated(Schema(d.service), d.variables))
  {
    match Prepopulate(Schema(d.service), d.variables)
    case None => d
    case Some(vs) => Merge(d, NoChange.(variables := Some(vs)))
  }

  /** `handleVariableChange`: exactly one key of `variables` is set. */
  function SetVariable(d: WizardData, name: string, value: string): (r: WizardData)
    ensures r.variables.Keys == d.variables.Keys + {name}
    ensures r.variables[name] == value
    ensures forall k :: k in d.variables && k != name ==> r.variables[k] == d.variables[k]
    ensures r == d.(variables := r.variables)
  {
    Merge(d, NoChange.(variables := Some(d.variables[name := value])))
  }

  /** The step's local error of the JSON editor. */
  const InvalidJson := "Invalid JSON format"

  datatype EditorResult = EditorResult(data: WizardData, jsonError: string)

  /** `handleEditorChange`: text the parser accepts is stored and clears the
      error; other text only sets the error; an undefined value does nothing. */
  function EditConfig(d: WizardData, jsonError: string, value: Option<string>, json: string -> bool): (r: EditorResult)
    ensures value.None? ==> r == EditorResult(d, jsonError)
    ensures value.Some? && json(value.value) ==>
      r.data == d.(customConfig := value) && r.jsonError == ""
    ensures value.Some? && !json(value.value) ==>
      r.data == d && r.jsonError == InvalidJson
    ensures r.data.customConfig.Some? ==>
      r.data.customConfig == d.customConfig || json(r.data.customConfig.value)
  {
    match value
    case None => EditorResult(d, jsonError)
    case Some(text) =>
      if json(text) then EditorResult(Merge(d, NoChange.(customConfig := Some(text))), "")
      else EditorResult(d, InvalidJson)
  }

  /** `!data.variables[name]?.trim()`: absent, or blank once trimmed. */
  predicate BlankValue(vars: map<string, string>, name: string) {
    name !in vars || Blank(vars[name])
  }

  /** `missingVariables`: the labels of the required variables whose trimmed
      value is empty, in schema order. */
  function MissingLabels(schema: seq<VariableDef>, vars: map<string, string>): (r: seq<string>)
    ensures |r| <= |schema|
  {
    if |schema| == 0 then []
    else
      var v := schema[0];
      var rest := MissingLabels(schema[1..], vars);
      if v.required && (v.name !in vars || Trim(vars[v.name]) == "") then [v.title] + rest else rest
  }

  /** A label is reported exactly when a required schema entry with that label
      has a blank or absent value; none is reported exactly when every required
      entry is filled in. */
  lemma {:induction false} MissingLabelsSpec(schema: seq<VariableDef>, vars: map<string, string>)
    ensures MissingLabels(schema, vars) == [] <==> forall v :: v in schema && v.required ==> !BlankValue(vars, v.name)
    ensures forall l :: l in MissingLabels(schema, vars) <==>
      exists v :: v in schema && v.required && BlankValue(vars, v.name) && v.title == l
  {
    if |schema| > 0 {
      MissingLabelsSpec(schema[1..], vars);
      var v := schema[0];
      assert forall w :: w in schema <==> w == v || w in schema[1..];
    }
  }

  /** The report follows the schema: the labels for a schema made of two
      parts are those of the first part followed by those of the second. */
  lemma {:induction false} MissingLabelsAppend(a: seq<VariableDef>, b: seq<VariableDef>, vars: map<string, string>)
    ensures MissingLabels(a + b, vars) == MissingLabels(a, vars) + MissingLabels(b, vars)
  {
    if |a| > 0 {
      assert (a + b)[1..] == a[1..] + b;
      MissingLabelsAppend(a[1..], b, vars);
    } else {
      assert a + b == b;
    }
  }

  /** One entry contributes its label once when it is required and blank,
      and nothing otherwise. */
  lemma MissingLabelsOne(v: VariableDef, vars: map<string, string>)
    ensures MissingLabels([v], vars) == if v.required && BlankValue(vars, v.name) then [v.title] else []
  {
    assert [v][1..] == [];
  }

  const FieldsPrefix := "Please fill in required fields: "
  const FixJson := "Please fix the JSON configuration errors before proceeding."

  /** The tabs of the step; a failed Continue switches to the one at fault. */
  datatype Tab = VariablesTab | ConfigTab | OptionsTab

  datatype VariablesOutcome = VariablesOutcome(outcome: StepOutcome, tab: Option<Tab>)

  /** `handleNext`: missing required variables are reported first, by label,
      then a pending JSON error; the step advances only when neither applies. */
  function Next(d: WizardData, jsonError: string): (r: VariablesOutcome)
    ensures r.outcome.Advance? <==>
      (forall v :: v in Schema(d.service) && v.required ==> !BlankValue(d.variables, v.name)) && jsonError == ""
    ensures r.outcome.Advance? ==> r.tab == None
    ensures MissingLabels(Schema(d.service), d.variables) != [] ==>
      r == VariablesOutcome(Blocked(FieldsPrefix + Join(MissingLabels(Schema(d.service), d.variables), ", ")), Some(VariablesTab))
    ensures MissingLabels(Schema(d.service), d.variables) == [] && jsonError != "" ==>
      r == VariablesOutcome(Blocked(FixJson), Some(ConfigTab))
  {
    var missing := MissingLabels(Schema(d.service), d.variables);
    MissingLabelsSpec(Schema(d.service), d.variables);
    if |missing| > 0 then
      VariablesOutcome(Blocked(FieldsPrefix + Join(missing, ", ")), Some(VariablesTab))
    else if jsonError != "" then
      VariablesOutcome(Blocked(FixJson), Some(ConfigTab))
    else
      VariablesOutcome(Advance, None)
  }

  /** A service outside the catalog has no variables, so only the JSON error
      can stop the step. */
  lemma UnknownServicePasses(d: WizardData)
    requires d.service !in ServiceStep.CatalogIds
    ensures Next(d, "").outcome.Advance?
  {
  }

  /** An entry with a default whose variable is unset receives exactly that
      entry's default. */
  lemma DefaultFilledAt(schema: seq<VariableDef>, vars: map<string, string>, i: int)
    requires NamesDistinct(schema) && 0 <= i < |schema|
    requires HasDefault(schema[i]) && Unset(vars, schema[i].name)
    ensures schema[i].name in Populated(schema, vars)
    ensures Populated(schema, vars)[schema[i].name] == schema[i].default.value
  {
    assert schema[i] in schema;
    PrepopulateFillsOnlyUnset(schema, vars, schema[i].name);
  }

  /** The compute-engine variables hold the three schema defaults. */
  predicate HasComputeEngineDefaults(vars: map<string, string>) {
    && "machine_type" in vars && vars["machine_type"] == "e2-medium"
    && "zone" in vars && vars["zone"] == "us-central1-a"
    && "image" in vars && vars["image"] == "ubuntu-2004-lts"
  }

  /** When machine type, zone and image are unset, the effect fills in all
      three defaults and leaves the instance name as it was. */
  lemma ComputeEngineDefaultsFilled(vars: map<string, string>)
    requires Unset(vars, "machine_type") && Unset(vars, "zone") && Unset(vars, "image")
    ensures HasComputeEngineDefaults(Populated(ComputeEngineVars, vars))
    ensures "instance_name" in vars ==>
      "instance_name" in Populated(ComputeEngineVars, vars) && Populated(ComputeEngineVars, vars)["instance_name"] == vars["instance_name"]
  {
    var s := ComputeEngineVars;
    assert NamesDistinct(s);
    DefaultFilledAt(s, vars, 1);
    DefaultFilledAt(s, vars, 2);
    DefaultFilledAt(s, vars, 3);
    PrepopulateFillsOnlyUnset(s, vars, "instance_name");
  }

  /** The defaulted compute-engine variables are never reported while they
      are filled in. */
  lemma ComputeEngineRestFilled(vars: map<string, string>)
    requires !BlankValue(vars, "machine_type") && !BlankValue(vars, "zone") && !BlankValue(vars, "image")
    ensures MissingLabels(ComputeEngineVars[1..], vars) == []
  {
    MissingLabelsSpec(ComputeEngineVars[1..], vars);
  }

  /** The three compute-engine defaults are not blank, so they satisfy the
      guard. */
  lemma ComputeEngineDefaultsSatisfy(vars: map<string, string>)
    requires HasComputeEngineDefaults(vars)
    ensures MissingLabels(ComputeEngineVars[1..], vars) == []
  {
    assert !BlankValue(vars, "machine_type") && !BlankValue(vars, "zone") && !BlankValue(vars, "image") by {
      assert !IsSpace(vars["machine_type"][0]);
      assert !IsSpace(vars["zone"][0]);
      assert !IsSpace(vars["image"][0]);
    }
    ComputeEngineRestFilled(vars);
  }

  /** Once the defaulted variables are satisfied, only the instance name can
      be reported. */
  lemma ComputeEngineOnlyName(vars: map<string, string>)
    requires MissingLabels(ComputeEngineVars[1..], vars) == []
    ensures MissingLabels(ComputeEngineVars, vars) == if BlankValue(vars, "instance_name") then ["Instance Name"] else []
  {
  }

  /** With the defaults in, the compute-engine step advances exactly when the
      instance name is filled in, and otherwise names only that field. */
  lemma ComputeEngineGuard(d: WizardData)
    requires d.service == "compute-engine" && HasComputeEngineDefaults(d.variables)
    ensures Next(d, "").outcome.Advance? <==> !BlankValue(d.variables, "instance_name")
    ensures BlankValue(d.variables, "instance_name") ==>
      Next(d, "").outcome == Blocked(FieldsPrefix + "Instance Name")
  {
    ComputeEngineDefaultsSatisfy(d.variables);
    ComputeEngineOnlyName(d.variables);
    assert Schema(d.service) == ComputeEngineVars;
    assert Join(["Instance Name"], ", ") == "Instance Name";
  }

  /** The compute-engine request with only an instance name typed in. */
  function ComputeEngineRequest(instanceName: string): WizardData {
    WizardData("demo", "GCP", "compute-engine", map["instance_name" := instanceName], None, false)
  }

  /** With only an instance name typed in, the effect supplies the rest, and
      Continue advances exactly when the name is not blank; a blank name is
      reported by its label alone. */
  lemma ComputeEngineNamed(instanceName: string)
    ensures Next(ApplyDefaults(ComputeEngineRequest(instanceName)), "").outcome.Advance? <==> !Blank(instanceName)
    ensures Blank(instanceName) ==>
      Next(ApplyDefaults(ComputeEngineRequest(instanceName)), "").outcome == Blocked(FieldsPrefix + "Instance Name")
  {
    var d := ComputeEngineRequest(instanceName);
    ComputeEngineDefaultsFilled(d.variables);
    var e := ApplyDefaults(d);
    assert e.service == "compute-engine" && e.variables == Populated(ComputeEngineVars, d.variables);
    ComputeEngineGuard(e);
  }

  /** Text the parser rejects blocks Continue whatever the variables hold:
      with complete variables the JSON message is shown. */
  lemma {:induction false} RejectedConfigBlocks(d: WizardData, text: string, json: string -> bool)
    requires !json(text)
    ensures !Next(d, EditConfig(d, "", Some(text), json).jsonError).outcome.Advance?
    ensures MissingLabels(Schema(d.service), d.variables) == [] ==>
      Next(d, EditConfig(d, "", Some(text), json).jsonError).outcome == Blocked(FixJson)
  {
  }
}
