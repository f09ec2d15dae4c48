/** The credential configuration page of CloudProviderConfig.tsx: the field
    schema of each provider, the per-provider form state, and the save,
    delete and lookup handlers over the credential list. The list written to
    browser storage is the page's `credentials`; the clock is the parameter
    `now`, and the confirmation dialog is the parameter `confirmed`. */
module CredentialConfig {
  import opened Common
  import opened CloudProviders

  datatype FieldKind = TextField | TextAreaField | PasswordField

  /** One form field; `default` only fills the placeholder. */
  datatype FieldDef = FieldDef(key: string, title: string, kind: FieldKind, required: bool, secret: bool, default: Option<string>)

  /** One entry of `providers`; the tab colour is not modelled. */
  datatype ProviderDef = ProviderDef(id: string, name: string, fields: seq<FieldDef>)

  const GcpFields: seq<FieldDef> := [
    FieldDef("project_id", "Project ID", TextField, true, false, None),
    FieldDef("service_account_key", "Service Account Key (JSON)", TextAreaField, true, true, None),
    FieldDef("region", "Default Region", TextField, true, false, Some("us-central1"))]

  const AwsFields: seq<FieldDef> := [
    FieldDef("access_key_id", "Access Key ID", TextField, true, true, None),
    FieldDef("secret_access_key", "Secret Access Key", PasswordField, true, true, None),
    FieldDef("region", "Default Region", TextField, true, false, Some("us-east-1")),
    FieldDef("session_token", "Session Token (Optional)", PasswordField, false, true, None)]

  const AzureFields: seq<FieldDef> := [
    FieldDef("subscription_id", "Subscription ID", TextField, true, false, None),
    FieldDef("client_id", "Client ID", TextField, true, false, None),
    FieldDef("client_secret", "Client Secret", PasswordField, true, true, None),
    FieldDef("tenant_id", "Tenant ID", TextField, true, false, None),
    FieldDef("location", "Default Location", TextField, true, false, Some("East US"))]

  const ProviderDefs: seq<ProviderDef> := [
    ProviderDef("gcp", "Google Cloud Platform", GcpFields),
    ProviderDef("aws", "Amazon Web Services", AwsFields),
    ProviderDef("azure", "Microsoft Azure", AzureFields)]

  /** The page's provider ids: lower case, unlike the wizard's. */
  predicate IsPageProvider(id: string) {
    id == "gcp" || id == "aws" || id == "azure"
  }

  /** `providers.find(p => p.id === providerId)`. */
  function FindDef(providerId: string): (r: Option<ProviderDef>)
    ensures r.Some? <==> IsPageProvider(providerId)
    ensures r.Some? ==> r.value in ProviderDefs && r.value.id == providerId
  {
    if providerId == "gcp" then Some(ProviderDefs[0])
    else if providerId == "aws" then Some(ProviderDefs[1])
    else if providerId == "azure" then Some(ProviderDefs[2])
    else None
  }

  /** The page state: the credential list and the form data per provider. */
  datatype ConfigState = ConfigState(credentials: seq<Credential>, formData: map<string, map<string, string>>)

  /** The mount effect: a non-empty stored item that parses replaces the
      empty list; anything else leaves it empty. */
  function Mount(item: Option<string>, parse: string -> Option<seq<Credential>>): (st: ConfigState)
    ensures st.formData == map[]
    ensures st.credentials != [] ==> item.Some? && parse(item.value) == Some(st.credentials)
  {
    var list := match item
      case Some(text) => if text == "" then [] else parse(text).GetOr([])
      case None => [];
    ConfigState(list, map[])
  }

  /** The page and the library read the same stored item alike. */
  lemma MountAgreesWithRegistry(item: Option<string>, parse: string -> Option<seq<Credential>>)
    ensures Mount(item, parse).credentials == GetConfiguredProviders(Window(item), parse)
  {
  }

  /** `formData[providerId] || {}`. */
  function FormOf(formData: map<string, map<string, string>>, providerId: string): map<string, string> {
    if providerId in formData then formData[providerId] else map[]
  }

  /** `handleInputChange`: one field of one provider's form is set; every
      other field and every other provider's form keeps its value. */
  function InputChange(st: ConfigState, providerId: string, field: string, value: string): (r: ConfigState)
    ensures r.credentials == st.credentials
    ensures r.formData.Keys == st.formData.Keys + {providerId}
    ensures FormOf(r.formData, providerId) == FormOf(st.formData, providerId)[field := value]
    ensures forall p :: p in st.formData && p != providerId ==> r.formData[p] == st.formData[p]
  {
    st.(formData := st.formData[providerId := FormOf(st.formData, providerId)[field := value]])
  }

  /** `!providerData[key]?.trim()`. */
  predicate BlankField(data: map<string, string>, key: string) {
    key !in data || Blank(data[key])
  }

  /** `missingFields.map(f => f.label)`: the labels of the required fields
      that are absent or blank, in schema order. Defaults are not consulted. */
  function MissingFields(fields: seq<FieldDef>, data: map<string, string>): (r: seq<string>)
    ensures |r| <= |fields|
  {
    if |fields| == 0 then []
    else
      var f := fields[0];
      var rest := MissingFields(fields[1..], data);
      if f.required && (f.key !in data || Trim(data[f.key]) == "") then [f.title] + rest else rest
  }

  /** No label is reported exactly when every required field is filled in,
      and a label is reported exactly when some blank required field has it. */
  lemma {:induction false} MissingFieldsSpec(fields: seq<FieldDef>, data: map<string, string>)
    ensures MissingFields(fields, data) == [] <==> forall f :: f in fields && f.required ==> !BlankField(data, f.key)
    ensures forall l :: l in MissingFields(fields, data) <==>
      exists f :: f in fields && f.required && BlankField(data, f.key) && f.title == l
  {
    if |fields| > 0 {
      MissingFieldsSpec(fields[1..], data);
      var f := fields[0];
      assert forall g :: g in fields <==> g == f || g in fields[1..];
    }
  }

  /** The report follows the field order: the labels for fields made of two
      parts are those of the first part followed by those of the second. */
  lemma {:induction false} MissingFieldsAppend(a: seq<FieldDef>, b: seq<FieldDef>, data: map<string, string>)
    ensures MissingFields(a + b, data) == MissingFields(a, data) + MissingFields(b, data)
  {
    if |a| > 0 {
      assert (a + b)[1..] == a[1..] + b;
      MissingFieldsAppend(a[1..], b, data);
    } else {
      assert a + b == b;
    }
  }

  /** One field contributes its label once when it is required and blank,
      and nothing otherwise. */
  lemma MissingFieldsOne(f: FieldDef, data: map<string, string>)
    ensures MissingFields([f], data) == if f.required && BlankField(data, f.key) then [f.title] else []
  {
    assert [f][1..] == [];
  }

  /** The entries of `list` for the provider `providerId`, in order. */
  function EntriesFor(list: seq<Credential>, providerId: string): seq<Credential> {
    if |list| == 0 then []
    else (if list[0].provider == providerId then [list[0]] else []) + EntriesFor(list[1..], providerId)
  }

  /** `credentials.filter(c => c.provider !== providerId)`. */
  function WithoutProvider(list: seq<Credential>, providerId: string): (r: seq<Credential>)
    ensures |r| <= |list|
    ensures forall c :: c in r <==> c in list && c.provider != providerId
  {
    if |list| == 0 then []
    else (if list[0].provider != providerId then [list[0]] else []) + WithoutProvider(list[1..], providerId)
  }

  /** The filter keeps list order: filtering two lists in a row is filtering
      each and concatenating. */
  lemma {:induction false} WithoutProviderAppend(a: seq<Credential>, b: seq<Credential>, providerId: string)
    ensures WithoutProvider(a + b, providerId) == WithoutProvider(a, providerId) + WithoutProvider(b, providerId)
  {
    if |a| > 0 {
      assert (a + b)[1..] == a[1..] + b;
      WithoutProviderAppend(a[1..], b, providerId);
    } else {
      assert a + b == b;
    }
  }

  /** One entry is kept, once, exactly when it belongs to another provider. */
  lemma WithoutProviderOne(c: Credential, providerId: string)
    ensures WithoutProvider([c], providerId) == if c.provider != providerId then [c] else []
  {
    assert [c][1..] == [];
  }

  /** Selecting one provider's entries distributes over concatenation. */
  lemma {:induction false} EntriesForAppend(a: seq<Credential>, b: seq<Credential>, q: string)
    ensures EntriesFor(a + b, q) == EntriesFor(a, q) + EntriesFor(b, q)
  {
    if |a| > 0 {
      assert (a + b)[1..] == a[1..] + b;
      EntriesForAppend(a[1..], b, q);
    } else {
      assert a + b == b;
    }
  }

  /** Removing a provider's entries leaves none of them and keeps every other
      provider's entries, in order. */
  lemma {:induction false} EntriesWithout(list: seq<Credential>, p: string, q: string)
    ensures EntriesFor(WithoutProvider(list, p), q) == if p == q then [] else EntriesFor(list, q)
  {
    if |list| > 0 {
      var head := if list[0].provider != p then [list[0]] else [];
      EntriesForAppend(head, WithoutProvider(list[1..], p), q);
      EntriesWithout(list[1..], p, q);
    }
  }

  const FieldsPrefix := "Please fill in required fields: "

  /** What a Save click does: nothing for an unknown id, an alert naming the
      missing fields, or the new state with the success alert. */
  datatype SaveOutcome = Ignored | Rejected(alert: string) | Saved(state: ConfigState, alert: string)

  /** The entry a successful save creates. */
  function NewCredential(def: ProviderDef, data: map<string, string>, now: nat): Credential {
    Credential(def.id + "-" + NatToDecimal(now), def.id, def.name + " Configuration", data, true, now)
  }

  /** `handleSaveCredentials`: an unknown id is ignored; with a required
      field blank nothing is stored; otherwise the provider's old entries are
      dropped, the new one is appended, and its form is reset. */
  function Save(st: ConfigState, providerId: string, now: nat): (r: SaveOutcome)
    ensures r.Ignored? <==> !IsPageProvider(providerId)
    ensures r.Rejected? <==> (IsPageProvider(providerId) &&
      exists f :: f in FindDef(providerId).value.fields && f.required && BlankField(FormOf(st.formData, providerId), f.key))
    ensures r.Rejected? ==>
      r.alert == FieldsPrefix + Join(MissingFields(FindDef(providerId).value.fields, FormOf(st.formData, providerId)), ", ")
    ensures r.Saved? ==> r.state.formData == st.formData[providerId := map[]]
  {
    match FindDef(providerId)
    case None => Ignored
    case Some(def) =>
      var data := FormOf(st.formData, providerId);
      var missing := MissingFields(def.fields, data);
      MissingFieldsSpec(def.fields, data);
      if |missing| > 0 then
        Rejected(FieldsPrefix + Join(missing, ", "))
      else
        var list := WithoutProvider(st.credentials, providerId) + [NewCredential(def, data, now)];
        Saved(ConfigState(list, st.formData[providerId := map[]]), def.name + " credentials saved successfully!")
  }

  /** The list a successful save stores: the other providers' entries in
      their old order, then the new entry. */
  lemma SavedList(st: ConfigState, providerId: string, now: nat)
    ensures Save(st, providerId, now).Saved? ==>
      Save(st, providerId, now).state.credentials ==
        WithoutProvider(st.credentials, providerId) + [NewCredential(FindDef(providerId).value, FormOf(st.formData, providerId), now)]
  {
  }

  /** After a successful save the provider has exactly one entry, the new
      one, at the end of the list; every other provider's entries are kept,
      in order. Saving again therefore still leaves one entry. */
  lemma SaveReplaces(st: ConfigState, providerId: string, now: nat)
    ensures Save(st, providerId, now).Saved? ==> var list := Save(st, providerId, now).state.credentials;
      EntriesFor(list, providerId) ==
        [NewCredential(FindDef(providerId).value, FormOf(st.formData, providerId), now)] &&
      list[|list| - 1] == NewCredential(FindDef(providerId).value, FormOf(st.formData, providerId), now)
  {
    if Save(st, providerId, now).Saved? {
      var c := NewCredential(FindDef(providerId).value, FormOf(st.formData, providerId), now);
      var kept := WithoutProvider(st.credentials, providerId);
      SavedList(st, providerId, now);
      EntriesWithout(st.credentials, providerId, providerId);
      EntriesForAppend(kept, [c], providerId);
    }
  }

  /** A save leaves every other provider's entries as they were, in order. */
  lemma SaveKeepsOthers(st: ConfigState, providerId: string, now: nat, q: string)
    requires q != providerId
    ensures Save(st, providerId, now).Saved? ==> EntriesFor(Save(st, providerId, now).state.credentials, q) == EntriesFor(st.credentials, q)
  {
    if Save(st, providerId, now).Saved? {
      var c := NewCredential(FindDef(providerId).value, FormOf(st.formData, providerId), now);
      var kept := WithoutProvider(st.credentials, providerId);
      SavedList(st, providerId, now);
      EntriesWithout(st.credentials, providerId, q);
      EntriesForAppend(kept, [c], q);
    }
  }

  /** The new entry is identified by provider and time, named after the
      provider, carries the form data and is marked configured. */
  lemma SavedEntry(st: ConfigState, providerId: string, now: nat)
    ensures Save(st, providerId, now).Saved? ==> var c := NewCredential(FindDef(providerId).value, FormOf(st.formData, providerId), now);
      c.provider == providerId && c.isConfigured && c.credentials == FormOf(st.formData, providerId) &&
      c.id == providerId + "-" + NatToDecimal(now) &&
      c.name == FindDef(providerId).value.name + " Configuration"
  {
  }

  /** The form is cleared by a save, so a second click without retyping is
      refused: every provider has a required field. */
  lemma SaveAgainRejected(st: ConfigState, providerId: string, now: nat, later: nat)
    ensures Save(st, providerId, now).Saved? ==> Save(Save(st, providerId, now).state, providerId, later).Rejected?
  {
    if Save(st, providerId, now).Saved? {
      var def := FindDef(providerId).value;
      assert def.fields[0] in def.fields && def.fields[0].required;
    }
  }

  /** Defaults are placeholders only: a Google Cloud form without a region is
      refused even though the region field shows a default. */
  lemma DefaultsNotApplied(st: ConfigState, now: nat)
    requires "gcp" in st.formData && "region" !in st.formData["gcp"]
    ensures GcpFields[2].default.Some?
    ensures Save(st, "gcp", now).Rejected?
  {
    assert GcpFields[2] in FindDef("gcp").value.fields;
  }

  /** `handleDeleteCredentials`: once confirmed, the entries with that id are
      removed and the others kept; a declined confirmation keeps the list. */
  function Delete(st: ConfigState, credentialId: string, confirmed: bool): (r: ConfigState)
    ensures r.formData == st.formData
    ensures !confirmed ==> r == st
    ensures confirmed ==> forall c :: c in r.credentials <==> c in st.credentials && c.id != credentialId
  {
    if confirmed then st.(credentials := WithoutId(st.credentials, credentialId)) else st
  }

  /** `credentials.filter(c => c.id !== credentialId)`. */
  function WithoutId(list: seq<Credential>, credentialId: string): (r: seq<Credential>)
    ensures |r| <= |list|
    ensures forall c :: c in r <==> c in list && c.id != credentialId
  {
    if |list| == 0 then []
    else (if list[0].id != credentialId then [list[0]] else []) + WithoutId(list[1..], credentialId)
  }

  /** The filter keeps list order: filtering two lists in a row is filtering
      each and concatenating. */
  lemma {:induction false} WithoutIdAppend(a: seq<Credential>, b: seq<Credential>, credentialId: string)
    ensures WithoutId(a + b, credentialId) == WithoutId(a, credentialId) + WithoutId(b, credentialId)
  {
    if |a| > 0 {
      assert (a + b)[1..] == a[1..] + b;
      WithoutIdAppend(a[1..], b, credentialId);
    } else {
      assert a + b == b;
    }
  }

  /** One entry is kept, once, exactly when it carries another id. */
  lemma WithoutIdOne(c: Credential, credentialId: string)
    ensures WithoutId([c], credentialId) == if c.id != credentialId then [c] else []
  {
    assert [c][1..] == [];
  }

  /** Deleting by id and selecting a provider's entries commute. */
  lemma {:induction false} EntriesForWithoutId(list: seq<Credential>, credentialId: string, providerId: string)
    ensures EntriesFor(WithoutId(list, credentialId), providerId) ==
      WithoutId(EntriesFor(list, providerId), credentialId)
  {
    if |list| > 0 {
      var head := if list[0].id != credentialId then [list[0]] else [];
      EntriesForAppend(head, WithoutId(list[1..], credentialId), providerId);
      var sel := if list[0].provider == providerId then [list[0]] else [];
      WithoutIdAppend(sel, EntriesFor(list[1..], providerId), credentialId);
      EntriesForWithoutId(list[1..], credentialId, providerId);
      assert [list[0]][1..] == [];
    }
  }

  /** Deleting an id no entry carries changes nothing. */
  lemma {:induction false} DeleteAbsentId(list: seq<Credential>, credentialId: string)
    requires forall c :: c in list ==> c.id != credentialId
    ensures WithoutId(list, credentialId) == list
  {
    if |list| > 0 {
      assert list[0] in list;
      assert forall c :: c in list[1..] ==> c in list;
      DeleteAbsentId(list[1..], credentialId);
      assert list == [list[0]] + list[1..];
    }
  }

  /** `getConfiguredProvider`: the first entry whose provider equals the id
      exactly. */
  function GetConfiguredProvider(list: seq<Credential>, providerId: string): (r: Option<Credential>)
    ensures r.Some? ==> r.value in list && r.value.provider == providerId
    ensures r.None? <==> forall c :: c in list ==> c.provider != providerId
  {
    if |list| == 0 then None
    else if list[0].provider == providerId then Some(list[0])
    else
      assert forall c :: c in list[1..] ==> c in list;
      assert forall c :: c in list ==> c == list[0] || c in list[1..];
      GetConfiguredProvider(list[1..], providerId)
  }

  /** The first entry of a provider is the first of its selected entries. */
  lemma {:induction false} ConfiguredIsFirstEntry(list: seq<Credential>, providerId: string)
    ensures GetConfiguredProvider(list, providerId) ==
      if EntriesFor(list, providerId) == [] then None else Some(EntriesFor(list, providerId)[0])
  {
    if |list| > 0 {
      ConfiguredIsFirstEntry(list[1..], providerId);
    }
  }

  /** After a confirmed delete the page shows, for each provider, its first
      stored entry that does not carry the deleted id. */
  lemma DeleteShowsFirstRemaining(st: ConfigState, credentialId: string, providerId: string)
    ensures var rest := WithoutId(EntriesFor(st.credentials, providerId), credentialId);
      GetConfiguredProvider(Delete(st, credentialId, true).credentials, providerId) ==
        if rest == [] then None else Some(rest[0])
  {
    ConfiguredIsFirstEntry(WithoutId(st.credentials, credentialId), providerId);
    EntriesForWithoutId(st.credentials, credentialId, providerId);
  }

  /** After a save the page shows the new entry for that provider. */
  lemma SaveShowsNewEntry(st: ConfigState, providerId: string, now: nat)
    ensures Save(st, providerId, now).Saved? ==>
      GetConfiguredProvider(Save(st, providerId, now).state.credentials, providerId) ==
      Some(NewCredential(FindDef(providerId).value, FormOf(st.formData, providerId), now))
  {
    if Save(st, providerId, now).Saved? {
      SaveReplaces(st, providerId, now);
      ConfiguredIsFirstEntry(Save(st, providerId, now).state.credentials, providerId);
    }
  }

  /** When storage round-trips the saved list, the registry reports the
      saved provider configured under any id equal to the page's id up to
      ASCII case. */
  lemma SavedIsConfigured(st: ConfigState, providerId: string, now: nat, text: string,
                          parse: string -> Option<seq<Credential>>, list: seq<Credential>, query: string)
    requires text != "" && parse(text) == Some(list)
    requires EqualsIgnoreCase(providerId, query)
    ensures Save(st, providerId, now).Saved? && list == Save(st, providerId, now).state.credentials ==>
      IsProviderConfigured(Window(Some(text)), parse, query)
  {
    if Save(st, providerId, now).Saved? && list == Save(st, providerId, now).state.credentials {
      SaveReplaces(st, providerId, now);
      var c := list[|list| - 1];
      assert c.provider == FindDef(providerId).value.id == providerId;
      assert MatchesProvider(c, query);
      assert GetConfiguredProviders(Window(Some(text)), parse) == list;
    }
  }

  /** The id the wizard's provider cards use for each provider of this
      page: the same letters, upper-case or capitalised. */
  function WizardId(pageId: string): (r: string)
    requires IsPageProvider(pageId)
    ensures r != pageId && EqualsIgnoreCase(pageId, r)
  {
    assert ToLower("gcp") == ToLower("GCP") == "gcp";
    assert ToLower("aws") == ToLower("AWS") == "aws";
    assert ToLower("azure") == ToLower("Azure") == "azure";
    if pageId == "gcp" then "GCP" else if pageId == "aws" then "AWS" else "Azure"
  }

  /** In particular a save on one of the page's lower-case tabs makes the
      provider configured under the wizard's id for it. */
  lemma SavedShowsInWizard(st: ConfigState, pageId: string, now: nat, text: string,
                           parse: string -> Option<seq<Credential>>, list: seq<Credential>)
    requires text != "" && parse(text) == Some(list)
    ensures Save(st, pageId, now).Saved? && list == Save(st, pageId, now).state.credentials ==>
      IsProviderConfigured(Window(Some(text)), parse, WizardId(pageId))
  {
    if Save(st, pageId, now).Saved? {
      SavedIsConfigured(st, pageId, now, text, parse, list, WizardId(pageId));
    }
  }
}
