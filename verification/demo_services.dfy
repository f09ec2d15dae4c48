/** The dry-run preview of DemoServices.tsx: a fixed table of three resources
    per provider key, instantiated with the project name; the total monthly
    cost folded over the listed resources; and the effect that regenerates the
    list when the preview is shown. Costs are kept in whole cents. */
module DemoServices {
  import opened Common

  /** One previewed resource (`DemoService`); `kind` is the `type` field of DemoServices.tsx.
      The display-only specs, icon and colour are not modelled. */
  datatype Resource = Resource(
    id: string,
    name: string,
    kind: string,
    status: string,
    provider: string,
    region: string,
    cost: string)

  /** One row of the fixed table: the project name is prefixed to both
      suffixes when the row is instantiated, and the monthly cost, kept in
      cents, is printed as `$<dollars>.<cents>/month`. */
  datatype Template = Template(idSuffix: string, nameSuffix: string, kind: string, region: string, cents: nat)

  const GcpTemplates: seq<Template> := [
    Template("-web-server", "-web-server", "Compute Engine", "us-central1-a", 2467),
    Template("-database", "-postgres-db", "Cloud SQL", "us-central1", 4530),
    Template("-k8s-cluster", "-gke-cluster", "Google Kubernetes Engine", "us-central1", 7300)
  ]

  const AwsTemplates: seq<Template> := [
    Template("-ec2-instance", "-web-server", "EC2 Instance", "us-east-1", 2990),
    Template("-rds-database", "-mysql-db", "RDS Database", "us-east-1", 5220),
    Template("-eks-cluster", "-eks-cluster", "EKS Cluster", "us-east-1", 8550)
  ]

  const AzureTemplates: seq<Template> := [
    Template("-vm", "-web-vm", "Virtual Machine", "East US", 3115),
    Template("-cosmosdb", "-cosmos-db", "Cosmos DB", "East US", 4875),
    Template("-aks-cluster", "-aks-cluster", "AKS Cluster", "East US", 7890)
  ]

  /** The keys of `baseServices`, matched case-sensitively. */
  predicate IsPreviewKey(provider: string) {
    provider == "gcp" || provider == "aws" || provider == "azure"
  }

  /** The rows for a key and the provider name they carry; none for any
      other string. */
  function Table(provider: string): (seq<Template>, string) {
    if provider == "gcp" then (GcpTemplates, "Google Cloud Platform")
    else if provider == "aws" then (AwsTemplates, "Amazon Web Services")
    else if provider == "azure" then (AzureTemplates, "Microsoft Azure")
    else ([], "")
  }

  /** The cost text of a row: `$`, the amount as `toFixed(2)` prints it,
      and `/month`. */
  function CostText(cents: nat): string {
    "$" + FormatCents(cents) + "/month"
  }

  /** Every row's cost prints as the table writes it. */
  lemma CostTextAsWritten()
    ensures CostText(GcpTemplates[0].cents) == "$24.67/month"
    ensures CostText(GcpTemplates[1].cents) == "$45.30/month"
    ensures CostText(GcpTemplates[2].cents) == "$73.00/month"
    ensures CostText(AwsTemplates[0].cents) == "$29.90/month"
    ensures CostText(AwsTemplates[1].cents) == "$52.20/month"
    ensures CostText(AwsTemplates[2].cents) == "$85.50/month"
    ensures CostText(AzureTemplates[0].cents) == "$31.15/month"
    ensures CostText(AzureTemplates[1].cents) == "$48.75/month"
    ensures CostText(AzureTemplates[2].cents) == "$78.90/month"
  {
    GcpCostTexts();
    AwsCostTexts();
    AzureCostTexts();
  }

  lemma GcpCostTexts()
    ensures CostText(GcpTemplates[0].cents) == "$24.67/month"
    ensures CostText(GcpTemplates[1].cents) == "$45.30/month"
    ensures CostText(GcpTemplates[2].cents) == "$73.00/month"
  {
    Cents2467();
    Cents4530();
    Cents7300();
  }

  lemma AwsCostTexts()
    ensures CostText(AwsTemplates[0].cents) == "$29.90/month"
    ensures CostText(AwsTemplates[1].cents) == "$52.20/month"
    ensures CostText(AwsTemplates[2].cents) == "$85.50/month"
  {
    Cents2990();
    Cents5220();
    Cents8550();
  }

  lemma AzureCostTexts()
    ensures CostText(AzureTemplates[0].cents) == "$31.15/month"
    ensures CostText(AzureTemplates[1].cents) == "$48.75/month"
    ensures CostText(AzureTemplates[2].cents) == "$78.90/month"
  {
    Cents3115();
    Cents4875();
    Cents7890();
  }

  lemma Cents2467()
    ensures CostText(2467) == "$24.67/month"
  {
    assert NatToDecimal(24) == "24";
    assert FormatCents(2467) == "24.67";
  }

  lemma Cents4530()
    ensures CostText(4530) == "$45.30/month"
  {
    assert NatToDecimal(45) == "45";
    assert FormatCents(4530) == "45.30";
  }

  lemma Cents7300()
    ensures CostText(7300) == "$73.00/month"
  {
    assert NatToDecimal(73) == "73";
    assert FormatCents(7300) == "73.00";
  }

  lemma Cents2990()
    ensures CostText(2990) == "$29.90/month"
  {
    assert NatToDecimal(29) == "29";
    assert FormatCents(2990) == "29.90";
  }

  lemma Cents5220()
    ensures CostText(5220) == "$52.20/month"
  {
    assert NatToDecimal(52) == "52";
    assert FormatCents(5220) == "52.20";
  }

  lemma Cents8550()
    ensures CostText(8550) == "$85.50/month"
  {
    assert NatToDecimal(85) == "85";
    assert FormatCents(8550) == "85.50";
  }

  lemma Cents3115()
    ensures CostText(3115) == "$31.15/month"
  {
    assert NatToDecimal(31) == "31";
    assert FormatCents(3115) == "31.15";
  }

  lemma Cents4875()
    ensures CostText(4875) == "$48.75/month"
  {
    assert NatToDecimal(48) == "48";
    assert FormatCents(4875) == "48.75";
  }

  lemma Cents7890()
    ensures CostText(7890) == "$78.90/month"
  {
    assert NatToDecimal(78) == "78";
    assert FormatCents(7890) == "78.90";
  }

  function Instantiate(t: Template, project: string, providerName: string): Resource {
    Resource(project + t.idSuffix, project + t.nameSuffix, t.kind, "running", providerName, t.region, CostText(t.cents))
  }

  /** Every row made concrete, in order. */
  function InstantiateAll(rows: seq<Template>, project: string, providerName: string): (r: seq<Resource>)
    ensures |r| == |rows|
    ensures forall i :: 0 <= i < |rows| ==> r[i] == Instantiate(rows[i], project, providerName)
  {
    if |rows| == 0 then [] else [Instantiate(rows[0], project, providerName)] + InstantiateAll(rows[1..], project, providerName)
  }

  /** `generateDemoServices`: each row of the key's table, in order, made
      concrete for `project`: a running resource of the key's provider whose
      id is the project name followed by the row's suffix. */
  function Generate(provider: string, project: string): (r: seq<Resource>)
    ensures |r| == |Table(provider).0|
    ensures forall i :: 0 <= i < |r| ==>
      r[i].status == "running" && r[i].provider == Table(provider).1 &&
      r[i].id == project + Table(provider).0[i].idSuffix && r[i].cost == CostText(Table(provider).0[i].cents)
  {
    InstantiateAll(Table(provider).0, project, Table(provider).1)
  }

  /** The three preview keys give three resources each, a compute resource, a
      database and a cluster in that order; any other string, the wizard's
      upper-case ids included, gives none. */
  lemma GenerateShape(provider: string, project: string)
    ensures IsPreviewKey(provider) ==> |Generate(provider, project)| == 3
    ensures !IsPreviewKey(provider) ==> Generate(provider, project) == []
    ensures IsPreviewKey(provider) ==>
      Generate(provider, project)[0].kind in {"Compute Engine", "EC2 Instance", "Virtual Machine"} &&
      Generate(provider, project)[1].kind in {"Cloud SQL", "RDS Database", "Cosmos DB"} &&
      Generate(provider, project)[2].kind in {"Google Kubernetes Engine", "EKS Cluster", "AKS Cluster"}
  {
  }

  /** Every id suffix of a table starts with a dash. */
  predicate DashSuffixes(rows: seq<Template>) {
    forall t :: t in rows ==> |t.idSuffix| > 0 && t.idSuffix[0] == '-'
  }

  /** The id suffixes of one table are pairwise distinct. */
  predicate SuffixesDistinct(rows: seq<Template>) {
    forall i, j :: 0 <= i < j < |rows| ==> rows[i].idSuffix != rows[j].idSuffix
  }

  /** The shape of each table: dash-led, pairwise distinct id suffixes, and
      the sum of its costs. */
  lemma TableFacts(provider: string)
    ensures DashSuffixes(Table(provider).0) && SuffixesDistinct(Table(provider).0)
    ensures provider == "gcp" ==> CentsSum(Table(provider).0) == 14297
    ensures provider == "aws" ==> CentsSum(Table(provider).0) == 16760
    ensures provider == "azure" ==> CentsSum(Table(provider).0) == 15880
    ensures !IsPreviewKey(provider) ==> Table(provider).0 == []
  {
    if provider == "gcp" {
      GcpTableFacts();
    } else if provider == "aws" {
      AwsTableFacts();
    } else if provider == "azure" {
      AzureTableFacts();
    }
  }

  lemma GcpTableFacts()
    ensures DashSuffixes(GcpTemplates) && SuffixesDistinct(GcpTemplates) && CentsSum(GcpTemplates) == 14297
  {
  }

  lemma AwsTableFacts()
    ensures DashSuffixes(AwsTemplates) && SuffixesDistinct(AwsTemplates) && CentsSum(AwsTemplates) == 16760
  {
  }

  lemma AzureTableFacts()
    ensures DashSuffixes(AzureTemplates) && SuffixesDistinct(AzureTemplates) && CentsSum(AzureTemplates) == 15880
  {
  }

  /** Every previewed resource is running and its id is the project name, a
      dash and a fixed suffix. */
  lemma GeneratedResources(provider: string, project: string, r: Resource)
    requires r in Generate(provider, project)
    ensures r.status == "running"
    ensures |r.id| > |project| && r.id[..|project|] == project && r.id[|project|] == '-'
  {
    TableFacts(provider);
    InstantiatedResource(Table(provider).0, project, Table(provider).1, r);
  }

  /** A row made concrete is running and carries the project name before its
      suffix. */
  lemma InstantiatedResource(rows: seq<Template>, project: string, providerName: string, r: Resource)
    requires DashSuffixes(rows) && r in InstantiateAll(rows, project, providerName)
    ensures r.status == "running"
    ensures |r.id| > |project| && r.id[..|project|] == project && r.id[|project|] == '-'
  {
    var i :| 0 <= i < |rows| && InstantiateAll(rows, project, providerName)[i] == r;
    assert rows[i] in rows;
    assert r.id == project + rows[i].idSuffix;
  }

  /** Within one provider's list no two resources share an id, whatever the
      project name. */
  lemma GeneratedIdsDistinct(provider: string, project: string)
    ensures forall i, j :: 0 <= i < j < |Generate(provider, project)| ==>
      Generate(provider, project)[i].id != Generate(provider, project)[j].id
  {
    TableFacts(provider);
    SuffixesGiveDistinctIds(Table(provider).0, project, Table(provider).1);
  }

  /** Distinct suffixes after a common prefix give distinct ids. */
  lemma SuffixesGiveDistinctIds(rows: seq<Template>, project: string, providerName: string)
    requires SuffixesDistinct(rows)
    ensures forall i, j :: 0 <= i < j < |rows| ==>
      InstantiateAll(rows, project, providerName)[i].id != InstantiateAll(rows, project, providerName)[j].id
  {
    var r := InstantiateAll(rows, project, providerName);
    forall i, j | 0 <= i < j < |rows|
      ensures r[i].id != r[j].id
    {
      var a, b := rows[i].idSuffix, rows[j].idSuffix;
      assert (project + a)[|project|..] == a;
      assert (project + b)[|project|..] == b;
    }
  }

  /** `/[0-9.]/`: the characters the cost filter keeps. */
  predicate CostChar(c: char) {
    IsDigit(c) || c == '.'
  }

  /** `cost.replace(/[^0-9.]/g, '')`: the digits and dots of `s`, in order. */
  function KeepCostChars(s: string): (r: string)
    ensures forall i :: 0 <= i < |r| ==> CostChar(r[i])
    ensures |r| <= |s|
  {
    if |s| == 0 then ""
    else (if CostChar(s[0]) then [s[0]] else []) + KeepCostChars(s[1..])
  }

  /** The filter keeps a string made only of digits and dots as it is, and
      drops everything around it that is neither. */
  lemma {:induction false} KeepCostCharsExact(pre: string, s: string, post: string)
    requires forall i :: 0 <= i < |s| ==> CostChar(s[i])
    requires forall i :: 0 <= i < |pre| ==> !CostChar(pre[i])
    requires forall i :: 0 <= i < |post| ==> !CostChar(post[i])
    ensures KeepCostChars(pre + s + post) == s
    decreases |pre| + |s| + |post|
  {
    if |pre| > 0 {
      assert (pre + s + post)[1..] == pre[1..] + s + post;
      KeepCostCharsExact(pre[1..], s, post);
    } else if |s| > 0 {
      assert pre + s + post == s + post;
      assert (s + post)[1..] == s[1..] + post;
      KeepCostCharsExact(pre, s[1..], post);
      assert [] + s[1..] + post == s[1..] + post;
      assert s == [s[0]] + s[1..];
    } else if |post| > 0 {
      assert pre + s + post == post;
      assert post[1..] == [] + [] + post[1..];
      KeepCostCharsExact([], [], post[1..]);
    } else {
      assert pre + s + post == [];
    }
  }

  /** The longest prefix of `s` made of digits. */
  function DigitPrefix(s: string): (r: string)
    ensures |r| <= |s| && r == s[..|r|] && AllDigits(r)
    ensures |r| < |s| ==> !IsDigit(s[|r|])
  {
    if |s| > 0 && IsDigit(s[0]) then [s[0]] + DigitPrefix(s[1..]) else ""
  }

  /** The cents a fraction's leading digits stand for; later digits are cut. */
  function FractionCents(f: string): (c: nat)
    requires AllDigits(f)
    ensures c < 100
  {
    (if |f| > 0 then DigitValue(f[0]) * 10 else 0) + (if |f| > 1 then DigitValue(f[1]) else 0)
  }

  /** `parseFloat` of a string of digits and dots, in cents: the leading
      `digits[.digits]`, where at least one digit must be present; `None` is
      NaN. */
  function ParseCents(s: string): Option<nat> {
    var whole := DigitPrefix(s);
    var rest := s[|whole|..];
    var fraction := if |rest| > 0 && rest[0] == '.' then DigitPrefix(rest[1..]) else "";
    if whole == "" && fraction == "" then None
    else Some(DecimalValue(whole) * 100 + FractionCents(fraction))
  }

  /** The empty string and a text starting with neither a digit nor a dot
      are NaN. */
  lemma ParseCentsNaN(s: string)
    ensures |s| == 0 ==> ParseCents(s).None?
    ensures |s| > 0 && !CostChar(s[0]) ==> ParseCents(s).None?
  {
    if |s| > 0 && !CostChar(s[0]) {
      assert DigitPrefix(s) == "" && s[0..] == s;
    }
  }

  /** A digit string reads as whole dollars. */
  lemma ParseCentsWhole(s: string)
    requires |s| > 0 && AllDigits(s)
    ensures ParseCents(s) == Some(DecimalValue(s) * 100)
  {
    var whole := DigitPrefix(s);
    DigitPrefixOfDigits(s, "");
    assert s + "" == s;
    var rest := s[|whole|..];
    assert |rest| == 0;
    assert FractionCents("") == 0;
  }

  /** Whatever follows, the dollars are the leading digits: the fraction
      contributes less than a dollar. */
  lemma ParseCentsDollars(s: string)
    ensures ParseCents(s).Some? ==> ParseCents(s).value / 100 == DecimalValue(DigitPrefix(s))
  {
    var whole := DigitPrefix(s);
    var rest := s[|whole|..];
    var fraction := if |rest| > 0 && rest[0] == '.' then DigitPrefix(rest[1..]) else "";
    var d, f := DecimalValue(whole), FractionCents(fraction);
    if ParseCents(s).Some? {
      assert ParseCents(s).value == d * 100 + f && f < 100;
      assert (d * 100 + f) / 100 == d;
    }
  }

  /** The cost of one resource: its cost text filtered, then parsed. */
  function CostCents(r: Resource): Option<nat> {
    ParseCents(KeepCostChars(r.cost))
  }

  /** `totalCost`: the reduce from 0 that adds each resource's cost; one NaN
      makes the whole sum NaN. The sum is taken from the right, which gives
      the same result since the addends are whole cents. */
  function TotalCents(rs: seq<Resource>): (r: Option<nat>)
    ensures rs == [] ==> r == Some(0)
  {
    if |rs| == 0 then Some(0)
    else
      match (CostCents(rs[0]), TotalCents(rs[1..]))
      case (Some(a), Some(b)) => Some(a + b)
      case _ => None
  }

  /** The cents of the rows of a table, added up. */
  function CentsSum(rows: seq<Template>): nat {
    if |rows| == 0 then 0 else rows[0].cents + CentsSum(rows[1..])
  }

  /** `toFixed(2)` of a whole number of cents. */
  function FormatCents(c: nat): string {
    NatToDecimal(c / 100) + "." + [DigitChar(c % 100 / 10), DigitChar(c % 10)]
  }

  /** What `toFixed(2)` prints: the dollars in decimal, a dot, and exactly
      two digits that read as the cents. */
  lemma FormatCentsShape(c: nat)
    ensures var r := FormatCents(c);
      |r| >= 4 && r[|r| - 3] == '.' &&
      AllDigits(r[..|r| - 3]) && DecimalValue(r[..|r| - 3]) == c / 100 &&
      AllDigits(r[|r| - 2..]) && DecimalValue(r[|r| - 2..]) == c % 100
  {
    var whole := NatToDecimal(c / 100);
    var tail := [DigitChar(c % 100 / 10), DigitChar(c % 10)];
    var r := FormatCents(c);
    assert r[..|r| - 3] == whole && r[|r| - 2..] == tail;
    var first := [tail[0]];
    assert tail[..1] == first && first[..0] == [];
    assert DecimalValue(first) == DigitValue(tail[0]);
    assert DecimalValue(tail) == DecimalValue(first) * 10 + DigitValue(tail[1]);
  }

  /** A digit string reads back through `DigitPrefix` whole. */
  lemma {:induction false} DigitPrefixOfDigits(d: string, rest: string)
    requires AllDigits(d)
    requires |rest| > 0 ==> !IsDigit(rest[0])
    ensures DigitPrefix(d + rest) == d
    decreases |d|
  {
    if |d| > 0 {
      assert (d + rest)[1..] == d[1..] + rest;
      DigitPrefixOfDigits(d[1..], rest);
      assert d == [d[0]] + d[1..];
    } else {
      assert d + rest == rest;
    }
  }

  /** What `toFixed(2)` prints is made of digits and one dot, so the cost
      filter leaves it unchanged. */
  lemma FormatCentsChars(c: nat)
    ensures forall i :: 0 <= i < |FormatCents(c)| ==> CostChar(FormatCents(c)[i])
    ensures KeepCostChars(FormatCents(c)) == FormatCents(c)
  {
    var whole := NatToDecimal(c / 100);
    var s := FormatCents(c);
    forall i | 0 <= i < |s|
      ensures CostChar(s[i])
    {
      if i < |whole| {
        assert s[i] == whole[i];
      }
    }
    KeepCostCharsExact("", s, "");
    assert "" + s + "" == s;
  }

  /** What `toFixed(2)` prints parses back to the same number of cents. */
  lemma FormatParseRoundTrip(c: nat)
    ensures ParseCents(FormatCents(c)) == Some(c)
  {
    var whole := NatToDecimal(c / 100);
    var tail := [DigitChar(c % 100 / 10), DigitChar(c % 10)];
    var s := FormatCents(c);
    assert s == whole + ("." + tail);
    DigitPrefixOfDigits(whole, "." + tail);
    assert s[|whole|..] == "." + tail;
    assert ("." + tail)[1..] == tail + "";
    DigitPrefixOfDigits(tail, "");
    assert tail + "" == tail;
    assert DigitValue(tail[0]) == c % 100 / 10 && DigitValue(tail[1]) == c % 10;
    assert FractionCents(tail) == c % 100 / 10 * 10 + c % 10;
    CentsDigits(c);
    assert ParseCents(s) == Some(DecimalValue(whole) * 100 + FractionCents(tail));
  }

  /** Dollars, tens of cents and cents make up the amount. */
  lemma CentsDigits(c: nat)
    ensures c / 100 * 100 + c % 100 / 10 * 10 + c % 10 == c
  {
    var q, a := c / 100, c % 100;
    var t, u := a / 10, a % 10;
    assert c == 100 * q + a && a == 10 * t + u;
    ModTen(c, 10 * q + t, u);
  }

  /** The remainder by ten is the last digit of any decomposition. */
  lemma ModTen(c: nat, k: int, u: int)
    requires c == 10 * k + u && 0 <= u < 10
    ensures c % 10 == u
  {
  }

  /** The cost filter drops the dollar sign and "/month" around an amount
      made of digits and dots. */
  lemma CostTextFilter(s: string)
    requires forall i :: 0 <= i < |s| ==> CostChar(s[i])
    ensures KeepCostChars("$" + s + "/month") == s
  {
    NoCostChars("$");
    NoCostChars("/month");
    KeepCostCharsExact("$", s, "/month");
  }

  /** Letters, '$' and '/' are dropped by the cost filter. */
  lemma NoCostChars(t: string)
    requires t == "$" || t == "/month"
    ensures forall i :: 0 <= i < |t| ==> !CostChar(t[i])
  {
    if t == "/month" {
      assert t[0] == '/' && t[1] == 'm' && t[2] == 'o' && t[3] == 'n' && t[4] == 't' && t[5] == 'h';
    } else {
      assert t[0] == '$';
    }
  }

  /** A cost text of the table's form costs the amount it prints. */
  lemma MonthlyCost(c: nat)
    ensures ParseCents(KeepCostChars(CostText(c))) == Some(c)
  {
    FormatCentsChars(c);
    CostTextFilter(FormatCents(c));
    FormatParseRoundTrip(c);
  }

  /** The previewed total is the sum of the table's costs: parsing each
      printed cost recovers its cents and no NaN arises. */
  lemma {:induction false} TotalIsTableSum(rows: seq<Template>, project: string, providerName: string)
    ensures TotalCents(InstantiateAll(rows, project, providerName)) == Some(CentsSum(rows))
  {
    if |rows| > 0 {
      var r := InstantiateAll(rows, project, providerName);
      MonthlyCost(rows[0].cents);
      assert r[1..] == InstantiateAll(rows[1..], project, providerName);
      TotalIsTableSum(rows[1..], project, providerName);
    }
  }

  /** The totals the preview shows for each key, in cents, and 0 for any
      other string. */
  lemma PreviewTotals(provider: string, project: string)
    ensures provider == "gcp" ==> TotalCents(Generate(provider, project)) == Some(14297)
    ensures provider == "aws" ==> TotalCents(Generate(provider, project)) == Some(16760)
    ensures provider == "azure" ==> TotalCents(Generate(provider, project)) == Some(15880)
    ensures !IsPreviewKey(provider) ==> TotalCents(Generate(provider, project)) == Some(0)
    ensures FormatCents(14297) == "142.97" && FormatCents(16760) == "167.60"
    ensures FormatCents(15880) == "158.80" && FormatCents(0) == "0.00"
  {
    TotalIsTableSum(Table(provider).0, project, Table(provider).1);
    TableFacts(provider);
    PreviewTotalTexts();
  }

  /** `toFixed(2)` prints the three preview totals, and the empty one, as
      these texts. */
  lemma PreviewTotalTexts()
    ensures FormatCents(14297) == "142.97"
    ensures FormatCents(16760) == "167.60"
    ensures FormatCents(15880) == "158.80"
    ensures FormatCents(0) == "0.00"
  {
    Total14297();
    Total16760();
    Total15880();
    assert NatToDecimal(0) == "0";
  }

  lemma Total14297()
    ensures FormatCents(14297) == "142.97"
  {
    assert NatToDecimal(142) == "142";
  }

  lemma Total16760()
    ensures FormatCents(16760) == "167.60"
  {
    assert NatToDecimal(167) == "167";
  }

  lemma Total15880()
    ensures FormatCents(15880) == "158.80"
  {
    assert NatToDecimal(158) == "158";
  }

  /** The `useEffect` of DemoServices.tsx:229-239: when the preview is visible and both the
      provider and the project name are non-empty, the list is regenerated;
      otherwise the list on screen stays as it was. */
  function Refresh(visible: bool, provider: string, project: string, current: seq<Resource>): (r: seq<Resource>)
    ensures !visible || provider == "" || project == "" ==> r == current
    ensures visible && provider != "" && project != "" ==> r == Generate(provider, project)
  {
    if visible && provider != "" && project != "" then Generate(provider, project) else current
  }

  /** Closing and reopening the preview for the same request shows the same
      list, whatever was shown in between. */
  lemma RefreshDeterministic(provider: string, project: string, a: seq<Resource>, b: seq<Resource>)
    requires provider != "" && project != ""
    ensures Refresh(true, provider, project, a) == Refresh(true, provider, project, b)
    ensures Refresh(false, provider, project, a) == a
  {
  }
}
