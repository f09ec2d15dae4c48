/** The dashboard table of InfraTable.tsx: the mapping from stored
    documents to displayed records with their defaults, the three demo
    records, and the load effect's outcomes. The database query and its
    ordering are outside the model: the documents arrive already in the
    order the query returns them. */
module InfraTable {
  import opened Common

  /** A stored document as read back: every field may be missing. Times are
      millisecond timestamps. */
  datatype Doc = Doc(
    id: string,
    projectName: Option<string>,
    cloudProvider: Option<string>,
    service: Option<string>,
    status: Option<string>,
    createdAt: Option<int>,
    updatedAt: Option<int>)

  /** One displayed row (`InfraRecord`). */
  datatype InfraRecord = InfraRecord(
    id: string,
    projectName: string,
    cloudProvider: string,
    service: string,
    status: string,
    createdAt: int,
    updatedAt: int)

  /** A field that is truthy: present and non-empty. */
  predicate Present(value: Option<string>) {
    value.Some? && value.value != ""
  }

  /** `value || fallback` on an optional string: a missing or empty value
      gives the fallback. */
  function OrElse(value: Option<string>, fallback: string): string {
    if Present(value) then value.value else fallback
  }

  /** A timestamp read back, or the time of reading when it is missing. */
  function TimeOrNow(value: Option<int>, now: int): int {
    value.GetOr(now)
  }

  /** The record pushed for one document (InfraTable.tsx:85-93): the same
      id, no empty text field, and a missing timestamp read as the time of
      reading. */
  function ToRecord(doc: Doc, now: int): (r: InfraRecord)
    ensures r.id == doc.id
    ensures r.projectName != "" && r.cloudProvider != "" && r.service != "" && r.status != ""
    ensures r.createdAt == (if doc.createdAt.Some? then doc.createdAt.value else now)
    ensures r.updatedAt == (if doc.updatedAt.Some? then doc.updatedAt.value else now)
  {
    InfraRecord(
      doc.id,
      OrElse(doc.projectName, "Unnamed Project"),
      OrElse(doc.cloudProvider, "Unknown"),
      OrElse(doc.service, "Unknown"),
      OrElse(doc.status, "pending"),
      TimeOrNow(doc.createdAt, now),
      TimeOrNow(doc.updatedAt, now))
  }

  /** `snapshot.forEach(... push ...)`: one record per document, in order. */
  function ToRecords(docs: seq<Doc>, now: int): (r: seq<InfraRecord>)
    ensures |r| == |docs|
    ensures forall i :: 0 <= i < |docs| ==> r[i] == ToRecord(docs[i], now)
  {
    if |docs| == 0 then [] else [ToRecord(docs[0], now)] + ToRecords(docs[1..], now)
  }

  /** Every record keeps its document's id and shows no empty name, provider,
      service or status: a missing or empty value is replaced by its default,
      and a present one is shown as stored. */
  lemma RecordDefaults(docs: seq<Doc>, now: int, i: int)
    requires 0 <= i < |docs|
    ensures var r := ToRecords(docs, now)[i];
      r.id == docs[i].id &&
      r.projectName != "" && r.cloudProvider != "" && r.service != "" && r.status != ""
    ensures var d, r := docs[i], ToRecords(docs, now)[i];
      (!Present(d.projectName) ==> r.projectName == "Unnamed Project") &&
      (!Present(d.cloudProvider) ==> r.cloudProvider == "Unknown") &&
      (!Present(d.service) ==> r.service == "Unknown") &&
      (!Present(d.status) ==> r.status == "pending")
    ensures var d, r := docs[i], ToRecords(docs, now)[i];
      (Present(d.projectName) ==> r.projectName == d.projectName.value) &&
      (Present(d.cloudProvider) ==> r.cloudProvider == d.cloudProvider.value) &&
      (Present(d.service) ==> r.service == d.service.value) &&
      (Present(d.status) ==> r.status == d.status.value)
  {
  }

  /** Mapping documents preserves their order and keeps them apart: the
      records of a concatenation are the concatenated records. */
  lemma {:induction false} ToRecordsAppend(a: seq<Doc>, b: seq<Doc>, now: int)
    ensures ToRecords(a + b, now) == ToRecords(a, now) + ToRecords(b, now)
  {
    if |a| > 0 {
      assert (a + b)[1..] == a[1..] + b;
      ToRecordsAppend(a[1..], b, now);
    } else {
      assert a + b == b;
    }
  }

  /** The three records shown in demo mode, dated relative to `now`. */
  function DemoRecords(now: int): (r: seq<InfraRecord>)
    ensures |r| == 3
    ensures r[0].id == "demo-1" && r[1].id == "demo-2" && r[2].id == "demo-3"
    ensures r[0].status == "completed" && r[1].status == "running" && r[2].status == "failed"
    ensures forall i :: 0 <= i < 3 ==> r[i].createdAt < now && r[i].updatedAt < now
  {
    [InfraRecord("demo-1", "Demo Web App", "GCP", "compute-engine", "completed", now - 86400000, now - 86400000),
     InfraRecord("demo-2", "Demo Database", "AWS", "rds", "running", now - 172800000, now - 3600000),
     InfraRecord("demo-3", "Demo Kubernetes Cluster", "Azure", "aks", "failed", now - 259200000, now - 259200000)]
  }

  /** What the query returned: the documents in query order, or a failure. */
  datatype Fetch = Fetched(docs: seq<Doc>) | FetchFailed

  /** The table state: the rows, the loading flag and the error text. */
  datatype TableState = TableState(records: seq<InfraRecord>, loading: bool, error: string)

  const NoDatabase := "Database connection not available."
  const LoadFailed := "Failed to load infrastructure records."

  /** The effect of InfraTable.tsx:30-109 once it has settled: nothing happens
      without a user id; demo mode shows the demo records; without a
      database or on a failed query an error is shown and no rows; otherwise
      the mapped documents. */
  function Load(userId: string, demoMode: bool, database: bool, fetch: Fetch, now: int): (r: TableState)
    ensures userId == "" ==> r == TableState([], true, "")
    ensures userId != "" ==> !r.loading
    ensures userId != "" && demoMode ==> r.records == DemoRecords(now) && r.error == ""
    ensures userId != "" && !demoMode && (!database || fetch.FetchFailed?) ==> r.records == [] && r.error != ""
    ensures userId != "" && !demoMode && database && fetch.Fetched? ==>
      r.error == "" && r.records == ToRecords(fetch.docs, now)
  {
    if userId == "" then TableState([], true, "")
    else if demoMode then TableState(DemoRecords(now), false, "")
    else if !database then TableState([], false, NoDatabase)
    else
      match fetch
      case FetchFailed => TableState([], false, LoadFailed)
      case Fetched(docs) => TableState(ToRecords(docs, now), false, "")
  }

  /** Rows and error never appear together: either the table shows an
      error and is empty, or it shows rows and no error. */
  lemma LoadErrorOrRows(userId: string, demoMode: bool, database: bool, fetch: Fetch, now: int)
    ensures Load(userId, demoMode, database, fetch, now).error != "" ==> Load(userId, demoMode, database, fetch, now).records == []
    ensures Load(userId, demoMode, database, fetch, now).error == NoDatabase <==> userId != "" && !demoMode && !database
  {
  }
}
