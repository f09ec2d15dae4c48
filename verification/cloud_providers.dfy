/** The credential registry helpers of src/lib/cloudProviders.ts: reading the
    stored credential list and looking a provider up in it, ignoring case.
    Browser storage is the value `Storage`; `JSON.parse` is the function
    `parse` the caller supplies. */
module CloudProviders {
  import opened Common

  /** One saved credential set (`CloudCredentials`); `createdAt` is a
      millisecond timestamp. */
  datatype Credential = Credential(
    id: string,
    provider: string,
    name: string,
    credentials: map<string, string>,
    isConfigured: bool,
    createdAt: int)

  /** What the browser offers: no `window` (server rendering), or a window
      whose storage holds the item `cloudCredentials` or not. */
  datatype Storage = NoWindow | Window(item: Option<string>)

  /** `getConfiguredProviders`: the parsed list when a window exists and the
      item is a non-empty string that parses; the empty list otherwise. */
  function GetConfiguredProviders(st: Storage, parse: string -> Option<seq<Credential>>): (r: seq<Credential>)
    ensures r != [] ==> st.Window? && st.item.Some? && st.item.value != "" && parse(st.item.value) == Some(r)
    ensures st.Window? && st.item.Some? && st.item.value != "" && parse(st.item.value).Some? ==>
      r == parse(st.item.value).value
  {
    match st
    case NoWindow => []
    case Window(None) => []
    case Window(Some(text)) =>
      if text == "" then []
      else
        match parse(text)
        case Some(list) => list
        case None => []
  }

  /** The entry names the provider `providerId` up to ASCII case. */
  predicate MatchesProvider(c: Credential, providerId: string) {
    EqualsIgnoreCase(c.provider, providerId)
  }

  /** `Array.prototype.find` with the case-insensitive test: the first match. */
  function FindProvider(list: seq<Credential>, providerId: string): (r: Option<Credential>)
    ensures r.Some? ==> r.value in list && MatchesProvider(r.value, providerId)
  {
    if |list| == 0 then None
    else if MatchesProvider(list[0], providerId) then Some(list[0])
    else FindProvider(list[1..], providerId)
  }

  /** `find` returns the first matching entry, and finds nothing exactly when
      no entry matches. */
  lemma {:induction false} FindProviderFirst(list: seq<Credential>, providerId: string)
    ensures FindProvider(list, providerId).None? <==> forall i :: 0 <= i < |list| ==> !MatchesProvider(list[i], providerId)
    ensures FindProvider(list, providerId).Some? ==>
      exists i :: 0 <= i < |list| && list[i] == FindProvider(list, providerId).value &&
        forall j :: 0 <= j < i ==> !MatchesProvider(list[j], providerId)
  {
    if |list| > 0 && !MatchesProvider(list[0], providerId) {
      FindProviderFirst(list[1..], providerId);
      if FindProvider(list, providerId).Some? {
        var i :| 0 <= i < |list[1..]| && list[1..][i] == FindProvider(list, providerId).value &&
          forall j :: 0 <= j < i ==> !MatchesProvider(list[1..][j], providerId);
        assert list[i + 1] == FindProvider(list, providerId).value;
        assert forall j :: 0 < j < i + 1 ==> list[j] == list[1..][j - 1];
      }
    } else if |list| > 0 {
      assert list[0] == FindProvider(list, providerId).value;
    }
  }

  /** `isProviderConfigured`: some stored entry names the provider, ignoring
      case (`Array.prototype.some`); nothing stored means nothing configured. */
  function IsProviderConfigured(st: Storage, parse: string -> Option<seq<Credential>>, providerId: string): (r: bool)
    ensures r <==> exists c :: c in GetConfiguredProviders(st, parse) && ToLower(c.provider) == ToLower(providerId)
    ensures GetConfiguredProviders(st, parse) == [] ==> !r
  {
    var list := GetConfiguredProviders(st, parse);
    exists i :: 0 <= i < |list| && MatchesProvider(list[i], providerId)
  }

  /** `getProviderCredentials`: the first stored entry naming the provider,
      ignoring case, or `None` for `null`. */
  function GetProviderCredentials(st: Storage, parse: string -> Option<seq<Credential>>, providerId: string): (r: Option<Credential>)
    ensures r.Some? ==> r.value in GetConfiguredProviders(st, parse) && MatchesProvider(r.value, providerId)
  {
    FindProvider(GetConfiguredProviders(st, parse), providerId)
  }

  /** A provider is configured exactly when its credentials can be fetched. */
  lemma ConfiguredIffCredentials(st: Storage, parse: string -> Option<seq<Credential>>, providerId: string)
    ensures IsProviderConfigured(st, parse, providerId) <==> GetProviderCredentials(st, parse, providerId).Some?
  {
    FindProviderFirst(GetConfiguredProviders(st, parse), providerId);
  }

  /** Without a window, without the item, with an empty item or with text
      that does not parse, no provider is configured. */
  lemma EmptyStorageConfiguresNothing(st: Storage, parse: string -> Option<seq<Credential>>, providerId: string)
    requires st == NoWindow || st == Window(None) || st == Window(Some("")) ||
      (st.Window? && st.item.Some? && parse(st.item.value).None?)
    ensures !IsProviderConfigured(st, parse, providerId)
    ensures GetProviderCredentials(st, parse, providerId) == None
  {
  }

  /** An entry saved under the lower-case id satisfies a lookup by the
      wizard's upper-case id. */
  lemma CaseInsensitiveLookup(c: Credential)
    requires c.provider == "gcp"
    ensures MatchesProvider(c, "GCP")
  {
    assert ToLower("gcp") == "gcp";
    assert ToLower("GCP") == "gcp";
  }
}
