/** The configuration checks of src/lib/firebase.ts: whether the Firebase
    settings read from the environment are usable, and whether the app runs
    in demo mode. An unset environment variable is `None`. */
module Firebase {
  import opened Common

  /** `firebaseConfig`. */
  datatype FirebaseConfig = FirebaseConfig(
    apiKey: Option<string>,
    authDomain: Option<string>,
    projectId: Option<string>,
    storageBucket: Option<string>,
    messagingSenderId: Option<string>,
    appId: Option<string>)

  /** A setting that is truthy: set and non-empty. */
  predicate Present(value: Option<string>) {
    value.Some? && value.value != ""
  }

  /** `isFirebaseConfigured`: the four settings are truthy, neither the API
      key nor the project id is its template placeholder, and "undefined"
      occurs at no position of either. */
  function IsFirebaseConfigured(c: FirebaseConfig): (r: bool)
    ensures r <==>
      && Present(c.apiKey) && Present(c.authDomain) && Present(c.projectId) && Present(c.appId)
      && c.apiKey.value != "your_api_key_here" && c.projectId.value != "your_project_id"
      && (forall i :: !OccursAt(c.apiKey.value, "undefined", i))
      && (forall i :: !OccursAt(c.projectId.value, "undefined", i))
  {
    ContainsAt(c.apiKey.GetOr(""), "undefined");
    ContainsAt(c.projectId.GetOr(""), "undefined");
    && Present(c.apiKey) && Present(c.authDomain) && Present(c.projectId) && Present(c.appId)
    && c.apiKey.value != "your_api_key_here"
    && c.projectId.value != "your_project_id"
    && !Contains(c.apiKey.value, "undefined")
    && !Contains(c.projectId.value, "undefined")
  }

  /** `isDemoMode`: the flag is exactly "true", or the settings are unusable.
      The flag alone, or any unset one of the four settings, forces demo
      mode; outside demo mode the settings are usable. */
  function IsDemoMode(flag: Option<string>, c: FirebaseConfig): (r: bool)
    ensures flag == Some("true") ==> r
    ensures !Present(c.apiKey) || !Present(c.authDomain) || !Present(c.projectId) || !Present(c.appId) ==> r
    ensures !r ==> IsFirebaseConfigured(c) && flag != Some("true")
  {
    flag == Some("true") || !IsFirebaseConfigured(c)
  }

  /** The four settings the check reads must be set and non-empty; the
      storage bucket and the messaging sender id never matter. */
  lemma ConfiguredNeedsFour(c: FirebaseConfig, bucket: Option<string>, sender: Option<string>)
    ensures IsFirebaseConfigured(c) ==> Present(c.apiKey) && Present(c.authDomain) && Present(c.projectId) && Present(c.appId)
    ensures IsFirebaseConfigured(c.(storageBucket := bucket, messagingSenderId := sender)) <==> IsFirebaseConfigured(c)
  {
  }

  /** The template placeholders, or the text "undefined" anywhere in the
      API key or the project id, make the settings unusable and force demo
      mode whatever the flag says. */
  lemma PlaceholdersForceDemo(c: FirebaseConfig, flag: Option<string>, i: int)
    requires c.apiKey == Some("your_api_key_here") || c.projectId == Some("your_project_id") ||
      (c.apiKey.Some? && OccursAt(c.apiKey.value, "undefined", i)) ||
      (c.projectId.Some? && OccursAt(c.projectId.value, "undefined", i))
    ensures !IsFirebaseConfigured(c)
    ensures IsDemoMode(flag, c)
  {
    if c.apiKey.Some? {
      ContainsAt(c.apiKey.value, "undefined");
    }
    if c.projectId.Some? {
      ContainsAt(c.projectId.value, "undefined");
    }
  }

  /** Outside demo mode the settings are usable, and the flag is anything but
      the exact text "true" ("TRUE" and "1" do not switch demo mode on). */
  lemma LiveModeMeansConfigured(flag: Option<string>, c: FirebaseConfig)
    requires !IsDemoMode(flag, c)
    ensures IsFirebaseConfigured(c)
    ensures flag != Some("true")
  {
  }

  /** Usable settings with a flag other than "true" run live. */
  lemma ConfiguredRunsLive(flag: Option<string>, c: FirebaseConfig)
    requires IsFirebaseConfigured(c) && flag != Some("true")
    ensures !IsDemoMode(flag, c)
  {
  }
}
