/** The configuration intake of main.js: `checkAuth` decides which of the two items is
    still missing, `saveConfig` validates a typed value and stores it. */
module Config {
  import opened Js
  import opened Globals

  /** The three answers of `checkAuth`: "KEY", "SHEET" and "READY". */
  datatype AuthState = NeedKey | NeedSheet | Ready

  /** `checkAuth()`: KEY while no key is stored, SHEET while a key but no script URL is
      stored, READY once both are. An empty stored string counts as absent. */
  function CheckAuth(store: map<string, string>): (s: AuthState)
    ensures s == NeedKey <==> !Truthy(GetItem(store, ApiKeyItem))
    ensures s == NeedSheet <==> Truthy(GetItem(store, ApiKeyItem)) && !Truthy(GetItem(store, ScriptUrlItem))
    ensures s == Ready <==> Truthy(GetItem(store, ApiKeyItem)) && Truthy(GetItem(store, ScriptUrlItem))
  {
    var hasKey := Truthy(GetItem(store, ApiKeyItem));
    var hasSheet := Truthy(GetItem(store, ScriptUrlItem));
    if !hasKey then NeedKey else if !hasSheet then NeedSheet else Ready
  }

  /** The key format test: at least ten characters before trimming, starting with "sk-". */
  predicate KeyAccepted(val: string) {
    !(|val| < 10 || !StartsWith(val, "sk-"))
  }

  /** What `saveConfig(val, type)` leaves in `localStorage`. */
  function SavedStore(store: map<string, string>, val: string, kind: AuthState): (r: map<string, string>)
    ensures kind == NeedKey && !KeyAccepted(val) ==> r == store
    ensures kind == NeedKey && KeyAccepted(val) ==> r == store[ApiKeyItem := Trim(val)]
    ensures kind == NeedSheet && val == "SKIP" ==> r == store[ScriptUrlItem := "SKIP"]
    ensures kind == NeedSheet && val != "SKIP" ==> r == store[ScriptUrlItem := Trim(val)]
    ensures kind == Ready ==> r == store
  {
    match kind
    case NeedKey => if KeyAccepted(val) then store[ApiKeyItem := Trim(val)] else store
    case NeedSheet => store[ScriptUrlItem := if val == "SKIP" then "SKIP" else Trim(val)]
    case Ready => store
  }

  /** What `saveConfig` speaks. */
  function ConfigReply(val: string, kind: AuthState): seq<string> {
    match kind
    case NeedKey => if KeyAccepted(val) then ["KEY ACCEPTED."] else ["INVALID KEY FORMAT."]
    case NeedSheet => if val == "SKIP" then ["MEMORY DISABLED."] else ["MEMORY LINKED."]
    case Ready => []
  }

  /** `saveConfig(val, type)`: writes the store and, for an accepted key, `USER_API_KEY`;
      returns what it speaks. */
  method SaveConfig(w: Window, val: string, kind: AuthState) returns (said: seq<string>)
    modifies w`localStorage, w`userApiKey
    ensures w.localStorage == SavedStore(old(w.localStorage), val, kind)
    ensures w.userApiKey == if kind == NeedKey && KeyAccepted(val) then Trim(val) else old(w.userApiKey)
    ensures said == ConfigReply(val, kind)
  {
    said := [];
    if kind == NeedKey {
      if |val| < 10 || !StartsWith(val, "sk-") {
        said := ["INVALID KEY FORMAT."];
        return;
      }
      w.localStorage := w.localStorage[ApiKeyItem := Trim(val)];
      w.userApiKey := Trim(val);
      said := ["KEY ACCEPTED."];
    } else if kind == NeedSheet {
      if val == "SKIP" {
        w.localStorage := w.localStorage[ScriptUrlItem := "SKIP"];
        said := ["MEMORY DISABLED."];
      } else {
        w.localStorage := w.localStorage[ScriptUrlItem := Trim(val)];
        said := ["MEMORY LINKED."];
      }
    }
  }

  // ---------------------------------------------------------------------------
  // Properties of the intake
  // ---------------------------------------------------------------------------

  /** Trimming a string that starts with a non-space prefix keeps that prefix. */
  lemma TrimKeepsPrefix(val: string, p: string)
    requires p != [] && StartsWith(val, p)
    requires forall k :: 0 <= k < |p| ==> !IsSpace(p[k])
    ensures StartsWith(Trim(val), p)
  {
    assert !IsSpace(val[0]) by { assert val[0] == p[0]; }
    assert TrimStart(val) == val;
    var r := TrimEnd(val);
    assert val[|p| - 1] == p[|p| - 1];
    assert !IsSpace(val[|p| - 1]);
    assert |p| <= |r|;
    assert r[..|p|] == val[..|p|];
  }

  /** An accepted key is stored trimmed, still starts with "sk-", and moves the intake past
      the KEY step. */
  lemma AcceptedKeyAdvances(store: map<string, string>, val: string)
    requires KeyAccepted(val)
    ensures var after := SavedStore(store, val, NeedKey);
            && after[ApiKeyItem] == Trim(val)
            && StartsWith(after[ApiKeyItem], "sk-")
            && CheckAuth(after) != NeedKey
  {
    TrimKeepsPrefix(val, "sk-");
  }

  /** A rejected key changes nothing, so the intake stays at whatever step it was. */
  lemma RejectedKeyChangesNothing(store: map<string, string>, val: string)
    requires !KeyAccepted(val)
    ensures SavedStore(store, val, NeedKey) == store
    ensures CheckAuth(SavedStore(store, val, NeedKey)) == CheckAuth(store)
  {
  }

  /** "SKIP" is stored verbatim and, with a key stored, completes the intake. */
  lemma SkipCompletesIntake(store: map<string, string>)
    requires CheckAuth(store) == NeedSheet
    ensures SavedStore(store, "SKIP", NeedSheet)[ScriptUrlItem] == "SKIP"
    ensures CheckAuth(SavedStore(store, "SKIP", NeedSheet)) == Ready
  {
  }

  /** A URL made only of white space is stored as "" and the intake stays at SHEET. */
  lemma BlankUrlKeepsAsking(store: map<string, string>, val: string)
    requires CheckAuth(store) == NeedSheet
    requires forall k :: 0 <= k < |val| ==> IsSpace(val[k])
    ensures SavedStore(store, val, NeedSheet)[ScriptUrlItem] == ""
    ensures CheckAuth(SavedStore(store, val, NeedSheet)) == NeedSheet
  {
    if val != [] {
      assert IsSpace(val[0]);
      assert val[0] != 'S';
    }
    assert val != "SKIP";
    assert TrimStart(val) == [];
  }
}
