/** The page-wide state the two scripts share through `window` and `localStorage`. */
module Globals {
  import opened Js

  datatype Role = User | Assistant

  /** The role name as the history array stores it. */
  function RoleName(role: Role): string {
    match role
    case User => "user"
    case Assistant => "assistant"
  }

  /** One entry of `chatHistory`: `{ role, content }`. The content of an assistant turn is
      the reply's `response` field, which may be absent (`None`). */
  datatype ChatTurn = ChatTurn(role: Role, content: Option<string>)

  /** The two `localStorage` items. */
  const ApiKeyItem := "symbiosis_api_key"
  const ScriptUrlItem := "symbiosis_apps_script_url"

  /** `localStorage.getItem(name)`: the stored string, or `null` (`None`). */
  function GetItem(store: map<string, string>, name: string): (v: Option<string>)
    ensures v.Some? <==> name in store
    ensures v.Some? ==> v.value == store[name]
  {
    if name in store then Some(store[name]) else None
  }

  /** The mutable globals: `localStorage`, `USER_API_KEY`, `chatHistory`,
      `window.currentMood`, `window.glitchMode`, `window.isThinking` and
      `window.lastRetrievedMemories` (`None` while never set). */
  class Window {
    var localStorage: map<string, string>
    var userApiKey: string
    var chatHistory: seq<ChatTurn>
    var currentMood: string
    var glitchMode: bool
    var isThinking: bool
    var lastRetrievedMemories: Option<string>

    /** The state when main.js loads: the key is read from storage (`|| ""`), the history
        is empty and the mood is NEUTRAL. */
    constructor Load(storage: map<string, string>)
      ensures localStorage == storage
      ensures userApiKey == (if ApiKeyItem in storage then storage[ApiKeyItem] else "")
      ensures chatHistory == [] && currentMood == "NEUTRAL"
      ensures !glitchMode && !isThinking && lastRetrievedMemories == None
    {
      localStorage := storage;
      var stored := GetItem(storage, ApiKeyItem);
      userApiKey := if Truthy(stored) then stored.value else "";
      chatHistory := [];
      currentMood := "NEUTRAL";
      glitchMode := false;
      isThinking := false;
      lastRetrievedMemories := None;
    }
  }
}
