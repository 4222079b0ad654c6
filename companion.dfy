/** The coordinator of main.js: `handleChat` runs one conversational turn against the
    memory pipeline and applies the reply (history, mood, keyword display), and
    `handleInput` routes a typed line to the configuration intake, the glitch effect, a
    scripted utterance or a chat turn. */
module Companion {
  import opened Js
  import opened Globals
  import opened Sanitizer
  import opened KnowledgeGraph
  import opened Moods
  import opened Config
  import opened Memory

  // ---------------------------------------------------------------------------
  // The bounded chat history
  // ---------------------------------------------------------------------------

  /** `chatHistory.length > 10 ? chatHistory.slice(-10) : chatHistory`: the last ten
      entries, in their order. */
  function LastTen(h: seq<ChatTurn>): (r: seq<ChatTurn>)
    ensures |r| == if |h| > 10 then 10 else |h|
    ensures r == h[|h| - |r|..]
  {
    if |h| > 10 then h[|h| - 10..] else h
  }

  /** The history after the user's turn is pushed and the cap applied. */
  function PushUser(h: seq<ChatTurn>, userText: string): (r: seq<ChatTurn>)
    ensures |r| <= 10 && r != []
    ensures r[|r| - 1] == ChatTurn(User, Some(userText))
  {
    LastTen(h + [ChatTurn(User, Some(userText))])
  }

  /** One successful exchange: the capped user push followed by the uncapped assistant
      push. */
  function Exchange(h: seq<ChatTurn>, userText: string, response: Option<string>): seq<ChatTurn> {
    PushUser(h, userText) + [ChatTurn(Assistant, response)]
  }

  /** The history after a sequence of successful exchanges. */
  function Converse(h: seq<ChatTurn>, turns: seq<(string, Option<string>)>): seq<ChatTurn> {
    if turns == [] then h
    else
      var last := turns[|turns| - 1];
      Exchange(Converse(h, turns[..|turns| - 1]), last.0, last.1)
  }

  /** Starting from an empty history, n successful exchanges leave 2n entries while n is
      at most five, and eleven entries from then on: the assistant push overshoots the cap
      by one. */
  lemma {:induction false} ConverseLength(turns: seq<(string, Option<string>)>)
    ensures |Converse([], turns)| == if |turns| <= 5 then 2 * |turns| else 11
    decreases |turns|
  {
    if turns != [] {
      ConverseLength(turns[..|turns| - 1]);
    }
  }

  /** Whatever the turns, the history never grows beyond eleven entries. */
  lemma {:induction false} ConverseBound(h: seq<ChatTurn>, turns: seq<(string, Option<string>)>)
    requires |h| <= 11
    ensures |Converse(h, turns)| <= 11
    decreases |turns|
  {
    if turns != [] {
      ConverseBound(h, turns[..|turns| - 1]);
    }
  }

  /** `x` is a trailing run of `y`. */
  predicate IsSuffix(x: seq<ChatTurn>, y: seq<ChatTurn>) {
    |x| <= |y| && x == y[|y| - |x|..]
  }

  /** Appending one element to both keeps a suffix a suffix. */
  lemma SuffixSnoc(x: seq<ChatTurn>, y: seq<ChatTurn>, e: ChatTurn)
    requires IsSuffix(x, y)
    ensures IsSuffix(x + [e], y + [e])
  {
    assert (y + [e])[|y| - |x|..] == y[|y| - |x|..] + [e];
  }

  /** A suffix of a suffix is a suffix. */
  lemma SuffixTrans(x: seq<ChatTurn>, y: seq<ChatTurn>, z: seq<ChatTurn>)
    requires IsSuffix(x, y) && IsSuffix(y, z)
    ensures IsSuffix(x, z)
  {
    assert z[|z| - |y|..][|y| - |x|..] == z[|z| - |x|..];
  }

  /** The history is always a window on everything said: a trailing run of the earlier
      history followed by the exchanges, ending with the latest exchange. */
  lemma {:induction false} ConverseIsSuffix(h: seq<ChatTurn>, turns: seq<(string, Option<string>)>)
    ensures IsSuffix(Converse(h, turns), h + Transcript(turns))
    decreases |turns|
  {
    if turns != [] {
      var n := |turns| - 1;
      var prev := turns[..n];
      ConverseIsSuffix(h, prev);
      var before := h + Transcript(prev);
      var p := Converse(h, prev);
      var u := ChatTurn(User, Some(turns[n].0));
      var a := ChatTurn(Assistant, turns[n].1);
      assert h + Transcript(turns) == before + [u] + [a];
      SuffixSnoc(p, before, u);
      var capped := LastTen(p + [u]);
      SuffixTrans(capped, p + [u], before + [u]);
      SuffixSnoc(capped, before + [u], a);
    }
  }

  /** Every exchange written out as its user and assistant entries. */
  function Transcript(turns: seq<(string, Option<string>)>): (r: seq<ChatTurn>)
    ensures |r| == 2 * |turns|
  {
    if turns == [] then []
    else
      var last := turns[|turns| - 1];
      Transcript(turns[..|turns| - 1]) + [ChatTurn(User, Some(last.0)), ChatTurn(Assistant, last.1)]
  }

  // ---------------------------------------------------------------------------
  // The final reply
  // ---------------------------------------------------------------------------

  /** The final reply as `JSON.parse` reads it: `response`, `mood`, `graph` and a flat
      `keywords` list, each optional. */
  datatype ChatReply = ChatReply(response: Option<string>, mood: Option<string>,
                                 graph: Option<Graph>, keywords: Option<seq<string>>)

  /** The reply `handleChat` works with, or `None` when its `try` block throws before the
      assistant push: the pipeline rejected, the response has no `choices[0]`, that choice
      has no message or no content, or the content does not parse to an object. The
      content is cleaned again by main.js's inline copy before parsing. */
  function ReplyOf(result: ChatResult, parse: string -> Option<ChatReply>): (r: Option<ChatReply>)
    ensures result.Threw? ==> r.None?
    ensures result.Returned? && (result.data.choices.None? || result.data.choices.value == []) ==> r.None?
  {
    if result.Threw? then None
    else
      var choices := result.data.choices;
      if choices.None? || choices.value == [] then None
      else
        var first := choices.value[0];
        if first.NoMessage? || first.content.None? then None
        else parse(InlineClean(first.content.value))
  }

  /** The parser sees exactly memory.js's cleaning of the reply: the inline copy finds
      nothing more to do. */
  lemma ParserSeesOneCleaning(synth: SynthData, choices: seq<Choice>, parse: string -> Option<ChatReply>)
    requires choices != [] && choices[0].Message?
    ensures ReplyOf(Finish(synth, Body(Some(choices))), parse) == parse(CleanJSON(choices[0].content))
  {
    InlineCleanKeepsCleaned(choices[0].content);
  }

  /** What the turn shows: the flattened graph's cleaned keywords with the graph, the
      reply's flat keyword list with the stand-in graph built from it, or nothing. */
  datatype Display = NoDisplay | GraphShown(keywords: seq<string>, graph: Graph) | KeywordsShown(keywords: seq<string>, graph: Graph)

  /** The display a reply asks for: a graph with a truthy center wins over a flat keyword
      list. */
  function DisplayFor(reply: ChatReply): (d: Display)
    ensures d.GraphShown? <==> reply.graph.Some? && Truthy(reply.graph.value.center)
    ensures d.GraphShown? ==> d.graph == reply.graph.value && d.keywords == CleanKeywords(Flattened(reply.graph.value))
    ensures d.KeywordsShown? <==> !(reply.graph.Some? && Truthy(reply.graph.value.center)) && reply.keywords.Some?
    ensures d.KeywordsShown? ==> d.keywords == reply.keywords.value && d.graph == FakeGraph(reply.keywords.value)
    ensures d.NoDisplay? <==> !(reply.graph.Some? && Truthy(reply.graph.value.center)) && reply.keywords.None?
  {
    if reply.graph.Some? && Truthy(reply.graph.value.center) then
      GraphShown(CleanKeywords(Flattened(reply.graph.value)), reply.graph.value)
    else if reply.keywords.Some? then
      KeywordsShown(reply.keywords.value, FakeGraph(reply.keywords.value))
    else NoDisplay
  }

  /** The keywords floated for a graph are non-empty, upper-case, and no more than the
      graph has nodes. */
  lemma GraphKeywordsBounded(reply: ChatReply)
    requires DisplayFor(reply).GraphShown?
    ensures var d := DisplayFor(reply);
            var bs := BranchesOf(d.graph);
            && |d.keywords| <= 1 + |bs| + TotalLeaves(bs)
            && forall k :: 0 <= k < |d.keywords| ==> d.keywords[k] != "" && ToUpper(d.keywords[k]) == d.keywords[k]
  {
    KeywordCountBound(DisplayFor(reply).graph);
  }

  /** How a turn ends. */
  datatype TurnOutcome =
    | Skipped                                      // no API key: nothing happens
    | Failed                                       // "SYSTEM FAILURE." is spoken
    | Answered(speech: Option<string>, display: Display)

  /** The history after a turn that was not skipped. */
  function HistoryAfter(h: seq<ChatTurn>, userText: string, reply: Option<ChatReply>): (after: seq<ChatTurn>)
    ensures var pushed := h + [ChatTurn(User, Some(userText))];
            && (reply.None? ==> IsSuffix(after, pushed) && |after| == |LastTen(pushed)|)
            && (reply.Some? ==>
                  IsSuffix(after, pushed + [ChatTurn(Assistant, reply.value.response)])
                  && |after| == |LastTen(pushed)| + 1)
  {
    if reply.None? then PushUser(h, userText) else Exchange(h, userText, reply.value.response)
  }

  /** The mood after a turn that was not skipped: WARNING on failure, the reply's mood
      otherwise. */
  function MoodAfterTurn(reply: Option<ChatReply>): (m: string)
    ensures reply.None? ==> m == "WARNING"
    ensures m in MoodKeys || (reply.Some? && reply.value.mood == Some(m) && m in InheritedNames)
  {
    if reply.None? then "WARNING" else MoodAfterReply(reply.value.mood)
  }

  /** The outcome of a turn that was not skipped. */
  function OutcomeFor(reply: Option<ChatReply>): (o: TurnOutcome)
    ensures o.Failed? <==> reply.None?
    ensures !o.Skipped?
    ensures o.Answered? ==> o.speech == reply.value.response && o.display == DisplayFor(reply.value)
  {
    if reply.None? then Failed else Answered(reply.value.response, DisplayFor(reply.value))
  }

  /** A failed turn keeps the user's entry as the newest one. */
  lemma FailedTurnKeepsUserEntry(h: seq<ChatTurn>, userText: string)
    ensures var after := HistoryAfter(h, userText, None);
            after != [] && after[|after| - 1] == ChatTurn(User, Some(userText)) && |after| <= 10
  {
  }

  /** After any turn the history holds at most eleven entries, and its last entry is the
      turn's user entry or the assistant entry right after it. */
  lemma TurnBoundsHistory(h: seq<ChatTurn>, userText: string, reply: Option<ChatReply>)
    ensures var after := HistoryAfter(h, userText, reply);
            && |after| <= 11
            && (reply.None? ==> after[|after| - 1] == ChatTurn(User, Some(userText)))
            && (reply.Some? ==>
                  after[|after| - 2] == ChatTurn(User, Some(userText))
                  && after[|after| - 1] == ChatTurn(Assistant, reply.value.response))
  {
  }

  // ---------------------------------------------------------------------------
  // handleChat
  // ---------------------------------------------------------------------------

  /** `handleChat(userText)`, run to completion: returns how the turn ended. `net` and
      `parse` stand for the pipeline's network calls and for `JSON.parse` of the reply. */
  method HandleChat(w: Window, userText: string, net: Network, parse: string -> Option<ChatReply>)
    returns (outcome: TurnOutcome)
    modifies w`chatHistory, w`currentMood, w`isThinking, w`lastRetrievedMemories
    ensures old(w.userApiKey) == "" ==> outcome == Skipped && unchanged(w)
    ensures old(w.userApiKey) != "" ==>
              var reply := ReplyOf(ChatResultOf(net, userText), parse);
              && outcome == OutcomeFor(reply)
              && w.chatHistory == HistoryAfter(old(w.chatHistory), userText, reply)
              && w.currentMood == MoodAfterTurn(reply)
              && !w.isThinking
              && w.lastRetrievedMemories == MemoriesAfter(GetItem(w.localStorage, ScriptUrlItem), net, userText,
                                                         old(w.lastRetrievedMemories))
  {
    if w.userApiKey == "" {
      return Skipped;
    }
    w.isThinking := true;
    PushUserTurn(w, userText);
    var reply := AwaitReply(w, userText, net, parse);
    if reply.None? {
      // the catch block: triggerError, then "SYSTEM FAILURE."
      w.currentMood := "WARNING";
      w.isThinking := false;
      return Failed;
    }
    outcome := ApplyReply(w, reply.value);
  }

  /** `processMemoryChat` on the capped history, then the inline cleaning and
      `JSON.parse` of the first choice's content. */
  method AwaitReply(w: Window, userText: string, net: Network, parse: string -> Option<ChatReply>)
    returns (reply: Option<ChatReply>)
    modifies w`lastRetrievedMemories
    ensures reply == ReplyOf(ChatResultOf(net, userText), parse)
    ensures w.lastRetrievedMemories == MemoriesAfter(GetItem(w.localStorage, ScriptUrlItem), net, userText,
                                                     old(w.lastRetrievedMemories))
  {
    var data, _, _, _ := ProcessMemoryChat(w, userText, w.chatHistory, net);
    reply := ReplyOf(data, parse);
  }

  /** The rest of the `try` block once the reply parsed: the assistant push (not capped),
      the display, the mood and the end of thinking. */
  method ApplyReply(w: Window, json: ChatReply) returns (outcome: TurnOutcome)
    modifies w`chatHistory, w`currentMood, w`isThinking
    ensures w.chatHistory == old(w.chatHistory) + [ChatTurn(Assistant, json.response)]
    ensures w.currentMood == MoodAfterReply(json.mood)
    ensures !w.isThinking
    ensures outcome == Answered(json.response, DisplayFor(json))
  {
    w.chatHistory := w.chatHistory + [ChatTurn(Assistant, json.response)];
    var display := ShowReply(json);
    w.currentMood := if Truthy(json.mood) && AudioEntryTruthy(json.mood.value) then json.mood.value else "NEUTRAL";
    w.isThinking := false;
    outcome := Answered(json.response, display);
  }

  /** `chatHistory.push(...)` of the user's turn followed by the cap to ten entries. */
  method PushUserTurn(w: Window, userText: string)
    modifies w`chatHistory
    ensures w.chatHistory == PushUser(old(w.chatHistory), userText)
  {
    w.chatHistory := w.chatHistory + [ChatTurn(User, Some(userText))];
    if |w.chatHistory| > 10 {
      w.chatHistory := w.chatHistory[|w.chatHistory| - 10..];
    }
  }

  /** The display step of a reply: the graph is flattened by the push loops and its
      keywords cleaned, or the flat keyword list is shown with its stand-in graph. */
  method ShowReply(json: ChatReply) returns (display: Display)
    ensures display == DisplayFor(json)
  {
    display := NoDisplay;
    if json.graph.Some? && Truthy(json.graph.value.center) {
      var flatKeywords := FlattenGraph(json.graph.value);
      display := GraphShown(CleanKeywords(flatKeywords), json.graph.value);
    } else if json.keywords.Some? {
      display := KeywordsShown(json.keywords.value, FakeGraph(json.keywords.value));
    }
  }

  /** `triggerError`'s delayed revert, three seconds after a failed turn. */
  method ErrorTimerFires(w: Window)
    modifies w`currentMood
    ensures w.currentMood == "NEUTRAL"
  {
    w.currentMood := "NEUTRAL";
  }

  // ---------------------------------------------------------------------------
  // The garbage test
  // ---------------------------------------------------------------------------

  predicate IsVowel(c: char) {
    c in "aeiouAEIOU"
  }

  /** `/[aeiouAEIOU]/.test(text)`. */
  predicate HasVowel(text: string) {
    exists k :: 0 <= k < |text| && IsVowel(text[k])
  }

  /** The characters the regular-expression `.` does not match. */
  predicate IsLineTerminator(c: char) {
    c == '\n' || c == '\r' || c == '\U{2028}' || c == '\U{2029}'
  }

  /** `(.)\1{3,}` matches at `i`: four equal characters there, the first not a line
      terminator. */
  predicate RunAt(text: string, i: int) {
    0 <= i && i + 3 < |text| && !IsLineTerminator(text[i])
    && text[i + 1] == text[i] && text[i + 2] == text[i] && text[i + 3] == text[i]
  }

  /** `/(.)\1{3,}/.test(text)`. */
  predicate HasRepeatRun(text: string) {
    exists i :: 0 <= i < |text| && RunAt(text, i)
  }

  /** The garbage test: longer than six characters and either without a vowel or with a
      character repeated four or more times in a row. */
  predicate IsGarbage(text: string) {
    |text| > 6 && (!HasVowel(text) || HasRepeatRun(text))
  }

  /** No text of six characters or fewer is garbage. */
  lemma ShortTextIsNotGarbage(text: string)
    requires |text| <= 6
    ensures !IsGarbage(text)
  {
  }

  /** A run of seven or more copies of one character is garbage, whether or not it is a
      vowel: the repeat test catches it, or, for a line terminator, which `.` does not
      match, the vowel test does. */
  lemma LongRunIsGarbage(c: char, n: nat)
    requires n > 6
    ensures IsGarbage(seq(n, _ => c))
  {
    var s := seq(n, _ => c);
    if IsLineTerminator(c) {
      assert !IsVowel(c);
      assert !HasVowel(s);
    } else {
      assert RunAt(s, 0);
    }
  }

  /** A text longer than six characters with no vowel is garbage. */
  lemma VowelFreeIsGarbage(text: string)
    requires |text| > 6 && forall k :: 0 <= k < |text| ==> !IsVowel(text[k])
    ensures IsGarbage(text)
  {
  }

  /** The stated examples: "aaaaaaa" and "xyzxyzx" are garbage, "xyz" is not, and "hello
      there" (a vowel, no run of four) is not. */
  lemma GarbageExamples()
    ensures IsGarbage("aaaaaaa")
    ensures IsGarbage("xyzxyzx")
    ensures !IsGarbage("xyz")
    ensures !IsGarbage("/hello there")
  {
    LongRunIsGarbage('a', 7);
    assert seq(7, _ => 'a') == "aaaaaaa";
    VowelFreeIsGarbage("xyzxyzx");
    NoRunInHelloThere();
    assert "/hello there"[2] == 'e';
  }

  /** "/hello there" holds no run of four equal characters. */
  lemma NoRunInHelloThere()
    ensures !HasRepeatRun("/hello there")
  {
    var s := "/hello there";
    forall i | 0 <= i < |s| ensures !RunAt(s, i) {
      if i + 3 < |s| {
        assert s[i + 1] != s[i] || s[i + 2] != s[i] || s[i + 3] != s[i];
      }
    }
  }

  // ---------------------------------------------------------------------------
  // handleInput
  // ---------------------------------------------------------------------------

  /** What `handleInput` does with a line. `Script` carries the utterance spoken 1.5 s
      later. */
  datatype Action = Ignore | SaveKey | SaveSheet | Glitch | Script(line: string) | Chat

  /** The routing decision, in the order main.js takes it: empty input, the intake, the
      garbage test, the `/` prefix, and otherwise a chat turn. */
  function Route(text: string, auth: AuthState): (a: Action)
    ensures a == Ignore <==> text == ""
    ensures text != "" && auth == NeedKey ==> a == SaveKey
    ensures text != "" && auth == NeedSheet ==> a == SaveSheet
    ensures a == Glitch <==> text != "" && auth == Ready && IsGarbage(text)
    ensures a.Script? <==> auth == Ready && !IsGarbage(text) && StartsWith(text, "/")
    ensures a.Script? ==> text == "/" + a.line
    ensures a == Chat <==> text != "" && auth == Ready && !IsGarbage(text) && !StartsWith(text, "/")
  {
    if text == "" then Ignore
    else
      match auth
      case NeedKey => SaveKey
      case NeedSheet => SaveSheet
      case Ready =>
        if IsGarbage(text) then Glitch
        else if StartsWith(text, "/") then
          assert text == [text[0]] + text[1..];
          Script(Substring(text, 1, |text|))
        else Chat
  }

  /** The intake takes precedence over everything, garbage and commands included. */
  lemma IntakeFirst(text: string)
    requires text != ""
    ensures Route(text, NeedKey) == SaveKey && Route(text, NeedSheet) == SaveSheet
  {
  }

  /** A command that is also garbage glitches: the garbage test comes first. */
  lemma GarbageBeforeCommand()
    ensures Route("/aaaaaaa", Ready) == Glitch
  {
    var s := "/aaaaaaa";
    assert RunAt(s, 1);
  }

  /** "/hello there" speaks exactly "hello there" and starts no chat. */
  lemma CommandIsSpoken()
    ensures Route("/hello there", Ready) == Script("hello there")
  {
    GarbageExamples();
  }

  /** The spoken line of the glitch effect. */
  const GlitchSpeech := "ERR.. SYST3M... REJECT... D4TA..."

  /** The line a timer speaks after `handleInput` returns: the glitch line two seconds
      after garbage, a command's text 1.5 seconds after it. */
  function DelayedSpeech(a: Action): (line: Option<string>)
    ensures line.Some? <==> a == Glitch || a.Script?
    ensures a == Glitch ==> line == Some(GlitchSpeech)
    ensures a.Script? ==> line == Some(a.line)
  {
    match a
    case Glitch => Some(GlitchSpeech)
    case Script(l) => Some(l)
    case _ => None
  }

  /** `handleInput()` for the text in the input box: returns the action taken, what was
      spoken at once, the line a timer speaks afterwards, and the chat turn's outcome when
      one ran. */
  method HandleInput(w: Window, text: string, net: Network, parse: string -> Option<ChatReply>)
    returns (action: Action, said: seq<string>, later: Option<string>, turn: Option<TurnOutcome>)
    modifies w
    ensures action == Route(text, CheckAuth(old(w.localStorage)))
    ensures later == DelayedSpeech(action)
    // empty input and a command change nothing now: the command is spoken later
    ensures action == Ignore || action.Script? ==> said == [] && turn == None && unchanged(w)
    // the intake writes the configuration and nothing else
    ensures action == SaveKey ==>
              && said == ConfigReply(text, NeedKey) && turn == None
              && w.localStorage == SavedStore(old(w.localStorage), text, NeedKey)
              && w.userApiKey == (if KeyAccepted(text) then Trim(text) else old(w.userApiKey))
    ensures action == SaveSheet ==>
              && said == ConfigReply(text, NeedSheet) && turn == None
              && w.localStorage == SavedStore(old(w.localStorage), text, NeedSheet)
              && w.userApiKey == old(w.userApiKey)
    ensures action == SaveKey || action == SaveSheet ==>
              && w.chatHistory == old(w.chatHistory) && w.currentMood == old(w.currentMood)
              && w.glitchMode == old(w.glitchMode) && w.isThinking == old(w.isThinking)
              && w.lastRetrievedMemories == old(w.lastRetrievedMemories)
    // garbage sets the glitch mode and mood and nothing else
    ensures action == Glitch ==>
              && said == [] && turn == None
              && w.glitchMode && w.currentMood == "GLITCH"
              && w.localStorage == old(w.localStorage) && w.userApiKey == old(w.userApiKey)
              && w.chatHistory == old(w.chatHistory) && w.isThinking == old(w.isThinking)
              && w.lastRetrievedMemories == old(w.lastRetrievedMemories)
    // a chat turn is `handleChat`: it leaves the configuration and the glitch mode alone
    ensures action == Chat ==>
              && said == []
              && w.localStorage == old(w.localStorage) && w.userApiKey == old(w.userApiKey)
              && w.glitchMode == old(w.glitchMode)
    ensures action == Chat && old(w.userApiKey) != "" ==>
              var reply := ReplyOf(ChatResultOf(net, text), parse);
              && turn == Some(OutcomeFor(reply))
              && w.chatHistory == HistoryAfter(old(w.chatHistory), text, reply)
              && w.currentMood == MoodAfterTurn(reply)
              && !w.isThinking
              && w.lastRetrievedMemories == MemoriesAfter(GetItem(w.localStorage, ScriptUrlItem), net, text,
                                                         old(w.lastRetrievedMemories))
    ensures action == Chat && old(w.userApiKey) == "" ==> turn == Some(Skipped) && unchanged(w)
  {
    said, later, turn := [], None, None;
    if text == "" {
      return Ignore, said, later, turn;
    }
    var authState := CheckAuth(w.localStorage);
    action := Route(text, authState);
    if authState == NeedKey {
      said := SaveConfig(w, text, NeedKey);
      return;
    }
    if authState == NeedSheet {
      said := SaveConfig(w, text, NeedSheet);
      return;
    }
    if IsGarbage(text) {
      w.glitchMode := true;
      w.currentMood := "GLITCH";
      later := Some(GlitchSpeech);
    } else if StartsWith(text, "/") {
      later := Some(Substring(text, 1, |text|));
    } else {
      var outcome := HandleChat(w, text, net, parse);
      turn := Some(outcome);
    }
  }

  /** The glitch effect's end, four seconds after it began (after `GlitchSpeech` was
      spoken). */
  method GlitchTimerFires(w: Window)
    modifies w`glitchMode, w`currentMood
    ensures !w.glitchMode && w.currentMood == "NEUTRAL"
  {
    w.glitchMode := false;
    w.currentMood := "NEUTRAL";
  }
}
