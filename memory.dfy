/** The memory pipeline of memory.js: `processMemoryChat` runs a synthesiser call, an
    optional retrieval from the memory sheet, the final generation call and an optional
    store request. The network calls and `JSON.parse` are inputs (`Network`); what is
    modelled is every decision the function takes on their results. */
module Memory {
  import opened Js
  import opened Globals
  import opened Sanitizer

  // ---------------------------------------------------------------------------
  // historyText
  // ---------------------------------------------------------------------------

  /** `${msg.content}` of a turn: an absent content prints as "undefined". */
  function ContentText(content: Option<string>): string {
    if content.Some? then content.value else "undefined"
  }

  /** One line of the history text: the role upper-cased, a colon, a blank, the content. */
  function TurnLine(t: ChatTurn): (line: string)
    ensures t.role == User ==> StartsWith(line, "USER: ")
    ensures t.role == Assistant ==> StartsWith(line, "ASSISTANT: ")
    ensures line == (if t.role == User then "USER: " else "ASSISTANT: ") + ContentText(t.content)
  {
    ToUpper(RoleName(t.role)) + ": " + ContentText(t.content)
  }

  /** The lines of the history text, one per turn, in history order. */
  function Lines(h: seq<ChatTurn>): (ls: seq<string>)
    ensures |ls| == |h|
    ensures forall i :: 0 <= i < |h| ==> ls[i] == TurnLine(h[i])
  {
    seq(|h|, i requires 0 <= i < |h| => TurnLine(h[i]))
  }

  /** `history.map(msg => ...).join("\n")`. */
  function HistoryText(h: seq<ChatTurn>): (text: string)
    ensures text == "" <==> h == []
  {
    Join(Lines(h), "\n")
  }

  /** The content of a turn holds no line break. */
  predicate SingleLine(t: ChatTurn) {
    '\n' !in ContentText(t.content)
  }

  /** Splitting the history text at line breaks gives back one line per turn, in order,
      as long as no content holds a line break itself. */
  lemma HistoryTextLines(h: seq<ChatTurn>)
    requires h != []
    requires forall i :: 0 <= i < |h| ==> SingleLine(h[i])
    ensures Split(HistoryText(h), '\n') == Lines(h)
    ensures |Split(HistoryText(h), '\n')| == |h|
  {
    var ls := Lines(h);
    forall k | 0 <= k < |ls| ensures '\n' !in ls[k] {
      var t := h[k];
      var role := ToUpper(RoleName(t.role));
      assert '\n' !in role by {
        forall j | 0 <= j < |role| ensures role[j] != '\n' {
          assert role[j] == UpperChar(RoleName(t.role)[j]);
        }
      }
      assert ls[k] == role + ": " + ContentText(t.content);
    }
    SplitJoin(ls, '\n');
  }

  // ---------------------------------------------------------------------------
  // The synthesiser step
  // ---------------------------------------------------------------------------

  /** The synthesiser's decision `{ entities, topics, search_keywords, new_fact }`; a
      missing field, or JSON `null`, is `None`. */
  datatype SynthData = SynthData(entities: Option<string>, topics: Option<string>,
                                 searchKeywords: Option<string>, newFact: Option<string>)

  /** The value `synthData` starts with. */
  const DefaultSynth := SynthData(Some(""), Some(""), Some(""), None)

  /** What the synthesiser request yields: it throws (network failure, a body that is not
      JSON, an empty `choices` or a choice without `message`), it answers without
      `choices`, or it answers with the content of its first choice. */
  datatype SynthOutcome = SynthThrew | SynthNoChoices | SynthReply(content: Option<string>)

  /** What `JSON.parse` makes of the cleaned synthesiser content. */
  datatype SynthParse = SynthUnparseable | SynthNull | SynthObject(data: SynthData)

  /** The words of `userText` (split at single blanks) that are longer than three
      characters, in order. */
  function LongWords(ws: seq<string>): (r: seq<string>)
    ensures |r| <= |ws|
    ensures forall w :: w in r ==> w in ws && |w| > 3
    ensures forall w :: w in ws && |w| > 3 ==> w in r
  {
    if ws == [] then []
    else (if |ws[0]| > 3 then [ws[0]] else []) + LongWords(ws[1..])
  }

  /** The filter works word by word: a concatenation keeps the kept words of each part,
      in order, and one word is kept exactly when it is longer than three characters. */
  lemma {:induction false} LongWordsAppend(a: seq<string>, b: seq<string>)
    ensures LongWords(a + b) == LongWords(a) + LongWords(b)
    ensures forall w :: LongWords([w]) == if |w| > 3 then [w] else []
    decreases |a|
  {
    if a == [] {
      assert a + b == b;
    } else {
      assert (a + b)[1..] == a[1..] + b;
      LongWordsAppend(a[1..], b);
    }
  }

  /** `userText.split(" ").filter(w => w.length > 3).join(", ")`. */
  function FallbackKeywords(userText: string): string {
    Join(LongWords(Split(userText, ' ')), ", ")
  }

  /** `synthData` after the synthesiser step; `None` when the parsed reply was JSON `null`,
      which makes the next statement throw. */
  function SynthStep(outcome: SynthOutcome, parse: string -> SynthParse, userText: string): (r: Option<SynthData>)
    ensures outcome.SynthThrew? ==> r == Some(DefaultSynth.(searchKeywords := Some(FallbackKeywords(userText))))
    ensures outcome.SynthNoChoices? ==> r == Some(DefaultSynth)
    ensures outcome.SynthReply? && parse(CleanJSON(outcome.content)).SynthUnparseable? ==>
              r == Some(DefaultSynth.(searchKeywords := Some(FallbackKeywords(userText))))
    ensures outcome.SynthReply? && parse(CleanJSON(outcome.content)).SynthObject? ==>
              r == Some(parse(CleanJSON(outcome.content)).data)
    ensures r.None? <==> outcome.SynthReply? && parse(CleanJSON(outcome.content)).SynthNull?
  {
    var fallback := DefaultSynth.(searchKeywords := Some(FallbackKeywords(userText)));
    match outcome
    case SynthThrew => Some(fallback)
    case SynthNoChoices => Some(DefaultSynth)
    case SynthReply(content) =>
      match parse(CleanJSON(content))
      case SynthUnparseable => Some(fallback)
      case SynthNull => None
      case SynthObject(data) => Some(data)
  }

  // ---------------------------------------------------------------------------
  // The retrieval step
  // ---------------------------------------------------------------------------

  /** `appsScriptUrl && (synthData.search_keywords || userText.length > 3)`. */
  predicate RetrievalGuard(url: Option<string>, synth: SynthData, userText: string) {
    Truthy(url) && (Truthy(synth.searchKeywords) || |userText| > 3)
  }

  /** `synthData.search_keywords || userText`. */
  function SearchQuery(synth: SynthData, userText: string): (q: string)
    ensures Truthy(synth.searchKeywords) ==> q == synth.searchKeywords.value
    ensures !Truthy(synth.searchKeywords) ==> q == userText
  {
    if Truthy(synth.searchKeywords) then synth.searchKeywords.value else userText
  }

  /** `finalKeywords.split(',').map(s => s.trim())`: one keyword more than there are
      commas, each the trimmed piece between two commas, in order. */
  function RetrievalKeywords(query: string): (ks: seq<string>)
    ensures |ks| == Count(query, ',') + 1
    ensures forall i :: 0 <= i < |ks| ==> ',' !in ks[i]
    ensures forall i :: 0 <= i < |ks| ==> ks[i] == Trim(Split(query, ',')[i])
  {
    var parts := Split(query, ',');
    var ks := seq(|parts|, i requires 0 <= i < |parts| => Trim(parts[i]));
    forall i | 0 <= i < |ks| ensures ',' !in ks[i] {
      TrimIsInfix(parts[i]);
      assert ',' !in parts[i];
    }
    ks
  }

  /** Trimming keeps a contiguous piece of the string. */
  lemma TrimIsInfix(s: string)
    ensures exists a, b :: 0 <= a <= b <= |s| && Trim(s) == s[a..b]
  {
    var t := TrimStart(s);
    var a := |s| - |t|;
    var r := TrimEnd(t);
    assert r == t[..|r|] == s[a..a + |r|];
  }

  /** What the memory sheet answers: the request throws, its text is not JSON (treated as
      `{ memories: [] }`), or it parses to an object with an optional `memories` list. */
  datatype RetrievalOutcome = RetrievalFailed | RetrievalUnparseable | RetrievalParsed(memories: Option<seq<string>>)

  /** The memories the reply carries; none when the reply failed or was unparseable. */
  function MemoriesOf(outcome: RetrievalOutcome): (ms: seq<string>)
    ensures !outcome.RetrievalParsed? ==> ms == []
    ensures outcome.RetrievalParsed? && outcome.memories.None? ==> ms == []
    ensures ms != [] ==> outcome == RetrievalParsed(Some(ms))
  {
    if outcome.RetrievalParsed? && outcome.memories.Some? then outcome.memories.value else []
  }

  /** `retrievedContext`: "MEMORIES FOUND:" and the memories, one per line, when there are
      any; "" otherwise. */
  function MemoryContext(memories: seq<string>): (ctx: string)
    ensures memories == [] <==> ctx == ""
  {
    if |memories| > 0 then "MEMORIES FOUND:\n" + Join(memories, "\n") else ""
  }

  /** The context block reads back as its heading followed by one line per memory, as long
      as no memory holds a line break. */
  lemma MemoryContextLines(memories: seq<string>)
    requires memories != []
    requires forall i :: 0 <= i < |memories| ==> '\n' !in memories[i]
    ensures Split(MemoryContext(memories), '\n') == ["MEMORIES FOUND:"] + memories
  {
    var parts := ["MEMORIES FOUND:"] + memories;
    assert parts[1..] == memories;
    assert Join(parts, "\n") == MemoryContext(memories);
    SplitJoin(parts, '\n');
  }

  // ---------------------------------------------------------------------------
  // The storage step and the response
  // ---------------------------------------------------------------------------

  /** `appsScriptUrl && synthData.new_fact && synthData.new_fact !== "null"`. */
  predicate StoreGuard(url: Option<string>, synth: SynthData) {
    Truthy(url) && Truthy(synth.newFact) && synth.newFact.value != "null"
  }

  /** The body of the store request. */
  datatype StoreRequest = StoreRequest(entities: Option<string>, topics: Option<string>, fact: string)

  /** One entry of `choices`: with or without a `message`. */
  datatype Choice = NoMessage | Message(content: Option<string>)

  /** What the final generation request yields: `fetch` throws, the body is not a JSON
      object (`json()` throws or yields `null`), or the body with its optional `choices`. */
  datatype GenerationOutcome = RequestFailed | BodyUnusable | Body(choices: Option<seq<Choice>>)

  /** The object `processMemoryChat` returns. */
  datatype ResponseData = ResponseData(choices: Option<seq<Choice>>, detectedEntities: Option<string>)

  /** The settled promise: rejected, or resolved with the response. */
  datatype ChatResult = Threw | Returned(data: ResponseData)

  /** The response post-processing: the content of `choices[0]` is cleaned when that choice
      exists (a choice without a message throws), and `detected_entities` is set to the
      synthesiser's entities. */
  function Finish(synth: SynthData, gen: GenerationOutcome): (r: ChatResult)
    ensures r.Threw? <==>
              gen.RequestFailed? || gen.BodyUnusable? ||
              (gen.Body? && gen.choices.Some? && |gen.choices.value| > 0 && gen.choices.value[0].NoMessage?)
    ensures r.Returned? ==> r.data.detectedEntities == synth.entities
    ensures r.Returned? && gen.Body? && (gen.choices.None? || gen.choices.value == []) ==>
              r.data.choices == gen.choices
    ensures r.Returned? && gen.Body? && gen.choices.Some? && |gen.choices.value| > 0 ==>
              var cs, out := gen.choices.value, r.data.choices;
              && out.Some? && |out.value| == |cs|
              && out.value[0] == Message(Some(CleanJSON(cs[0].content)))
              && !Occurs(out.value[0].content.value, Fence)
              && out.value[1..] == cs[1..]
  {
    match gen
    case RequestFailed => Threw
    case BodyUnusable => Threw
    case Body(choices) =>
      if choices.Some? && |choices.value| > 0 then
        var first := choices.value[0];
        if first.NoMessage? then Threw
        else Returned(ResponseData(Some(choices.value[0 := Message(Some(CleanJSON(first.content)))]), synth.entities))
      else Returned(ResponseData(choices, synth.entities))
  }

  // ---------------------------------------------------------------------------
  // processMemoryChat
  // ---------------------------------------------------------------------------

  /** The outcomes of the network calls and of parsing the synthesiser's reply. */
  datatype Network = Network(synth: SynthOutcome, parseSynth: string -> SynthParse,
                             retrieval: RetrievalOutcome, generation: GenerationOutcome)

  /** The values the final prompt is built from: the retrieved context, the history text
      and the user's text. */
  datatype GenerationRequest = GenerationRequest(context: string, historyText: string, userText: string)

  /** The retrieval step: when the guard holds, the query is split into keywords and,
      if the reply carries memories, the context block is built and published in
      `window.lastRetrievedMemories`. */
  method Retrieve(w: Window, url: Option<string>, synth: SynthData, userText: string, outcome: RetrievalOutcome)
    returns (keywords: Option<seq<string>>, context: string)
    modifies w`lastRetrievedMemories
    ensures var asked := RetrievalGuard(url, synth, userText);
            var mems := if asked then MemoriesOf(outcome) else [];
            && keywords == (if asked then Some(RetrievalKeywords(SearchQuery(synth, userText))) else None)
            && context == MemoryContext(mems)
            && w.lastRetrievedMemories == (if mems != [] then Some(context) else old(w.lastRetrievedMemories))
  {
    keywords, context := None, "";
    if RetrievalGuard(url, synth, userText) {
      var finalKeywords := SearchQuery(synth, userText);
      keywords := Some(RetrievalKeywords(finalKeywords));
      var memories := MemoriesOf(outcome);
      if |memories| > 0 {
        context := MemoryContext(memories);
        w.lastRetrievedMemories := Some(context);
      }
    }
  }

  /** The memories a turn retrieves: those of the reply when the retrieval guard holds,
      none otherwise. */
  function RetrievedMemories(url: Option<string>, synth: SynthData, userText: string, outcome: RetrievalOutcome): seq<string> {
    if RetrievalGuard(url, synth, userText) then MemoriesOf(outcome) else []
  }

  /** The value `processMemoryChat` settles with: it rejects on a null decision, and
      otherwise as the response post-processing says. It depends on neither the sheet URL
      nor the history. */
  function ChatResultOf(net: Network, userText: string): (r: ChatResult)
    ensures SynthStep(net.synth, net.parseSynth, userText).None? ==> r == Threw
    ensures net.generation.RequestFailed? || net.generation.BodyUnusable? ==> r == Threw
  {
    var synth := SynthStep(net.synth, net.parseSynth, userText);
    if synth.None? then Threw else Finish(synth.value, net.generation)
  }

  /** `window.lastRetrievedMemories` after a call: the new context block when memories were
      found, the earlier value otherwise. */
  function MemoriesAfter(url: Option<string>, net: Network, userText: string, prior: Option<string>): (m: Option<string>)
    ensures !Truthy(url) ==> m == prior
  {
    var synth := SynthStep(net.synth, net.parseSynth, userText);
    if synth.None? then prior
    else
      var mems := RetrievedMemories(url, synth.value, userText, net.retrieval);
      if mems != [] then Some(MemoryContext(mems)) else prior
  }

  /** The keywords sent to the memory sheet, when the retrieval step runs. */
  function RetrievalSent(url: Option<string>, net: Network, userText: string): (r: Option<seq<string>>)
    ensures var synth := SynthStep(net.synth, net.parseSynth, userText);
            && (r.Some? <==> synth.Some? && RetrievalGuard(url, synth.value, userText))
            && (r.Some? ==> r.value == RetrievalKeywords(SearchQuery(synth.value, userText)))
    ensures r.Some? ==> Truthy(url)
  {
    var synth := SynthStep(net.synth, net.parseSynth, userText);
    if synth.Some? && RetrievalGuard(url, synth.value, userText)
    then Some(RetrievalKeywords(SearchQuery(synth.value, userText)))
    else None
  }

  /** The values of the final prompt, when the generation request is made. A null decision
      throws in the retrieval guard only when the URL is truthy; without one the guard
      stops at the URL and the request still goes out, with no memory context. */
  function GenerationSent(url: Option<string>, net: Network, userText: string, history: seq<ChatTurn>): (r: Option<GenerationRequest>)
    ensures var synth := SynthStep(net.synth, net.parseSynth, userText);
            && (r.Some? <==> synth.Some? || !Truthy(url))
            && (r.Some? ==> r.value.historyText == HistoryText(history) && r.value.userText == userText)
            && (r.Some? && synth.Some? ==>
                  r.value.context == MemoryContext(RetrievedMemories(url, synth.value, userText, net.retrieval)))
            && (r.Some? && synth.None? ==> r.value.context == "")
  {
    var synth := SynthStep(net.synth, net.parseSynth, userText);
    if synth.None? then
      if Truthy(url) then None else Some(GenerationRequest("", HistoryText(history), userText))
    else Some(GenerationRequest(MemoryContext(RetrievedMemories(url, synth.value, userText, net.retrieval)),
                                HistoryText(history), userText))
  }

  /** The store request, when one is made: only after the generation request went out,
      with a truthy URL and a truthy fact other than "null". */
  function StoreSent(url: Option<string>, net: Network, userText: string): (r: Option<StoreRequest>)
    ensures var synth := SynthStep(net.synth, net.parseSynth, userText);
            && (r.Some? <==> synth.Some? && !net.generation.RequestFailed? && StoreGuard(url, synth.value))
            && (r.Some? ==> r == Some(StoreRequest(synth.value.entities, synth.value.topics, synth.value.newFact.value)))
    ensures r.Some? ==> Truthy(url) && r.value.fact != "" && r.value.fact != "null"
  {
    var synth := SynthStep(net.synth, net.parseSynth, userText);
    if synth.Some? && !net.generation.RequestFailed? && StoreGuard(url, synth.value)
    then Some(StoreRequest(synth.value.entities, synth.value.topics, synth.value.newFact.value))
    else None
  }

  /** `processMemoryChat(userText, apiKey, model, history)`. Returns the settled result
      together with what it sent: the retrieval keywords, the values of the final prompt
      and the store request, each `None` when that request was not made. */
  method ProcessMemoryChat(w: Window, userText: string, history: seq<ChatTurn>, net: Network)
    returns (result: ChatResult, retrieval: Option<seq<string>>,
             generation: Option<GenerationRequest>, store: Option<StoreRequest>)
    modifies w`lastRetrievedMemories
    ensures var url := GetItem(w.localStorage, ScriptUrlItem);
            && result == ChatResultOf(net, userText)
            && w.lastRetrievedMemories == MemoriesAfter(url, net, userText, old(w.lastRetrievedMemories))
            && retrieval == RetrievalSent(url, net, userText)
            && generation == GenerationSent(url, net, userText, history)
            && store == StoreSent(url, net, userText)
  {
    var appsScriptUrl := GetItem(w.localStorage, ScriptUrlItem);
    var historyText := HistoryText(history);
    retrieval, generation, store := None, None, None;

    // 1. Synthesiser. A null decision throws where `synthData` is next read: in the
    //    retrieval guard when the URL is truthy, otherwise at `synthData.entities`, after
    //    the final request went out (the store guard stops at the URL as well)
    var decision := SynthStep(net.synth, net.parseSynth, userText);
    if decision.None? {
      if !Truthy(appsScriptUrl) {
        generation := Some(GenerationRequest("", historyText, userText));
      }
      result := Threw;
      return;
    }
    var synthData := decision.value;

    // 2. Retrieval
    var retrievedContext;
    retrieval, retrievedContext := Retrieve(w, appsScriptUrl, synthData, userText, net.retrieval);

    // 3. Final generation
    generation := Some(GenerationRequest(retrievedContext, historyText, userText));
    if net.generation.RequestFailed? {
      result := Threw;
      return;
    }

    // 4. Storage
    if StoreGuard(appsScriptUrl, synthData) {
      store := Some(StoreRequest(synthData.entities, synthData.topics, synthData.newFact.value));
    }

    result := Finish(synthData, net.generation);
  }

  // ---------------------------------------------------------------------------
  // Properties of the pipeline
  // ---------------------------------------------------------------------------

  /** Prepending a string to a join prepends it to the first part. */
  lemma JoinConsPrefix(p: string, first: string, rest: seq<string>, sep: string)
    ensures p + Join([first] + rest, sep) == Join([p + first] + rest, sep)
  {
    assert ([first] + rest)[1..] == rest;
    assert ([p + first] + rest)[1..] == rest;
  }

  /** Every part but the first with a blank in front. */
  function Spaced(ws: seq<string>): (r: seq<string>)
    ensures |r| == |ws|
    ensures forall i :: 0 <= i < |ws| ==> r[i] == " " + ws[i]
  {
    seq(|ws|, i requires 0 <= i < |ws| => " " + ws[i])
  }

  /** Joining with ", " is joining with "," after putting a blank in front of every part but
      the first. */
  lemma {:induction false} JoinCommaBlank(ws: seq<string>)
    requires ws != []
    ensures Join(ws, ", ") == Join([ws[0]] + Spaced(ws[1..]), ",")
    decreases |ws|
  {
    if |ws| > 1 {
      var tail := ws[1..];
      JoinCommaBlank(tail);
      assert Spaced(tail) == [" " + tail[0]] + Spaced(tail[1..]);
      JoinConsPrefix(" ", tail[0], Spaced(tail[1..]), ",");
      var parts := [ws[0]] + Spaced(tail);
      assert parts[1..] == Spaced(tail);
      assert Join(parts, ",") == ws[0] + "," + Join(Spaced(tail), ",");
    }
  }

  /** A word that is not empty and holds neither a comma nor white space. */
  predicate PlainWord(w: string) {
    w != [] && forall k :: 0 <= k < |w| ==> w[k] != ',' && !IsSpace(w[k])
  }

  /** Splitting a ", "-joined list of comma-free words at commas gives the first word and
      every other word with its blank in front. */
  lemma CommaSplitPieces(ws: seq<string>)
    requires ws != []
    requires forall i :: 0 <= i < |ws| ==> ',' !in ws[i]
    ensures Split(Join(ws, ", "), ',') == [ws[0]] + Spaced(ws[1..])
  {
    JoinCommaBlank(ws);
    var parts := [ws[0]] + Spaced(ws[1..]);
    forall k | 0 <= k < |parts| ensures ',' !in parts[k] {
      if k > 0 {
        assert parts[k] == " " + ws[k];
      }
    }
    SplitJoin(parts, ',');
  }

  /** Each piece trims back to its word. */
  lemma PieceTrimsToWord(ws: seq<string>, i: nat)
    requires i < |ws| && PlainWord(ws[i])
    ensures Trim(([ws[0]] + Spaced(ws[1..]))[i]) == ws[i]
  {
    TrimKeepsBareWord(ws[i]);
    if i > 0 {
      assert ([ws[0]] + Spaced(ws[1..]))[i] == " " + ws[i];
    }
  }

  /** A list of plain words joined by ", " reaches the memory sheet as exactly that list. */
  lemma CommaListRoundTrip(ws: seq<string>)
    requires ws != []
    requires forall i :: 0 <= i < |ws| ==> PlainWord(ws[i])
    ensures RetrievalKeywords(Join(ws, ", ")) == ws
  {
    CommaSplitPieces(ws);
    var parts := [ws[0]] + Spaced(ws[1..]);
    var ks := RetrievalKeywords(Join(ws, ", "));
    assert |ks| == |ws|;
    forall i | 0 <= i < |ws| ensures ks[i] == ws[i] {
      PieceTrimsToWord(ws, i);
    }
  }

  /** Every character of a piece of a split comes from the split string. */
  lemma {:induction false} SplitPieceChars(s: string, sep: char, p: string, c: char)
    requires p in Split(s, sep) && c in p
    ensures c in s
    decreases |s|
  {
    if s != [] {
      assert s == [s[0]] + s[1..];
      var rest := Split(s[1..], sep);
      if s[0] == sep {
        assert p in rest;
        SplitPieceChars(s[1..], sep, p, c);
      } else if p != [s[0]] + rest[0] {
        assert p in rest[1..];
        assert p in rest;
        SplitPieceChars(s[1..], sep, p, c);
      } else if c != s[0] {
        assert c in rest[0];
        SplitPieceChars(s[1..], sep, rest[0], c);
      }
    }
  }

  /** When the synthesiser fails on a text whose words hold no comma and are separated
      only by single blanks, the memory sheet is asked for exactly the words longer than
      three characters, in order. */
  lemma FallbackReachesRetrieval(userText: string)
    requires forall k :: 0 <= k < |userText| ==> userText[k] != ',' && (userText[k] == ' ' || !IsSpace(userText[k]))
    requires LongWords(Split(userText, ' ')) != []
    ensures RetrievalKeywords(FallbackKeywords(userText)) == LongWords(Split(userText, ' '))
  {
    var ws := LongWords(Split(userText, ' '));
    forall i | 0 <= i < |ws| ensures PlainWord(ws[i]) {
      var w := ws[i];
      assert w in ws;
      forall k | 0 <= k < |w| ensures w[k] != ',' && !IsSpace(w[k]) {
        assert w[k] in w;
        SplitPieceChars(userText, ' ', w, w[k]);
        assert w[k] != ' ';
      }
    }
    CommaListRoundTrip(ws);
  }

  /** With the synthesiser failed, the store guard never holds: `new_fact` stays null. */
  lemma FailedSynthStoresNothing(url: Option<string>, userText: string)
    ensures var synth := SynthStep(SynthThrew, _ => SynthUnparseable, userText);
            synth.Some? && !StoreGuard(url, synth.value) && synth.value.entities == Some("")
  {
  }

  /** Without a sheet URL a null decision still sends the final request, with no memory
      context, before the call rejects; no store request follows. */
  lemma NullDecisionWithoutUrl(net: Network, userText: string, history: seq<ChatTurn>, url: Option<string>)
    requires net.synth.SynthReply? && net.parseSynth(CleanJSON(net.synth.content)).SynthNull?
    ensures GenerationSent(None, net, userText, history) == Some(GenerationRequest("", HistoryText(history), userText))
    ensures Truthy(url) ==>
              RetrievalSent(url, net, userText) == None && GenerationSent(url, net, userText, history) == None
              && StoreSent(url, net, userText) == None
    ensures ChatResultOf(net, userText) == Threw
    ensures StoreSent(None, net, userText) == None
  {
  }

  /** The "SKIP" sentinel is a truthy URL: neither guard excludes it. */
  lemma SkipPassesBothGuards(synth: SynthData, userText: string)
    ensures RetrievalGuard(Some("SKIP"), synth, userText) <==> Truthy(synth.searchKeywords) || |userText| > 3
    ensures StoreGuard(Some("SKIP"), synth) <==> Truthy(synth.newFact) && synth.newFact.value != "null"
  {
  }
}
