# Symbiosis companion: a Dafny model of its coordinator and memory pipeline

Symbiosis is a browser companion. A line typed into the input box is routed in one of
several ways:

- to a two-step configuration intake (an OpenRouter API key, then a Google Apps Script
  URL or the sentinel `SKIP`);
- to a "glitch" effect, when the text looks like garbage;
- to a scripted utterance, when it starts with `/`;
- to a chat turn.

A chat turn does the following:

1. It appends the user's entry to a bounded chat history.
2. It calls the memory pipeline (`processMemoryChat`), which does four things:
   - a synthesiser call extracts entities, topics, search keywords and a new fact;
   - the memory sheet is queried;
   - the final reply is generated;
   - a new fact may be stored.
3. It cleans the reply of markdown fences and cuts out the JSON object.
4. It appends the assistant's entry.
5. It flattens the reply's knowledge graph into upper-cased floating keywords.
6. It sets the current mood.

This project models those decisions in Dafny, branch by branch, and proves what they
guarantee. What it leaves out is listed at the end.

## Modules

- `Js` (`js.dfy`): the JavaScript built-ins the code relies on, with their JavaScript
  semantics:
  - `indexOf` and `lastIndexOf`;
  - `substring`, which clamps its indices and swaps them when start > end;
  - `replace(/pat/g, "")`, a left-to-right scan without overlaps;
  - `split` on one character, and `join`;
  - `trim`, over the full ECMAScript white-space set;
  - `toUpperCase`;
  - truthiness of strings that may be `undefined`/`null` (`Option<string>`).
- `Sanitizer` (`sanitizer.dfy`): `cleanJSON` of memory.js and the inline copy in
  main.js.
- `KnowledgeGraph` (`knowledge_graph.dfy`):
  - the graph reply;
  - the push loops that flatten it;
  - the falsy-filter/upper-case cleaning;
  - the stand-in graph built from a flat keyword list.
- `Moods` (`moods.dfy`): the key set of `MOOD_AUDIO` and the mood update after a reply.
- `Globals` (`globals.dfy`): the page state, as a class `Window`. It holds
  `localStorage` (a map), `USER_API_KEY`, `chatHistory`, `currentMood`, `glitchMode`,
  `isThinking` and `lastRetrievedMemories`.
- `Config` (`config.dfy`): `checkAuth` and `saveConfig`.
- `Memory` (`memory.dfy`):
  - `historyText`;
  - the synthesiser fallback;
  - the retrieval guard and keyword split;
  - the memory context block;
  - the store guard;
  - the response post-processing;
  - `processMemoryChat` as a method.
- `Companion` (`companion.dfy`):
  - `handleChat` as a method, with the history cap;
  - the garbage test;
  - the routing of `handleInput`, and `handleInput` as a method;
  - the two timer callbacks that revert the mood.

The network calls and `JSON.parse` are inputs to the model. `Memory.Network` carries
four of them:

- the synthesiser's outcome;
- the parse of its cleaned content;
- the memory sheet's reply;
- the generation reply.

The parse of the final reply is a function parameter of `HandleChat`. Every branch the
code takes on those results is modelled, including the ones that throw:

- a missing `choices[0]`, a choice without a message, and an unparseable reply;
- a `null` synthesiser decision. With a truthy sheet URL the call rejects in the
  retrieval guard, before any further request. Without one, the guard stops at the URL,
  and the final request still goes out, with no memory context. The call rejects only
  afterwards, when `synthData.entities` is read (`Memory.NullDecisionWithoutUrl`).

Several behaviours of the code as written are stated and proved as they are:

- **The history can reach eleven entries.** The ten-entry cap is applied after the user
  push only, and the assistant push is not capped. After n successful turns from an
  empty history there are 2n entries for n ≤ 5, and 11 from then on
  (`Companion.ConverseLength`).
- **The two copies of the sanitiser differ.** When no brace pair is found, memory.js
  returns the fence-stripped text, while main.js keeps the original, fenced text
  (`Sanitizer.CopiesDifferWithoutBraces`).
- **`cleanJSON` is idempotent only on non-empty output.** A reply made only of a
  fence cleans to "", and "" then cleans to "{}" (`Sanitizer.EmptyCleaningIsNotStable`).
  Re-cleaning with the inline copy, which is what main.js does, changes nothing on any
  input (`Sanitizer.InlineCleanKeepsCleaned`).
- **The mood lookup `MOOD_AUDIO[json.mood]` is not an own-key test.** Names inherited
  from `Object.prototype`, such as `toString`, pass it and become the current mood
  (`Moods.InheritedNamePassesLookup`). Outside those names the mood stays within the
  eight keys.
- **The URL sentinel `SKIP` is truthy.** Neither the retrieval guard nor the store guard
  excludes it (`Memory.SkipPassesBothGuards`).

## Model

| member | source | states |
|---|---|---|
| `Js.IndexOf` | memory.js:17 | the result is -1 exactly when the character is absent, otherwise a position holding it with no earlier occurrence |
| `Js.LastIndexOf` | memory.js:18 | the result is -1 exactly when the character is absent, otherwise a position holding it with no later occurrence |
| `Js.Substring` | memory.js:19 | `substring` returns the slice between its indices, in either order: swapped indices give the same slice |
| `Js.ReplaceAll` | memory.js:15 | a global literal replacement leaves a text without the pattern unchanged |
| `Js.FenceRemovalLeavesNone` | memory.js:15 | after removing every "```" no "```" is left, even where removal brings backticks together |
| `Js.ReplaceAfterPlainPrefix` | main.js:140 | replacement passes unchanged over a prefix that does not hold the pattern's first character |
| `Js.IndexOfAfterPrefix` | main.js:141 | the first `c` of a text is the one after a `c`-free prefix |
| `Js.LastIndexOfBeforeSuffix` | main.js:141 | the last `c` of a text is the one before a `c`-free suffix |
| `Js.ReplaceAtHead` | memory.js:15 | an occurrence at the head is replaced and the scan resumes right after it |
| `Js.DeleteBetweenPlain` | memory.js:15 | deleting a pattern whose first character occurs in neither the text before nor the text after one occurrence removes exactly that occurrence and carries on in the rest |
| `Js.DeletionAddsNothing` | memory.js:15 | replacing with "" brings in no character the text lacks |
| `Js.Split` | memory.js:82 | `split` on one character yields one more piece than there are separators, no piece holds the separator, and joining the pieces gives the text back |
| `Js.Join` | memory.js:9 | an empty list joins to ""; otherwise the result starts with the first part and is at least as long as every part; `Js.SplitJoin` gives its inverse |
| `Js.SplitJoin` | memory.js:82 | `split` undoes `join` when no part holds the separator |
| `Js.TrimStart` | main.js:101 | the result is a suffix of the text; everything removed is white space and the result does not start with white space |
| `Js.TrimEnd` | main.js:101 | the result is a prefix of the text; everything removed is white space and the result does not end with white space |
| `Js.Trim` | memory.js:82 | the result neither starts nor ends with white space, and it is empty exactly when the text is all white space |
| `Js.TrimKeepsBareWord` | memory.js:82 | trimming keeps a word without outer white space and removes one blank in front of it |
| `Js.ToUpper` | main.js:174 | upper-casing keeps the length and maps every character on its own |
| `Js.UpperIsIdempotent` | main.js:174 | upper-casing twice is upper-casing once |
| `Js.StartsWith` | main.js:100 | the text begins with the prefix; `Config.TrimKeepsPrefix` shows trimming keeps a non-space one |
| `Sanitizer.StripFences` | memory.js:15 | after both replacements no "```" remains, and a fence-free text is unchanged |
| `Sanitizer.BraceSpan` | memory.js:17-19 | with `{` before the last `}` the span runs from the first `{` to the last `}` inclusive; otherwise it is the brace-free text between them; it never adds a fence |
| `Sanitizer.CleanJSON` | memory.js:12-21 | a falsy input gives "{}"; with both braces present the result is the brace span of the stripped text, otherwise the stripped text; it never holds a fence |
| `Sanitizer.InlineClean` | main.js:140-144 | with both braces present after stripping the result is the brace span, otherwise the ORIGINAL unstripped text |
| `Sanitizer.SpanIsFixed` | memory.js:17-19 | a fence-free text from `{` to `}` is its own brace span |
| `Sanitizer.CleanShapes` | memory.js:12-21 | a cleaned reply is a span from `{` to `}` or holds at most one kind of brace |
| `Sanitizer.InlineCleanKeepsCleaned` | main.js:140-144 | the inline copy leaves the output of `cleanJSON` unchanged, for every input |
| `Sanitizer.CleanJSONIdempotent` | memory.js:12-21 | cleaning a non-empty cleaned reply again changes nothing |
| `Sanitizer.EmptyCleaningIsNotStable` | memory.js:13-15 | "```" cleans to "", and "" cleans to "{}" |
| `Sanitizer.ProseAroundObject` | memory.js:17-19 | an object wrapped in prose with no `{` before it and no `}` after it is cut out exactly by both copies |
| `Sanitizer.FencedObjectInProse` | memory.js:12-21 | a ```json-fenced object inside prose, with no `{` before it, no `}` after it and no backtick before the closing fence, is cut out exactly by both copies |
| `Sanitizer.BracesSwapped` | memory.js:19 | when the last `}` precedes the first `{`, both copies return the text strictly between them |
| `Sanitizer.SwappedBraces` | memory.js:19 | "} x {" cleans to " x " |
| `Sanitizer.NoBacktickNoChange` | memory.js:15 | a text without backticks passes the fence stripping unchanged |
| `Sanitizer.CopiesDifferWithoutBraces` | main.js:142-144 | for a fenced reply without braces memory.js returns the inner text, while main.js keeps the fenced original |
| `Sanitizer.CopiesDifferExample` | memory.js:20 | "```json hi```" gives " hi" from memory.js and itself from main.js |
| `KnowledgeGraph.LeafWord` | main.js:166 | a string leaf gives itself and an object leaf its `text`, so only an object leaf can give no word |
| `KnowledgeGraph.BranchWord` | main.js:160 | the label when it is truthy, the `text` otherwise; the word is truthy exactly when the label or the text is |
| `KnowledgeGraph.LeafWords` | main.js:163-168 | each leaf contributes exactly one entry |
| `KnowledgeGraph.PushLeafWords` | main.js:164-168 | the leaf loop appends the leaves' words, in order, to the list built so far |
| `KnowledgeGraph.FlattenGraph` | main.js:152-171 | the push loops produce the center, then each branch's label (or text) followed by its leaves, in order |
| `KnowledgeGraph.CleanKeywords` | main.js:174 | the cleaned list is no longer than the flat list, and each entry is non-empty and upper-case |
| `KnowledgeGraph.CleanKeywordsAppend` | main.js:174 | cleaning works entry by entry: a concatenation cleans to the concatenation of the cleanings |
| `KnowledgeGraph.CleanKeywordsOne` | main.js:174 | a falsy entry is dropped and any other is upper-cased |
| `KnowledgeGraph.BranchWordsLength` | main.js:157-171 | the branches contribute one entry each plus one per leaf |
| `KnowledgeGraph.Flattened` | main.js:152-171 | the list starts with the center and has one entry for it, one per branch and one per leaf; `KnowledgeGraph.FlattenGraph` is the loop that builds it |
| `KnowledgeGraph.KeywordCountBound` | main.js:152-174 | the flat list has 1 + #branches + #leaves entries, and the cleaned list at most that many |
| `KnowledgeGraph.BranchWordsAppend` | main.js:158 | flattening runs branch by branch: concatenated branch lists flatten to the concatenated lists |
| `KnowledgeGraph.OneBranch` | main.js:160-168 | one branch contributes its word and then its leaves' words |
| `KnowledgeGraph.WorkOfficeExample` | main.js:151-174 | center WORK with branch OFFICE and leaves `{text:"DESK"}` and "CHAIR" shows WORK, OFFICE, DESK, CHAIR |
| `KnowledgeGraph.UpperWordKept` | main.js:174 | a non-empty word with no lower-case letter is kept as it is |
| `KnowledgeGraph.FakeBranchesClean` | main.js:184 | the stand-in branches, flattened and cleaned, give the cleaned keyword list |
| `KnowledgeGraph.FakeGraph` | main.js:182-185 | the center is the first keyword (absent for an empty list), and branch k is the label-only, leafless branch of keyword k + 1 |
| `KnowledgeGraph.FakeGraphKeepsKeywords` | main.js:180-187 | the stand-in graph built from a flat keyword list, flattened and cleaned by the flattener, gives exactly that list's cleaned keywords, nothing lost or reordered |
| `Moods.MoodAfterReply` | main.js:189 | a mood that is one of the eight keys (GLITCH included) is taken over; any other or absent mood gives NEUTRAL; the only other possible result is an inherited property name passed through |
| `Moods.MoodStaysInClosedSet` | main.js:8-17 | outside the inherited names the current mood is always one of the eight keys |
| `Moods.UnknownMoodIsNeutral` | main.js:189 | an unknown mood such as EXCITED gives NEUTRAL |
| `Moods.InheritedNamePassesLookup` | main.js:189 | "toString" is not a key, yet it becomes the mood |
| `Globals.GetItem` | main.js:77-78 | `getItem` yields the stored string exactly when the name is stored |
| `Globals.Window.Load` | main.js:5-33 | at load the key is read from storage (or ""), the history is empty, the mood is NEUTRAL and no flag is set |
| `Config.CheckAuth` | main.js:72-96 | KEY exactly when no truthy key is stored, SHEET exactly when a key but no truthy URL is stored, READY exactly when both are |
| `Config.KeyAccepted` | main.js:100 | at least ten characters before trimming and a "sk-" prefix; `Config.AcceptedKeyAdvances` and `Config.RejectedKeyChangesNothing` give both outcomes |
| `Config.ConfigReply` | main.js:100-110 | the message `saveConfig` speaks for each step and outcome; `Config.SaveConfig` returns it |
| `Config.SavedStore` | main.js:98-112 | a key shorter than ten characters or without "sk-" changes nothing; an accepted key is stored trimmed; "SKIP" is stored verbatim and any other URL trimmed |
| `Config.SaveConfig` | main.js:98-114 | the method writes exactly that store, sets `USER_API_KEY` to the trimmed key when accepted, and speaks the matching message |
| `Config.TrimKeepsPrefix` | main.js:100-101 | trimming a text that starts with a non-space prefix keeps the prefix |
| `Config.AcceptedKeyAdvances` | main.js:100-102 | an accepted key is stored trimmed, still starts with "sk-", and moves the intake past KEY |
| `Config.RejectedKeyChangesNothing` | main.js:100 | a rejected key leaves the store and the intake state unchanged |
| `Config.SkipCompletesIntake` | main.js:105-107 | "SKIP" is stored verbatim and completes the intake |
| `Config.BlankUrlKeepsAsking` | main.js:108-110 | a URL made only of white space is stored as "" and the intake stays at SHEET |
| `Memory.TurnLine` | memory.js:9 | a line is "USER: " or "ASSISTANT: " followed by the content, with an absent content printed as "undefined" |
| `Memory.Lines` | memory.js:9 | one line per turn, in history order |
| `Memory.HistoryText` | memory.js:9 | the history text is empty exactly when the history is empty |
| `Memory.HistoryTextLines` | memory.js:9 | when no content holds a line break, splitting the history text at line breaks gives back exactly one line per turn, in order |
| `Memory.LongWords` | memory.js:73 | the kept words are exactly the words longer than three characters |
| `Memory.LongWordsAppend` | memory.js:73 | the filter works word by word, keeping order and repeats: a concatenation keeps the kept words of each part, in order, and a single word is kept exactly when it is longer than three characters |
| `Memory.FallbackKeywords` | memory.js:73 | the long words joined by ", "; `Memory.FallbackReachesRetrieval` shows the retrieval split gets them back |
| `Memory.SynthStep` | memory.js:56-74 | a failed synthesiser call or an unparseable decision keeps the defaults with the fallback keywords; no `choices` keeps the defaults; a parsed object becomes the decision as it is; a `null` decision makes the call throw |
| `Memory.RetrievalGuard` | memory.js:77 | a truthy URL and either truthy search keywords or a text longer than three characters; `Memory.RetrievalSent` sends the keywords exactly when it holds |
| `Memory.SearchQuery` | memory.js:78 | the query is the synthesiser's keywords when truthy, else the user's text |
| `Memory.RetrievalKeywords` | memory.js:82 | one keyword more than there are commas, none holding a comma, each the trimmed piece at its position |
| `Memory.MemoriesOf` | memory.js:89-97 | a failed or unparseable reply, or a parsed one without a `memories` list, gives no memories; any memories come from a parsed list |
| `Memory.MemoryContext` | memory.js:97-101 | the context is empty exactly when there are no memories |
| `Memory.MemoryContextLines` | memory.js:99 | when no memory holds a line break, the context reads back as "MEMORIES FOUND:" followed by one line per memory |
| `Memory.StoreGuard` | memory.js:155 | a truthy URL and a truthy fact other than "null"; `Memory.StoreSent` stores exactly when it holds and the final request resolved |
| `Memory.Finish` | memory.js:169-177 | the call rejects exactly when the request or its body fails or `choices[0]` has no message; otherwise `detected_entities` is the synthesiser's entities and only `choices[0]`'s content is replaced by its fence-free cleaning |
| `Memory.Retrieve` | memory.js:77-104 | keywords are sent exactly when the guard holds; the context and `lastRetrievedMemories` change only when memories were found |
| `Memory.ChatResultOf` | memory.js:68-177 | the call rejects on a null decision and on a failed generation request or body |
| `Memory.MemoriesAfter` | memory.js:97-102 | without a truthy URL `lastRetrievedMemories` keeps its value |
| `Memory.RetrievalSent` | memory.js:77-87 | the retrieval request goes out exactly when the decision is not null and the guard holds, with the split keywords, and only with a truthy URL |
| `Memory.GenerationSent` | memory.js:77-152 | the final request goes out exactly when the decision is not null or the URL is falsy, with the history text and the user's text; its context is the retrieved block, and "" for a null decision |
| `Memory.StoreSent` | memory.js:155-167 | a store request goes out exactly when the decision is not null, the generation request resolved, and the URL and the fact are truthy with the fact not "null" |
| `Memory.ProcessMemoryChat` | memory.js:5-178 | the method's result, its requests and `lastRetrievedMemories` are exactly the ones above |
| `Memory.CommaSplitPieces` | memory.js:82 | splitting a ", "-joined list at commas gives the first word and each later word with a blank in front |
| `Memory.CommaListRoundTrip` | memory.js:73-82 | a list of plain words joined by ", " reaches the memory sheet as exactly that list |
| `Memory.FallbackReachesRetrieval` | memory.js:73-82 | after a synthesiser failure, a comma-free text with single-blank separators queries the sheet with exactly its words longer than three characters, in order |
| `Memory.FailedSynthStoresNothing` | memory.js:56 | after a synthesiser failure `new_fact` stays null, so nothing is stored, and the entities stay "" |
| `Memory.NullDecisionWithoutUrl` | memory.js:77-176 | a null decision without a URL still sends the final request with an empty context and no store request, and the call rejects; with any truthy URL no retrieval, final or store request is sent |
| `Memory.SkipPassesBothGuards` | memory.js:77 | the "SKIP" URL passes the retrieval and store guards whenever their other conditions hold |
| `Companion.LastTen` | main.js:126 | the cap keeps the last min(n, 10) entries, in order |
| `Companion.PushUser` | main.js:123-126 | after the user push and the cap the history has at most ten entries and ends with the user's entry |
| `Companion.PushUserTurn` | main.js:123-126 | the method performs that push and cap |
| `Companion.ConverseLength` | main.js:123-148 | n successful turns from an empty history leave 2n entries for n ≤ 5 and 11 afterwards |
| `Companion.ConverseBound` | main.js:123-148 | starting from at most eleven entries the history never exceeds eleven |
| `Companion.ConverseIsSuffix` | main.js:123-148 | the history is always a trailing run of everything said, in order |
| `Companion.ReplyOf` | main.js:129-146 | a rejected pipeline or a response without `choices[0]` gives no reply |
| `Companion.ParserSeesOneCleaning` | main.js:137-146 | the parser receives exactly memory.js's cleaning of the content: the inline copy adds nothing |
| `Companion.DisplayFor` | main.js:151-187 | a graph with a truthy center is shown with its flattened, cleaned keywords; otherwise a flat keyword list, when present, is shown as given with its stand-in graph, and nothing is shown exactly when there is neither |
| `Companion.GraphKeywordsBounded` | main.js:174 | the floated keywords are non-empty, upper-case, and no more than the graph has nodes |
| `Companion.FailedTurnKeepsUserEntry` | main.js:123-126 | a failed turn leaves the user's entry last and at most ten entries |
| `Companion.TurnBoundsHistory` | main.js:123-148 | after any turn the history has at most eleven entries and ends with the user's entry, followed by the assistant's when the turn succeeded |
| `Companion.HistoryAfter` | main.js:123-148 | after a failed turn the history is the last min(n, 10) entries of the history with the user entry pushed; after a reply it is those plus the assistant entry, a suffix of the full transcript either way |
| `Companion.MoodAfterTurn` | main.js:189-207 | a failed turn gives WARNING, and the mood is always a `MOOD_AUDIO` key or an inherited name the reply asked for |
| `Companion.OutcomeFor` | main.js:189-207 | a turn that ran fails exactly when there is no reply, and otherwise speaks the reply's response and shows its display |
| `Companion.HandleChat` | main.js:116-209 | without a key nothing changes; otherwise the history, the mood (WARNING on failure), `isThinking` and `lastRetrievedMemories` are as specified and the outcome is the reply's speech and display or a failure |
| `Companion.AwaitReply` | main.js:129-146 | the reply is what the pipeline and the parse yield |
| `Companion.ApplyReply` | main.js:148-191 | the assistant entry is appended, the mood follows the reply and thinking ends |
| `Companion.ShowReply` | main.js:151-187 | the display step shows what the reply asks for |
| `Companion.ErrorTimerFires` | main.js:69 | three seconds after a failure the mood returns to NEUTRAL |
| `Companion.IsGarbage` | main.js:223 | longer than six characters, and either without a vowel or with four equal characters in a row; the three lemmas below pin it down |
| `Companion.ShortTextIsNotGarbage` | main.js:223 | no text of six characters or fewer is garbage |
| `Companion.LongRunIsGarbage` | main.js:223 | seven or more copies of any one character are garbage, through the repeat test or, for a line terminator, the vowel test |
| `Companion.VowelFreeIsGarbage` | main.js:223 | a text longer than six characters with no vowel is garbage |
| `Companion.GarbageExamples` | main.js:223 | "aaaaaaa" and "xyzxyzx" are garbage; "xyz" and "/hello there" are not |
| `Companion.Route` | main.js:211-240 | empty input is ignored; KEY/SHEET intake comes first; then the garbage test; then the `/` prefix, whose rest is spoken; everything else is a chat turn |
| `Companion.IntakeFirst` | main.js:219-221 | during the intake every non-empty line is taken as the key or the URL |
| `Companion.GarbageBeforeCommand` | main.js:223-235 | "/aaaaaaa" glitches instead of being spoken |
| `Companion.CommandIsSpoken` | main.js:235-236 | "/hello there" speaks exactly "hello there" and starts no chat |
| `Companion.HandleInput` | main.js:211-242 | the action follows the routing. Empty input and a command change nothing. The intake writes the store and, for an accepted key, `USER_API_KEY`, and nothing else. Garbage sets only the glitch mode and the mood. A chat turn is `handleChat`, which leaves the configuration and the glitch mode alone. The line spoken later is the glitch line for garbage and the command's text for a command |
| `Companion.DelayedSpeech` | main.js:229-236 | a timer speaks the glitch line after garbage and the text after the `/` after a command, and nothing after any other action |
| `Companion.GlitchTimerFires` | main.js:231 | when the glitch ends the glitch mode is off and the mood is NEUTRAL |

## Left out

- Network calls: the `fetch` calls to OpenRouter and to the Apps Script webhook, their
  headers and model name, and `console` logging. Their results are inputs
  (`Memory.Network`). In the model the memory sheet's reply does not depend on the
  keywords sent.
- Parsing: `JSON.parse` and `Response.json()` are inputs too. Parsed fields are strings
  or absent. The synthesiser's `null` fields are read as absent (`Memory.SynthData`),
  so one difference at memory.js:160-165 is not modelled: `JSON.stringify` keeps
  `"entities": null` in the store request but drops an undefined field.
  - A field of another JSON type is not represented. This covers a number, an array in
    a string field, a non-string keyword, a `branches` value that is not an array, and
    a `null` leaf, on which `leaf.text` would throw.
  - A truthy non-array `leaves` is represented as absent, which is how the flattener
    treats it.
- The prompt templates: only the values interpolated into the final prompt are kept
  (`Memory.GenerationRequest`). The synthesiser prompt is not modelled.
- DOM and media:
  - `addToHistory`, `toggleHistory`;
  - the placeholder and button texts set by `checkAuth`, `handleChat` and `onload`;
  - `updateKeywords` and `buildKnowledgeGraph`, which the model represents by
    `Companion.Display`;
  - `spawnFoodText`, which has no counterpart in the model (see "Display calls");
  - audio initialisation, the `fShift`/`speed` numbers of `MOOD_AUDIO`, and `PALETTES`.
- Timing and concurrency:
  - `handleChat` is modelled as running to completion in one step, and the disabling
    of the send button is not modelled;
  - the timers are separate methods that the environment may call at any later point:
    `Companion.ErrorTimerFires` and `Companion.GlitchTimerFires`;
  - delayed speech is not a separate event. A scripted line's text is carried by
    `Action.Script`, and a reply's text by `TurnOutcome.Answered`, spoken after the
    reveal watchdog. The glitch line and a command's text are the `later` result of
    `Companion.HandleInput` (`Companion.DelayedSpeech`).
- Js.ToUpper: only ASCII letters are upper-cased. JavaScript's full Unicode case
  mapping (for example "ß" to "SS") is not modelled.
- Length checks: text length counts characters, not UTF-16 code units, so the checks
  differ from JavaScript for characters outside the Basic Multilingual Plane. This
  affects the garbage test, the key-length test, the retrieval guard and the
  long-word filter.
- The repeat test: `/(.)\1{3,}/` has no `u` flag, so JavaScript runs it over UTF-16 code
  units, while the model runs it over characters. Four equal characters outside the Basic
  Multilingual Plane form a run in the model but not in JavaScript. For example,
  "abcd😀😀😀😀" is garbage in the model but not in main.js.
- Display calls: `window.updateKeywords` and `window.buildKnowledgeGraph` are taken to
  exist and to return normally. main.js:186 calls `buildKnowledgeGraph` without the guard
  of main.js:176. If it is missing, or either call throws, the turn fails after the
  assistant entry was pushed: the entry stays and the mood becomes WARNING. The model has
  no such failure after the push.
  `window.spawnFoodText` is likewise taken to exist and to return normally: main.js:228
  and main.js:234 call it without a guard on every routed input that is not intake. If
  it threw after garbage, `glitchMode` and GLITCH would stay set and the revert timer
  would never be scheduled; on the other branch no command would be spoken and
  `handleChat` would not run. `Companion.HandleInput` has no such failure.
- `Config.SaveConfig`: the final `checkAuth()` call only updates the UI, and its
  answer is `Config.CheckAuth` of the new store.

