/** The JSON sanitiser: strips markdown code fences from a model reply and cuts out the
    span between the first `{` and the last `}`. Two copies exist: `cleanJSON` in
    memory.js and an inline copy in main.js that differs when no brace pair is found. */
module Sanitizer {
  import opened Js

  /** `text.replace(/```json/g, "").replace(/```/g, "")`: no fence is left, and a text
      without fences comes back unchanged. */
  function StripFences(text: string): (r: string)
    ensures !Occurs(r, Fence)
    ensures !Occurs(text, Fence) ==> r == text
  {
    var once := ReplaceAll(text, "```json", "");
    FenceRemovalLeavesNone(once);
    LongerFenceHoldsFence(text);
    ReplaceAll(once, Fence, "")
  }

  /** Both braces occur in `t`. */
  predicate HasBraces(t: string) {
    '{' in t && '}' in t
  }

  /** `t.substring(t.indexOf('{'), t.lastIndexOf('}') + 1)`. When the first `{` precedes
      the last `}` this is exactly that inclusive span; otherwise `substring` swaps its
      arguments and yields the text strictly between the last `}` and the first `{`,
      which holds no brace at all. */
  function BraceSpan(t: string): (r: string)
    requires HasBraces(t)
    ensures var fb, lb := IndexOf(t, '{'), LastIndexOf(t, '}');
            && (fb < lb ==> r == t[fb..lb + 1] && r[0] == '{' && r[|r| - 1] == '}')
            && (lb < fb ==> r == t[lb + 1..fb] && '{' !in r && '}' !in r)
    ensures |r| <= |t|
    ensures Occurs(r, Fence) ==> Occurs(t, Fence)
  {
    var fb, lb := IndexOf(t, '{'), LastIndexOf(t, '}');
    if fb < lb then
      OccursInSlice(t, Fence, fb, lb + 1);
      Substring(t, fb, lb + 1)
    else
      OccursInSlice(t, Fence, lb + 1, fb);
      var r := Substring(t, fb, lb + 1);
      assert forall k :: 0 <= k < |r| ==> r[k] == t[lb + 1 + k];
      r
  }

  /** `cleanJSON(text)` of memory.js: a falsy input gives "{}"; otherwise the fences are
      stripped and, when both braces remain, the brace span is cut out, else the
      stripped text is returned. The result never holds a fence. */
  function CleanJSON(text: Option<string>): (r: string)
    ensures !Truthy(text) ==> r == "{}"
    ensures Truthy(text) && !HasBraces(StripFences(text.value)) ==> r == StripFences(text.value)
    ensures Truthy(text) && HasBraces(StripFences(text.value)) ==> r == BraceSpan(StripFences(text.value))
    ensures !Occurs(r, Fence)
  {
    if !Truthy(text) then
      assert forall i: nat :: !OccursAt("{}", Fence, i);
      "{}"
    else
      var t := StripFences(text.value);
      if HasBraces(t) then BraceSpan(t) else t
  }

  /** The inline copy in main.js: the same stripping and brace span, but when a brace is
      missing the ORIGINAL text is kept, fences and all. */
  function InlineClean(rawText: string): (r: string)
    ensures HasBraces(StripFences(rawText)) ==> r == BraceSpan(StripFences(rawText))
    ensures !HasBraces(StripFences(rawText)) ==> r == rawText
  {
    var cleanRaw := StripFences(rawText);
    if HasBraces(cleanRaw) then BraceSpan(cleanRaw) else rawText
  }

  /** A fence-free text that starts with `{` and ends with `}` is its own brace span. */
  lemma SpanIsFixed(y: string)
    requires y != [] && y[0] == '{' && y[|y| - 1] == '}' && !Occurs(y, Fence)
    ensures StripFences(y) == y && HasBraces(y) && BraceSpan(y) == y
  {
    assert y[0] in y && y[|y| - 1] in y;
    assert IndexOf(y, '{') == 0;
    assert LastIndexOf(y, '}') == |y| - 1;
    assert y[0..|y|] == y;
  }

  /** Whatever `cleanJSON` returns is either "{}", a fence-free brace span, or fence-free
      text holding at most one kind of brace. */
  lemma CleanShapes(x: Option<string>)
    ensures var y := CleanJSON(x);
            || (y != [] && y[0] == '{' && y[|y| - 1] == '}')
            || !HasBraces(y)
  {
    if Truthy(x) {
      var t := StripFences(x.value);
      if HasBraces(t) {
        var fb, lb := IndexOf(t, '{'), LastIndexOf(t, '}');
        assert fb != lb by { assert t[fb] != t[lb]; }
      }
    }
  }

  /** Re-cleaning with main.js's inline copy what memory.js already cleaned changes
      nothing, whatever the reply was. */
  lemma InlineCleanKeepsCleaned(x: Option<string>)
    ensures InlineClean(CleanJSON(x)) == CleanJSON(x)
  {
    var y := CleanJSON(x);
    CleanShapes(x);
    if y != [] && y[0] == '{' && y[|y| - 1] == '}' {
      SpanIsFixed(y);
    } else {
      assert StripFences(y) == y;
    }
  }

  /** `cleanJSON` is idempotent on every input whose cleaning is non-empty. */
  lemma CleanJSONIdempotent(x: Option<string>)
    requires CleanJSON(x) != ""
    ensures CleanJSON(Some(CleanJSON(x))) == CleanJSON(x)
  {
    var y := CleanJSON(x);
    CleanShapes(x);
    if y[0] == '{' && y[|y| - 1] == '}' {
      SpanIsFixed(y);
    } else {
      assert StripFences(y) == y;
    }
  }

  /** The exception: a reply made only of a fence cleans to "", and "" is falsy, so
      cleaning again gives "{}". */
  lemma EmptyCleaningIsNotStable()
    ensures CleanJSON(Some("```")) == ""
    ensures CleanJSON(Some("")) == "{}"
  {
    assert !OccursAt("```", "```json", 0);
    assert forall i: nat :: i > 0 ==> !OccursAt("```", "```json", i);
    assert ReplaceAll("```", "```json", "") == "```";
    assert ReplaceAll("```", Fence, "") == "" + ReplaceAll("", Fence, "");
  }

  /** A reply that wraps one object in prose holding no `{` before it and no `}` after
      it is cut down to exactly that object by both copies. */
  lemma ProseAroundObject(pre: string, body: string, post: string)
    requires body != [] && body[0] == '{' && body[|body| - 1] == '}'
    requires '{' !in pre && '}' !in post
    requires !Occurs(pre + body + post, Fence)
    ensures CleanJSON(Some(pre + body + post)) == body
    ensures InlineClean(pre + body + post) == body
  {
    var t := pre + body + post;
    assert t[|pre|] == '{' && t[|pre| + |body| - 1] == '}';
    assert forall k :: 0 <= k < |pre| ==> t[k] == pre[k];
    assert forall k :: |pre| + |body| <= k < |t| ==> t[k] == post[k - |pre| - |body|];
    assert IndexOf(t, '{') == |pre|;
    assert LastIndexOf(t, '}') == |pre| + |body| - 1;
    assert t[|pre|..|pre| + |body|] == body;
  }

  /** A ```json-fenced object inside prose, with no backtick before the closing fence, no
      `{` before the object and no `}` after it, is cut down to exactly that object by
      both copies. */
  lemma FencedObjectInProse(pre: string, body: string, post: string)
    requires body != [] && body[0] == '{' && body[|body| - 1] == '}'
    requires '`' !in pre && '`' !in body
    requires '{' !in pre && '}' !in post
    ensures CleanJSON(Some(pre + "```json" + body + Fence + post)) == body
    ensures InlineClean(pre + "```json" + body + Fence + post) == body
  {
    var y := StripFencedProse(pre, body, post);
    ProseAroundObject(pre, body, y);
  }

  /** Stripping such a reply keeps the prose before the object and the object, and leaves
      after them only what remains of the prose after the fence. */
  lemma StripFencedProse(pre: string, body: string, post: string) returns (y: string)
    requires '`' !in pre && '`' !in body && '}' !in post
    ensures StripFences(pre + "```json" + body + Fence + post) == pre + body + y
    ensures '}' !in y
  {
    var x := DropOpeningFence(pre, body, Fence + post);
    assert pre + "```json" + body + Fence + post == pre + "```json" + body + (Fence + post);
    y := ReplaceAll(x, Fence, "");
    assert ReplaceAll(pre + body + x, Fence, "") == pre + body + y by {
      ReplaceAfterPlainPrefix(pre + body, x, Fence, "");
    }
    assert '}' !in y by {
      DeletionAddsNothing(Fence + post, "```json", '}');
      DeletionAddsNothing(x, Fence, '}');
    }
  }

  /** The first replacement removes the opening ```json and passes over the prose and the
      object before it. */
  lemma DropOpeningFence(pre: string, body: string, tail: string) returns (x: string)
    requires '`' !in pre && '`' !in body
    ensures x == ReplaceAll(tail, "```json", "")
    ensures ReplaceAll(pre + "```json" + body + tail, "```json", "") == pre + body + x
  {
    var open := "```json";
    x := ReplaceAll(tail, open, "");
    assert open[0] == '`';
    DeleteBetweenPlain(pre, open, body, tail);
  }

  /** `substring` swaps its arguments: when the last `}` precedes the first `{`, both
      copies return the text strictly between them. */
  lemma BracesSwapped(a: string, m: string, b: string)
    requires '`' !in a + "}" + m + "{" + b
    requires '{' !in a && '{' !in m && '}' !in m && '}' !in b
    ensures CleanJSON(Some(a + "}" + m + "{" + b)) == m
    ensures InlineClean(a + "}" + m + "{" + b) == m
  {
    NoBacktickNoChange(a + "}" + m + "{" + b);
    SwappedSpan(a, m, b);
  }

  /** The brace span of such a text is the part between the braces. */
  lemma SwappedSpan(a: string, m: string, b: string)
    requires '{' !in a && '{' !in m && '}' !in m && '}' !in b
    ensures HasBraces(a + "}" + m + "{" + b)
    ensures BraceSpan(a + "}" + m + "{" + b) == m
  {
    var t := a + "}" + m + "{" + b;
    var fb, lb := |a| + 1 + |m|, |a|;
    assert t == (a + "}" + m) + ['{'] + b;
    IndexOfAfterPrefix(a + "}" + m, '{', b);
    assert t == a + ['}'] + (m + "{" + b);
    LastIndexOfBeforeSuffix(a, '}', m + "{" + b);
    assert t[lb] == '}' && t[fb] == '{';
    assert t[lb + 1..fb] == m;
  }

  /** The example "} x {" cleans to " x ". */
  lemma SwappedBraces()
    ensures CleanJSON(Some("} x {")) == " x "
  {
    BracesSwapped("", " x ", "");
    assert "" + "}" + " x " + "{" + "" == "} x {";
  }

  /** A text without backticks passes the fence stripping unchanged. */
  lemma NoBacktickNoChange(s: string)
    requires '`' !in s
    ensures StripFences(s) == s
  {
    OccurrenceNeedsHead(s, "```json");
    OccurrenceNeedsHead(s, Fence);
  }

  /** The two copies part ways when a fenced reply holds no brace: memory.js returns the
      text inside the fence, main.js keeps the fences. */
  lemma CopiesDifferWithoutBraces(u: string)
    requires '`' !in u && '{' !in u
    ensures CleanJSON(Some("```json" + u + Fence)) == u
    ensures InlineClean("```json" + u + Fence) == "```json" + u + Fence
  {
    var s := "```json" + u + Fence;
    assert s[..7] == "```json";
    assert s[7..] == u + Fence;
    assert ReplaceAll(Fence, "```json", "") == Fence by {
      assert forall i: nat :: !OccursAt(Fence, "```json", i);
    }
    ReplaceAfterPlainPrefix(u, Fence, "```json", "");
    assert ReplaceAll(s, "```json", "") == u + Fence;
    ReplaceAfterPlainPrefix(u, Fence, Fence, "");
    assert ReplaceAll(Fence, Fence, "") == "";
    assert StripFences(s) == u;
  }

  /** The example "```json hi```": " hi" from memory.js, the whole reply from main.js. */
  lemma CopiesDifferExample()
    ensures CleanJSON(Some("```json hi```")) == " hi"
    ensures InlineClean("```json hi```") == "```json hi```"
  {
    CopiesDifferWithoutBraces(" hi");
    assert "```json" + " hi" + Fence == "```json hi```";
  }
}
