/** JavaScript string and array primitives the companion relies on, over Dafny strings.
    Each function follows the behaviour of the ECMAScript built-in it is named after. */
module Js {

  datatype Option<+T> = None | Some(value: T)

  /** JavaScript truthiness of a value that is a string, `undefined` or `null` (`None`):
      only a non-empty string is truthy. */
  predicate Truthy(v: Option<string>) {
    v.Some? && v.value != ""
  }

  // ---------------------------------------------------------------------------
  // Searching: indexOf, lastIndexOf, substring, occurrences of a pattern
  // ---------------------------------------------------------------------------

  /** `s.indexOf(c)` for a one-character needle: the first position of `c`, or -1. */
  function IndexOf(s: string, c: char): (r: int)
    ensures -1 <= r < |s|
    ensures r == -1 <==> c !in s
    ensures 0 <= r ==> s[r] == c && forall k :: 0 <= k < r ==> s[k] != c
  {
    if s == [] then -1
    else if s[0] == c then 0
    else
      var k := IndexOf(s[1..], c);
      if k == -1 then -1 else k + 1
  }

  /** `s.lastIndexOf(c)` for a one-character needle: the last position of `c`, or -1. */
  function LastIndexOf(s: string, c: char): (r: int)
    ensures -1 <= r < |s|
    ensures r == -1 <==> c !in s
    ensures 0 <= r ==> s[r] == c && forall k :: r < k < |s| ==> s[k] != c
  {
    if s == [] then -1
    else if s[|s| - 1] == c then |s| - 1
    else LastIndexOf(s[..|s| - 1], c)
  }

  /** How `substring` clamps an index into `[0, n]`. */
  function Clamp(i: int, n: nat): (r: nat)
    ensures r <= n
    ensures 0 <= i <= n ==> r == i
  {
    if i < 0 then 0 else if i > n then n else i
  }

  /** `s.substring(start, end)`: both indices are clamped to the string, and when the
      start lies after the end the two are swapped. */
  function Substring(s: string, start: int, end: int): (r: string)
    ensures 0 <= start <= end <= |s| ==> r == s[start..end]
    ensures 0 <= end <= start <= |s| ==> r == s[end..start]
  {
    var a, b := Clamp(start, |s|), Clamp(end, |s|);
    if a <= b then s[a..b] else s[b..a]
  }

  /** `pat` occurs in `s` starting at position `i`. */
  predicate OccursAt(s: string, pat: string, i: nat) {
    i + |pat| <= |s| && s[i..i + |pat|] == pat
  }

  /** `s.includes(pat)`. */
  ghost predicate Occurs(s: string, pat: string) {
    exists i: nat :: OccursAt(s, pat, i)
  }

  lemma OccursInSlice(s: string, pat: string, a: nat, b: nat)
    requires a <= b <= |s|
    ensures Occurs(s[a..b], pat) ==> Occurs(s, pat)
  {
    if Occurs(s[a..b], pat) {
      var i: nat :| OccursAt(s[a..b], pat, i);
      var piece := s[a..b][i..i + |pat|];
      assert |piece| == |pat|;
      forall k | 0 <= k < |pat| ensures piece[k] == s[a + i + k] { }
      assert s[a + i..a + i + |pat|] == piece;
      assert OccursAt(s, pat, a + i);
    }
  }

  /** A string holding "```json" holds "```". */
  lemma LongerFenceHoldsFence(s: string)
    ensures Occurs(s, "```json") ==> Occurs(s, "```")
  {
    if Occurs(s, "```json") {
      var i: nat :| OccursAt(s, "```json", i);
      assert s[i..i + 3] == s[i..i + 7][..3];
      assert OccursAt(s, "```", i);
    }
  }

  // ---------------------------------------------------------------------------
  // replace(/pat/g, rep) for a pattern without regular-expression metacharacters
  // ---------------------------------------------------------------------------

  /** `s.replace(/pat/g, rep)` for a literal pattern: occurrences are found from left to
      right and do not overlap; the scan resumes just after each replaced occurrence. */
  function ReplaceAll(s: string, pat: string, rep: string): (r: string)
    requires pat != ""
    ensures !Occurs(s, pat) ==> r == s
    decreases |s|
  {
    if |pat| <= |s| && s[..|pat|] == pat then
      assert OccursAt(s, pat, 0);
      rep + ReplaceAll(s[|pat|..], pat, rep)
    else if s == [] then
      []
    else
      OccursInSlice(s, pat, 1, |s|);
      assert s[1..|s|] == s[1..];
      assert s == [s[0]] + s[1..];
      [s[0]] + ReplaceAll(s[1..], pat, rep)
  }

  const Fence := "```"

  /** An occurrence of a fence in `[c] + t` starts at `c` or lies within `t`. */
  lemma FenceInCons(c: char, t: string)
    ensures Occurs([c] + t, Fence) ==>
              (c == '`' && |t| >= 2 && t[0] == '`' && t[1] == '`') || Occurs(t, Fence)
  {
    if Occurs([c] + t, Fence) {
      var i: nat :| OccursAt([c] + t, Fence, i);
      if i == 0 {
        var w := [c] + t;
        assert w[..3] == Fence;
        assert w[0] == '`' && w[1] == '`' && w[2] == '`';
        assert |t| >= 2 && w[1] == t[0] && w[2] == t[1];
      } else {
        assert ([c] + t)[i..i + 3] == t[i - 1..i + 2];
        assert OccursAt(t, Fence, i - 1);
      }
    }
  }

  /** Removing fences keeps a leading character that is not a backtick. */
  lemma FenceRemovalKeepsHead(s: string)
    requires s != [] && s[0] != '`'
    ensures var r := ReplaceAll(s, Fence, ""); r != [] && r[0] == s[0]
  {
    assert !(3 <= |s| && s[..3] == Fence) by {
      if 3 <= |s| { assert s[..3][0] == s[0]; }
    }
  }

  /** `s.replace(/```/g, "")` leaves no fence behind: every run of backticks shrinks to
      its length modulo three, so no three backticks can meet afterwards. */
  lemma {:induction false} FenceRemovalLeavesNone(s: string)
    ensures !Occurs(ReplaceAll(s, Fence, ""), Fence)
    decreases |s|
  {
    if 3 <= |s| && s[..3] == Fence {
      FenceRemovalLeavesNone(s[3..]);
      assert ReplaceAll(s, Fence, "") == ReplaceAll(s[3..], Fence, "");
    } else if s == [] {
    } else {
      var t := ReplaceAll(s[1..], Fence, "");
      assert ReplaceAll(s, Fence, "") == [s[0]] + t;
      FenceRemovalLeavesNone(s[1..]);
      FenceInCons(s[0], t);
      if s[0] == '`' && |s| >= 2 {
        if s[1] != '`' {
          FenceRemovalKeepsHead(s[1..]);
        } else {
          // s does not start with a fence, so a third backtick cannot follow
          assert |s| >= 3 ==> s[2] != '`' by {
            if |s| >= 3 { assert s[..3] == [s[0], s[1], s[2]]; }
          }
          var u := s[1..];
          assert !(3 <= |u| && u[..3] == Fence) by {
            if 3 <= |u| { assert u[..3][1] == s[2]; }
          }
          assert u[1..] == s[2..];
          assert t == [s[1]] + ReplaceAll(s[2..], Fence, "");
          if |s| >= 3 {
            FenceRemovalKeepsHead(s[2..]);
          }
        }
      }
    }
  }

  /** The first `c` of a text is the one after a `c`-free prefix. */
  lemma IndexOfAfterPrefix(pre: string, c: char, post: string)
    requires c !in pre
    ensures IndexOf(pre + [c] + post, c) == |pre|
  {
    var s := pre + [c] + post;
    var r := IndexOf(s, c);
    assert s[|pre|] == c;
    forall k | 0 <= k < |pre| ensures s[k] != c {
      assert s[k] == pre[k];
    }
  }

  /** The last `c` of a text is the one before a `c`-free suffix. */
  lemma {:induction false} LastIndexOfBeforeSuffix(pre: string, c: char, post: string)
    requires c !in post
    ensures LastIndexOf(pre + [c] + post, c) == |pre|
    decreases |post|
  {
    var s := pre + [c] + post;
    if post != [] {
      var n := |post| - 1;
      assert s[|s| - 1] == post[n] && post[n] in post;
      assert s[..|s| - 1] == pre + [c] + post[..n];
      assert c !in post[..n] by {
        forall k | 0 <= k < n ensures post[..n][k] != c {
          assert post[..n][k] == post[k] && post[k] in post;
        }
      }
      LastIndexOfBeforeSuffix(pre, c, post[..n]);
    }
  }

  /** A pattern whose first character is absent from `s` does not occur in it. */
  lemma OccurrenceNeedsHead(s: string, pat: string)
    requires pat != []
    ensures Occurs(s, pat) ==> pat[0] in s
  {
    if Occurs(s, pat) {
      var i: nat :| OccursAt(s, pat, i);
      assert s[i] == s[i..i + |pat|][0];
    }
  }

  /** Replacement passes over a prefix that holds no first character of the pattern. */
  lemma {:induction false} ReplaceAfterPlainPrefix(a: string, b: string, pat: string, rep: string)
    requires pat != [] && pat[0] !in a
    ensures ReplaceAll(a + b, pat, rep) == a + ReplaceAll(b, pat, rep)
    decreases |a|
  {
    if a != [] {
      var s := a + b;
      assert s[0] == a[0];
      assert !(|pat| <= |s| && s[..|pat|] == pat) by {
        if |pat| <= |s| { assert s[..|pat|][0] == a[0]; }
      }
      assert s[1..] == a[1..] + b;
      assert ReplaceAll(s, pat, rep) == [s[0]] + ReplaceAll(s[1..], pat, rep);
      ReplaceAfterPlainPrefix(a[1..], b, pat, rep);
      var tail := ReplaceAll(b, pat, rep);
      assert [a[0]] + (a[1..] + tail) == ([a[0]] + a[1..]) + tail;
      assert a == [a[0]] + a[1..];
    } else {
      assert a + b == b;
    }
  }

  /** Deleting a pattern whose first character occurs in neither `a` nor `b` removes one
      occurrence placed between them and carries on in what follows. */
  lemma DeleteBetweenPlain(a: string, pat: string, b: string, tail: string)
    requires pat != [] && pat[0] !in a && pat[0] !in b
    ensures ReplaceAll(a + pat + b + tail, pat, "") == a + b + ReplaceAll(tail, pat, "")
  {
    var rest := pat + (b + tail);
    assert ReplaceAll(rest, pat, "") == b + ReplaceAll(tail, pat, "") by {
      ReplaceAtHead(pat, b + tail, "");
      ReplaceAfterPlainPrefix(b, tail, pat, "");
    }
    assert a + pat + b + tail == a + rest;
    ReplaceAfterPlainPrefix(a, rest, pat, "");
  }

  /** An occurrence at the head is replaced, and the scan resumes right after it. */
  lemma ReplaceAtHead(pat: string, t: string, rep: string)
    requires pat != []
    ensures ReplaceAll(pat + t, pat, rep) == rep + ReplaceAll(t, pat, rep)
  {
    assert (pat + t)[..|pat|] == pat;
    assert (pat + t)[|pat|..] == t;
  }

  /** Replacing with "" only deletes: it brings in no character the text lacks. */
  lemma {:induction false} DeletionAddsNothing(s: string, pat: string, c: char)
    requires pat != [] && c !in s
    ensures c !in ReplaceAll(s, pat, "")
    decreases |s|
  {
    if |pat| <= |s| && s[..|pat|] == pat {
      assert c !in s[|pat|..] by {
        forall k | 0 <= k < |s| - |pat| ensures s[|pat|..][k] != c {
          assert s[|pat|..][k] == s[|pat| + k];
        }
      }
      DeletionAddsNothing(s[|pat|..], pat, c);
    } else if s != [] {
      assert c !in s[1..] by {
        forall k | 0 <= k < |s| - 1 ensures s[1..][k] != c {
          assert s[1..][k] == s[k + 1];
        }
      }
      DeletionAddsNothing(s[1..], pat, c);
    }
  }

  // ---------------------------------------------------------------------------
  // split, join, trim, toUpperCase, startsWith
  // ---------------------------------------------------------------------------

  /** The number of times `c` occurs in `s`. */
  function Count(s: string, c: char): nat {
    if s == [] then 0 else (if s[0] == c then 1 else 0) + Count(s[1..], c)
  }

  /** `parts.join(sep)`. */
  function Join(parts: seq<string>, sep: string): (r: string)
    ensures parts == [] ==> r == ""
    ensures parts != [] ==> StartsWith(r, parts[0])
    ensures forall k :: 0 <= k < |parts| ==> |parts[k]| <= |r|
  {
    if parts == [] then ""
    else if |parts| == 1 then parts[0]
    else parts[0] + sep + Join(parts[1..], sep)
  }

  /** Joining after appending one more part adds the separator and that part. */
  lemma {:induction false} JoinSnoc(parts: seq<string>, last: string, sep: string)
    requires parts != []
    ensures Join(parts + [last], sep) == Join(parts, sep) + sep + last
    decreases |parts|
  {
    if |parts| == 1 {
      assert (parts + [last])[1..] == [last];
    } else {
      assert (parts + [last])[1..] == parts[1..] + [last];
      JoinSnoc(parts[1..], last, sep);
    }
  }

  /** `s.split(sep)` for a one-character separator: the pieces between separators, one
      more than there are separators, none holding the separator, and joining them with
      the separator gives `s` back. */
  function Split(s: string, sep: char): (parts: seq<string>)
    ensures |parts| == Count(s, sep) + 1
    ensures forall k :: 0 <= k < |parts| ==> sep !in parts[k]
    ensures Join(parts, [sep]) == s
    decreases |s|
  {
    if s == [] then [""]
    else
      var rest := Split(s[1..], sep);
      if s[0] == sep then
        [""] + rest
      else
        var parts := [[s[0]] + rest[0]] + rest[1..];
        assert Join(parts, [sep]) == [s[0]] + Join(rest, [sep]) by {
          if |rest| > 1 {
            assert parts[1..] == rest[1..];
          }
        }
        assert s == [s[0]] + s[1..];
        parts
  }

  /** Splitting a separator-free piece followed by the separator starts a new piece. */
  lemma {:induction false} SplitAfterPiece(p: string, sep: char, rest: string)
    requires sep !in p
    ensures Split(p + [sep] + rest, sep) == [p] + Split(rest, sep)
    decreases |p|
  {
    var s := p + [sep] + rest;
    if p == [] {
      assert s[1..] == rest;
    } else {
      assert s[1..] == p[1..] + [sep] + rest;
      SplitAfterPiece(p[1..], sep, rest);
      var r := Split(s[1..], sep);
      assert r[0] == p[1..];
      assert [s[0]] + r[0] == p;
    }
  }

  /** `split` undoes `join` when no part holds the separator. */
  lemma {:induction false} SplitJoin(parts: seq<string>, sep: char)
    requires parts != []
    requires forall k :: 0 <= k < |parts| ==> sep !in parts[k]
    ensures Split(Join(parts, [sep]), sep) == parts
    decreases |parts|
  {
    if |parts| == 1 {
      SplitWhole(parts[0], sep);
    } else {
      SplitJoin(parts[1..], sep);
      SplitAfterPiece(parts[0], sep, Join(parts[1..], [sep]));
      assert parts == [parts[0]] + parts[1..];
    }
  }

  /** A string without the separator splits into itself alone. */
  lemma {:induction false} SplitWhole(s: string, sep: char)
    requires sep !in s
    ensures Split(s, sep) == [s]
    decreases |s|
  {
    if s != [] {
      SplitWhole(s[1..], sep);
    }
  }

  /** The white space and line terminators that `String.prototype.trim` removes. */
  predicate IsSpace(c: char) {
    c == ' ' || c == '\t' || c == '\n' || c == '\r' || c == '\U{000B}' || c == '\U{000C}'
    || c == '\U{00A0}' || c == '\U{1680}' || ('\U{2000}' <= c <= '\U{200A}')
    || c == '\U{2028}' || c == '\U{2029}' || c == '\U{202F}' || c == '\U{205F}'
    || c == '\U{3000}' || c == '\U{FEFF}'
  }

  /** Drops leading white space: the rest of `s` from its first non-space character. */
  function TrimStart(s: string): (r: string)
    ensures |r| <= |s| && r == s[|s| - |r|..]
    ensures forall k :: 0 <= k < |s| - |r| ==> IsSpace(s[k])
    ensures r == [] || !IsSpace(r[0])
  {
    if s != [] && IsSpace(s[0]) then TrimStart(s[1..]) else s
  }

  /** Drops trailing white space: `s` up to its last non-space character. */
  function TrimEnd(s: string): (r: string)
    ensures |r| <= |s| && r == s[..|r|]
    ensures forall k :: |r| <= k < |s| ==> IsSpace(s[k])
    ensures r == [] || !IsSpace(r[|r| - 1])
  {
    if s != [] && IsSpace(s[|s| - 1]) then TrimEnd(s[..|s| - 1]) else s
  }

  /** `s.trim()`. */
  function Trim(s: string): (r: string)
    ensures r == [] || (!IsSpace(r[0]) && !IsSpace(r[|r| - 1]))
    ensures r == [] <==> forall k :: 0 <= k < |s| ==> IsSpace(s[k])
  {
    TrimEnd(TrimStart(s))
  }

  /** Trimming keeps a string that neither starts nor ends with white space, and removes
      a single leading blank in front of one. */
  lemma TrimKeepsBareWord(w: string)
    requires w != [] && !IsSpace(w[0]) && !IsSpace(w[|w| - 1])
    ensures Trim(w) == w
    ensures Trim(" " + w) == w
  {
    assert (" " + w)[1..] == w;
  }

  /** `toUpperCase` on one character, for the ASCII letters. */
  function UpperChar(c: char): char {
    if 'a' <= c <= 'z' then (c as int - 32) as char else c
  }

  /** `s.toUpperCase()`, letter by letter. */
  function ToUpper(s: string): (r: string)
    ensures |r| == |s|
    ensures forall k :: 0 <= k < |s| ==> r[k] == UpperChar(s[k])
  {
    if s == [] then [] else [UpperChar(s[0])] + ToUpper(s[1..])
  }

  /** Upper-casing twice is upper-casing once. */
  lemma UpperIsIdempotent(s: string)
    ensures ToUpper(ToUpper(s)) == ToUpper(s)
  {
  }

  /** Upper-casing leaves a string without lower-case ASCII letters as it is. */
  lemma UpperKeepsUpperCase(s: string)
    requires forall k :: 0 <= k < |s| ==> !('a' <= s[k] <= 'z')
    ensures ToUpper(s) == s
  {
  }

  /** `s.startsWith(p)`. */
  predicate StartsWith(s: string, p: string) {
    |p| <= |s| && s[..|p|] == p
  }
}
