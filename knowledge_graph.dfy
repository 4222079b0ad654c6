/** The knowledge graph a model reply carries, and how main.js turns it into the flat,
    upper-cased keyword list shown as floating labels. */
module KnowledgeGraph {
  import opened Js

  /** A leaf is given either as a bare string or as an object whose `text` is read. */
  datatype Leaf = StringLeaf(word: string) | ObjectLeaf(text: Option<string>)

  /** A branch: its `label` (named `branchLabel`, as `label` is a Dafny keyword), the
      `text` read when the label is falsy, and `leaves` (`None`
      when absent or not an array, which the flattener skips). */
  datatype Branch = Branch(branchLabel: Option<string>, text: Option<string>, leaves: Option<seq<Leaf>>)

  /** The graph: a `center` and the `branches` list (`None` when absent). */
  datatype Graph = Graph(center: Option<string>, branches: Option<seq<Branch>>)

  // ---------------------------------------------------------------------------
  // What the flattener emits, as functions
  // ---------------------------------------------------------------------------

  /** `typeof leaf === 'object' ? leaf.text : leaf`. */
  function LeafWord(leaf: Leaf): (w: Option<string>)
    ensures leaf.StringLeaf? ==> w == Some(leaf.word)
    ensures leaf.ObjectLeaf? ==> w == leaf.text
    ensures w.None? ==> leaf.ObjectLeaf?
  {
    match leaf
    case StringLeaf(w) => Some(w)
    case ObjectLeaf(t) => t
  }

  /** `b.label || b.text`. */
  function BranchWord(b: Branch): (w: Option<string>)
    ensures Truthy(w) <==> Truthy(b.branchLabel) || Truthy(b.text)
    ensures Truthy(b.branchLabel) ==> w == b.branchLabel
    ensures !Truthy(b.branchLabel) ==> w == b.text
  {
    if Truthy(b.branchLabel) then b.branchLabel else b.text
  }

  function LeavesOf(b: Branch): seq<Leaf> {
    if b.leaves.Some? then b.leaves.value else []
  }

  function BranchesOf(g: Graph): seq<Branch> {
    if g.branches.Some? then g.branches.value else []
  }

  /** The words of the leaves, in order. */
  function LeafWords(leaves: seq<Leaf>): (r: seq<Option<string>>)
    ensures |r| == |leaves|
  {
    if leaves == [] then []
    else LeafWords(leaves[..|leaves| - 1]) + [LeafWord(leaves[|leaves| - 1])]
  }

  /** Each branch in order: its word, then the words of its leaves. */
  function BranchWords(bs: seq<Branch>): seq<Option<string>> {
    if bs == [] then []
    else
      var b := bs[|bs| - 1];
      BranchWords(bs[..|bs| - 1]) + [BranchWord(b)] + LeafWords(LeavesOf(b))
  }

  /** The depth-first list: the center, then every branch with its leaves. */
  function Flattened(g: Graph): (flat: seq<Option<string>>)
    ensures |flat| == 1 + |BranchesOf(g)| + TotalLeaves(BranchesOf(g))
    ensures flat[0] == g.center
  {
    BranchWordsLength(BranchesOf(g));
    [g.center] + BranchWords(BranchesOf(g))
  }

  /** The number of leaves over all branches. */
  function TotalLeaves(bs: seq<Branch>): nat {
    if bs == [] then 0 else TotalLeaves(bs[..|bs| - 1]) + |LeavesOf(bs[|bs| - 1])|
  }

  // ---------------------------------------------------------------------------
  // The forEach/push loops of main.js
  // ---------------------------------------------------------------------------

  /** Extending the branches handled by one adds that branch's word and leaves. */
  lemma BranchWordsStep(bs: seq<Branch>, i: nat)
    requires i < |bs|
    ensures BranchWords(bs[..i + 1]) == BranchWords(bs[..i]) + [BranchWord(bs[i])] + LeafWords(LeavesOf(bs[i]))
  {
    assert bs[..i + 1][..i] == bs[..i];
  }

  /** One pass of the branch loop keeps `flat` equal to the center and the branches so far. */
  lemma FlattenStep(center: Option<string>, bs: seq<Branch>, i: nat,
                    before: seq<Option<string>>, after: seq<Option<string>>)
    requires i < |bs|
    requires before == [center] + BranchWords(bs[..i])
    requires after == before + [BranchWord(bs[i])] + LeafWords(LeavesOf(bs[i]))
    ensures after == [center] + BranchWords(bs[..i + 1])
  {
    BranchWordsStep(bs, i);
  }

  /** Extending the leaves handled by one adds that leaf's word. */
  lemma LeafWordsStep(leaves: seq<Leaf>, j: nat)
    requires j < |leaves|
    ensures LeafWords(leaves[..j + 1]) == LeafWords(leaves[..j]) + [LeafWord(leaves[j])]
  {
    assert leaves[..j + 1][..j] == leaves[..j];
  }

  /** The inner `b.leaves.forEach`: pushes the word of every leaf, in order. */
  method PushLeafWords(flat: seq<Option<string>>, leaves: seq<Leaf>) returns (out: seq<Option<string>>)
    ensures out == flat + LeafWords(leaves)
  {
    out := flat;
    var j := 0;
    while j < |leaves|
      invariant 0 <= j <= |leaves|
      invariant out == flat + LeafWords(leaves[..j])
    {
      var leafText := match leaves[j] case StringLeaf(w) => Some(w) case ObjectLeaf(t) => t;
      LeafWordsStep(leaves, j);
      out := out + [leafText];
      j := j + 1;
    }
    assert leaves[..|leaves|] == leaves;
  }

  /** Builds `flatKeywords` by pushing the center, then for each branch its word and the
      words of its leaves. */
  method FlattenGraph(g: Graph) returns (flat: seq<Option<string>>)
    ensures flat == Flattened(g)
  {
    flat := [g.center];
    if g.branches.Some? {
      var bs := g.branches.value;
      var i := 0;
      while i < |bs|
        invariant 0 <= i <= |bs|
        invariant flat == [g.center] + BranchWords(bs[..i])
      {
        var b := bs[i];
        ghost var before := flat;
        var word := if Truthy(b.branchLabel) then b.branchLabel else b.text;
        flat := flat + [word];
        if b.leaves.Some? {
          flat := PushLeafWords(flat, b.leaves.value);
        }
        assert flat == before + [BranchWord(b)] + LeafWords(LeavesOf(b));
        FlattenStep(g.center, bs, i, before, flat);
        i := i + 1;
      }
      assert bs[..|bs|] == bs;
    }
  }

  // ---------------------------------------------------------------------------
  // Cleaning for display: filter(k => k).map(k => String(k).toUpperCase())
  // ---------------------------------------------------------------------------

  /** Drops every falsy entry and upper-cases the rest, keeping their order. Every entry
      of the result is non-empty and already upper-case. */
  function CleanKeywords(flat: seq<Option<string>>): (r: seq<string>)
    ensures |r| <= |flat|
    ensures forall k :: 0 <= k < |r| ==> r[k] != "" && ToUpper(r[k]) == r[k]
  {
    if flat == [] then []
    else
      var head := if Truthy(flat[0]) then [ToUpper(flat[0].value)] else [];
      UpperIsIdempotent(if flat[0].Some? then flat[0].value else "");
      head + CleanKeywords(flat[1..])
  }

  /** Cleaning works entry by entry: cleaning a concatenation concatenates the cleanings. */
  lemma {:induction false} CleanKeywordsAppend(a: seq<Option<string>>, b: seq<Option<string>>)
    ensures CleanKeywords(a + b) == CleanKeywords(a) + CleanKeywords(b)
    decreases |a|
  {
    if a == [] {
      assert a + b == b;
    } else {
      assert (a + b)[0] == a[0];
      assert (a + b)[1..] == a[1..] + b;
      CleanKeywordsAppend(a[1..], b);
    }
  }

  /** An entry is kept, upper-cased, exactly when it is truthy. */
  lemma CleanKeywordsOne(w: Option<string>)
    ensures CleanKeywords([w]) == if Truthy(w) then [ToUpper(w.value)] else []
  {
    assert [w][1..] == [];
  }

  // ---------------------------------------------------------------------------
  // Properties of the flattening
  // ---------------------------------------------------------------------------

  /** The flat list has one entry for the center, one per branch and one per leaf. */
  lemma {:induction false} BranchWordsLength(bs: seq<Branch>)
    ensures |BranchWords(bs)| == |bs| + TotalLeaves(bs)
    decreases |bs|
  {
    if bs != [] {
      BranchWordsLength(bs[..|bs| - 1]);
    }
  }

  /** The displayed keywords number at most 1 + #branches + total #leaves. */
  lemma KeywordCountBound(g: Graph)
    ensures |Flattened(g)| == 1 + |BranchesOf(g)| + TotalLeaves(BranchesOf(g))
    ensures |CleanKeywords(Flattened(g))| <= 1 + |BranchesOf(g)| + TotalLeaves(BranchesOf(g))
  {
    BranchWordsLength(BranchesOf(g));
  }

  /** Branches are flattened one after the other, in the order given. */
  lemma {:induction false} BranchWordsAppend(xs: seq<Branch>, ys: seq<Branch>)
    ensures BranchWords(xs + ys) == BranchWords(xs) + BranchWords(ys)
    decreases |ys|
  {
    if ys == [] {
      assert xs + ys == xs;
    } else {
      var zs := xs + ys;
      assert zs[..|zs| - 1] == xs + ys[..|ys| - 1];
      assert zs[|zs| - 1] == ys[|ys| - 1];
      BranchWordsAppend(xs, ys[..|ys| - 1]);
    }
  }

  /** One branch contributes its word followed by the words of its leaves. */
  lemma OneBranch(b: Branch)
    ensures BranchWords([b]) == [BranchWord(b)] + LeafWords(LeavesOf(b))
  {
    assert [b][..0] == [];
  }

  /** center WORK with one branch OFFICE whose leaves are {text: "DESK"} and "CHAIR" is
      shown as WORK, OFFICE, DESK, CHAIR. */
  lemma WorkOfficeExample()
    ensures CleanKeywords(Flattened(Graph(Some("WORK"),
              Some([Branch(Some("OFFICE"), None, Some([ObjectLeaf(Some("DESK")), StringLeaf("CHAIR")]))]))))
            == ["WORK", "OFFICE", "DESK", "CHAIR"]
  {
    WorkOfficeFlattened();
    WorkOfficeCleaned();
  }

  lemma WorkOfficeFlattened()
    ensures Flattened(Graph(Some("WORK"),
              Some([Branch(Some("OFFICE"), None, Some([ObjectLeaf(Some("DESK")), StringLeaf("CHAIR")]))])))
            == [Some("WORK"), Some("OFFICE"), Some("DESK"), Some("CHAIR")]
  {
    var b := Branch(Some("OFFICE"), None, Some([ObjectLeaf(Some("DESK")), StringLeaf("CHAIR")]));
    OneBranch(b);
    assert LeafWords([ObjectLeaf(Some("DESK")), StringLeaf("CHAIR")]) == [Some("DESK"), Some("CHAIR")];
  }

  lemma WorkOfficeCleaned()
    ensures CleanKeywords([Some("WORK"), Some("OFFICE"), Some("DESK"), Some("CHAIR")])
            == ["WORK", "OFFICE", "DESK", "CHAIR"]
  {
    UpperWordKept("WORK");
    UpperWordKept("OFFICE");
    UpperWordKept("DESK");
    UpperWordKept("CHAIR");
    var flat := [Some("WORK"), Some("OFFICE"), Some("DESK"), Some("CHAIR")];
    assert flat == [Some("WORK")] + ([Some("OFFICE")] + ([Some("DESK")] + [Some("CHAIR")]));
    CleanKeywordsAppend([Some("DESK")], [Some("CHAIR")]);
    CleanKeywordsAppend([Some("OFFICE")], [Some("DESK")] + [Some("CHAIR")]);
    CleanKeywordsAppend([Some("WORK")], [Some("OFFICE")] + ([Some("DESK")] + [Some("CHAIR")]));
  }

  /** A non-empty word without lower-case ASCII letters is kept as it is. */
  lemma UpperWordKept(w: string)
    requires w != "" && NoLowerCase(w)
    ensures CleanKeywords([Some(w)]) == [w]
  {
    NoLowerCaseAt(w);
    CleanKeywordsOne(Some(w));
    UpperKeepsUpperCase(w);
  }

  /** No character of `w` is a lower-case ASCII letter, checked one character at a time. */
  predicate NoLowerCase(w: string) {
    w == [] || (!('a' <= w[0] <= 'z') && NoLowerCase(w[1..]))
  }

  lemma {:induction false} NoLowerCaseAt(w: string)
    requires NoLowerCase(w)
    ensures forall k :: 0 <= k < |w| ==> !('a' <= w[k] <= 'z')
    decreases |w|
  {
    if w != [] {
      NoLowerCaseAt(w[1..]);
      assert forall k :: 1 <= k < |w| ==> w[k] == w[1..][k - 1];
    }
  }

  // ---------------------------------------------------------------------------
  // The stand-in graph built from a flat keyword list
  // ---------------------------------------------------------------------------

  /** `{ center: keywords[0], branches: keywords.slice(1).map(k => ({ label: k, leaves: [] })) }`. */
  function FakeGraph(keywords: seq<string>): (g: Graph)
    ensures g.center == if keywords == [] then None else Some(keywords[0])
    ensures |BranchesOf(g)| == if keywords == [] then 0 else |keywords| - 1
    ensures forall k :: 0 <= k < |BranchesOf(g)| ==>
              BranchesOf(g)[k] == Branch(Some(keywords[k + 1]), None, Some([]))
  {
    Graph(if keywords == [] then None else Some(keywords[0]),
          Some(FakeBranches(if keywords == [] then [] else keywords[1..])))
  }

  function FakeBranches(ks: seq<string>): (r: seq<Branch>)
    ensures |r| == |ks|
  {
    seq(|ks|, k requires 0 <= k < |ks| => Branch(Some(ks[k]), None, Some([])))
  }

  /** The keyword list read as the flattener's entries. */
  function AsEntries(ks: seq<string>): (r: seq<Option<string>>)
    ensures |r| == |ks|
  {
    seq(|ks|, k requires 0 <= k < |ks| => Some(ks[k]))
  }

  lemma {:induction false} FakeBranchesClean(ks: seq<string>)
    ensures CleanKeywords(BranchWords(FakeBranches(ks))) == CleanKeywords(AsEntries(ks))
    decreases |ks|
  {
    if ks != [] {
      var n := |ks| - 1;
      var bs := FakeBranches(ks);
      assert bs[..n] == FakeBranches(ks[..n]);
      assert AsEntries(ks) == AsEntries(ks[..n]) + [Some(ks[n])];
      FakeBranchesClean(ks[..n]);
      var b := bs[n];
      assert LeavesOf(b) == [];
      assert BranchWords(bs) == BranchWords(bs[..n]) + [BranchWord(b)];
      CleanKeywordsAppend(BranchWords(bs[..n]), [BranchWord(b)]);
      CleanKeywordsAppend(AsEntries(ks[..n]), [Some(ks[n])]);
      CleanKeywordsOne(BranchWord(b));
      CleanKeywordsOne(Some(ks[n]));
    }
  }

  /** The stand-in graph, once flattened and cleaned, shows exactly the keywords the list
      itself would show after the same cleaning: nothing is lost or reordered. */
  lemma FakeGraphKeepsKeywords(keywords: seq<string>)
    ensures CleanKeywords(Flattened(FakeGraph(keywords))) == CleanKeywords(AsEntries(keywords))
  {
    var g := FakeGraph(keywords);
    var rest := if keywords == [] then [] else keywords[1..];
    var tail := BranchWords(FakeBranches(rest));
    assert Flattened(g) == [g.center] + tail;
    calc {
      CleanKeywords(Flattened(g));
      { CleanKeywordsAppend([g.center], tail); }
      CleanKeywords([g.center]) + CleanKeywords(tail);
      { FakeBranchesClean(rest); }
      CleanKeywords([g.center]) + CleanKeywords(AsEntries(rest));
    }
    if keywords == [] {
      CleanKeywordsOne(g.center);
    } else {
      assert AsEntries(keywords) == [Some(keywords[0])] + AsEntries(rest);
      CleanKeywordsAppend([Some(keywords[0])], AsEntries(rest));
    }
  }
}
