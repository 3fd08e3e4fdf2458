/**
 The dependency-tree example program: prints the crate and, recursively,
 its dependencies as an indented tree, one line per crate. Each line is the
 indentation handed down, the name, ` v` and the version, a space, and the
 enabled features joined by `", "`. Children are drawn with `├──` and
 continue their subtree under `│  `; the last child uses `└──` and blank
 continuation. Printing a line is modelled as appending it to the output.
 */
module DependencyTree {
  import opened Text
  import C = Common

  const BRANCH: string := "├──"
  const LAST_BRANCH: string := "└──"
  const CONTINUE: string := "│  "
  const LAST_CONTINUE: string := "   "

  predicate StartsWith(s: string, p: string) {
    |p| <= |s| && s[..|p|] == p
  }

  /** The one line printed for a crate. */
  function Line(ci: C.CrateInfo, selfIndent: string): (line: string)
    ensures StartsWith(line, selfIndent + ci.name + " v")
  {
    var line := selfIndent + ci.name + " v" + C.VersionString(ci.version) + " " + Join(ci.enabled_features, ", ");
    assert line[..|selfIndent + ci.name + " v"|] == selfIndent + ci.name + " v";
    line
  }

  /** The lines for a crate's subtree: its own line, then its dependencies' subtrees in order. */
  function Tree(ci: C.CrateInfo, selfIndent: string, nestIndent: string): (lines: seq<string>)
    ensures |lines| >= 1 && lines[0] == Line(ci, selfIndent)
    decreases ci, 1
  {
    [Line(ci, selfIndent)] + Children(ci, 0, nestIndent)
  }

  /** The subtree of dependency `i`: a branch, or the last branch when nothing follows it. */
  function Subtree(ci: C.CrateInfo, i: nat, nestIndent: string): (lines: seq<string>)
    requires i < |ci.dependencies|
    decreases ci, 0, 0
  {
    var dep := ci.dependencies[i];
    if i + 1 < |ci.dependencies| then Tree(dep, nestIndent + BRANCH, nestIndent + CONTINUE)
    else Tree(dep, nestIndent + LAST_BRANCH, nestIndent + LAST_CONTINUE)
  }

  /** The subtrees of the dependencies from index `i` on. */
  function Children(ci: C.CrateInfo, i: nat, nestIndent: string): (lines: seq<string>)
    requires i <= |ci.dependencies|
    ensures i < |ci.dependencies| && i + 1 < |ci.dependencies| ==>
      |lines| > 0 && lines[0] == Line(ci.dependencies[i], nestIndent + BRANCH)
    ensures i < |ci.dependencies| && i + 1 == |ci.dependencies| ==>
      |lines| > 0 && lines[0] == Line(ci.dependencies[i], nestIndent + LAST_BRANCH)
    decreases ci, 0, |ci.dependencies| - i + 1
  {
    if i == |ci.dependencies| then [] else Subtree(ci, i, nestIndent) + Children(ci, i + 1, nestIndent)
  }

  /** `main`: the root crate is printed without indentation. */
  function Render(ci: C.CrateInfo): (lines: seq<string>)
    ensures |lines| >= 1 && lines[0] == Line(ci, "")
  {
    Tree(ci, "", "")
  }

  /** The number of crates in the dependency tree, counted independently of the rendering. */
  function NodeCount(ci: C.CrateInfo): nat
    decreases ci, 1
  {
    1 + DependencyCount(ci, 0)
  }

  function DependencyCount(ci: C.CrateInfo, i: nat): nat
    requires i <= |ci.dependencies|
    decreases ci, 0, |ci.dependencies| - i
  {
    if i == |ci.dependencies| then 0 else NodeCount(ci.dependencies[i]) + DependencyCount(ci, i + 1)
  }

  /**
   `print_crate_info`: prints the crate's line, then walks its dependencies
   in order, recursing with the branch or last-branch indentation.
   */
  method PrintCrateInfo(ci: C.CrateInfo, selfIndent: string, nestIndent: string, out: seq<string>)
    returns (out': seq<string>)
    ensures out' == out + Tree(ci, selfIndent, nestIndent)
    decreases ci
  {
    out' := out + [Line(ci, selfIndent)];
    Regroup(out, [Line(ci, selfIndent)], Children(ci, 0, nestIndent));
    var i := 0;
    while i < |ci.dependencies|
      invariant i <= |ci.dependencies|
      invariant out' + Children(ci, i, nestIndent) == out + Tree(ci, selfIndent, nestIndent)
    {
      var last := i + 1 == |ci.dependencies|;
      var branch := if last then nestIndent + LAST_BRANCH else nestIndent + BRANCH;
      var cont := if last then nestIndent + LAST_CONTINUE else nestIndent + CONTINUE;
      ghost var before := out';
      out' := PrintCrateInfo(ci.dependencies[i], branch, cont, out');
      ChildrenStep(ci, i, nestIndent, branch, cont);
      Resume(before, Tree(ci.dependencies[i], branch, cont), Children(ci, i + 1, nestIndent),
             Children(ci, i, nestIndent), out + Tree(ci, selfIndent, nestIndent));
      i := i + 1;
    }
  }

  lemma ChildrenStep(ci: C.CrateInfo, i: nat, nestIndent: string, branch: string, cont: string)
    requires i < |ci.dependencies|
    requires branch == nestIndent + (if i + 1 == |ci.dependencies| then LAST_BRANCH else BRANCH)
    requires cont == nestIndent + (if i + 1 == |ci.dependencies| then LAST_CONTINUE else CONTINUE)
    ensures Children(ci, i, nestIndent) == Tree(ci.dependencies[i], branch, cont) + Children(ci, i + 1, nestIndent)
  {
  }

  lemma Regroup(a: seq<string>, b: seq<string>, c: seq<string>)
    ensures a + (b + c) == (a + b) + c
  {
  }

  /** The loop step: printed so far, then the subtree just printed, then the rest, is still the whole. */
  lemma Resume(before: seq<string>, subtree: seq<string>, rest: seq<string>, children: seq<string>, whole: seq<string>)
    requires before + children == whole && children == subtree + rest
    ensures (before + subtree) + rest == whole
  {
    Regroup(before, subtree, rest);
  }

  // ---------------------------------------------------------------------------
  // Laws

  /** One line per crate of the tree. */
  lemma {:induction false} TreeSize(ci: C.CrateInfo, selfIndent: string, nestIndent: string)
    ensures |Tree(ci, selfIndent, nestIndent)| == NodeCount(ci)
    decreases ci, 1
  {
    ChildrenSize(ci, 0, nestIndent);
  }

  lemma {:induction false} ChildrenSize(ci: C.CrateInfo, i: nat, nestIndent: string)
    requires i <= |ci.dependencies|
    ensures |Children(ci, i, nestIndent)| == DependencyCount(ci, i)
    decreases ci, 0, |ci.dependencies| - i + 1
  {
    if i < |ci.dependencies| {
      var dep := ci.dependencies[i];
      if i + 1 < |ci.dependencies| {
        TreeSize(dep, nestIndent + BRANCH, nestIndent + CONTINUE);
      } else {
        TreeSize(dep, nestIndent + LAST_BRANCH, nestIndent + LAST_CONTINUE);
      }
      ChildrenSize(ci, i + 1, nestIndent);
    }
  }

  lemma PrefixOfLonger(s: string, p: string, q: string)
    requires StartsWith(s, p + q)
    ensures StartsWith(s, p)
  {
    assert s[..|p|] == (s[..|p + q|])[..|p|];
    assert (p + q)[..|p|] == p;
  }

  /** Every line below a crate's own line is indented by at least the continuation it was given. */
  lemma {:induction false} TreeIndented(ci: C.CrateInfo, selfIndent: string, nestIndent: string)
    ensures forall k :: 1 <= k < |Tree(ci, selfIndent, nestIndent)| ==>
      StartsWith(Tree(ci, selfIndent, nestIndent)[k], nestIndent)
    decreases ci, 1
  {
    var lines := Tree(ci, selfIndent, nestIndent);
    var children := Children(ci, 0, nestIndent);
    ChildrenIndented(ci, 0, nestIndent);
    forall k | 1 <= k < |lines|
      ensures StartsWith(lines[k], nestIndent)
    {
      assert lines[k] == children[k - 1];
    }
  }

  lemma LineIndented(ci: C.CrateInfo, nestIndent: string, branch: string)
    ensures StartsWith(Line(ci, nestIndent + branch), nestIndent)
  {
    assert nestIndent + branch + ci.name + " v" == nestIndent + (branch + ci.name + " v");
    PrefixOfLonger(Line(ci, nestIndent + branch), nestIndent, branch + ci.name + " v");
  }

  /** The first line of a subtree carries its branch, the rest its continuation, both after `nestIndent`. */
  lemma {:induction false} SubtreeIndented(ci: C.CrateInfo, i: nat, nestIndent: string)
    requires i < |ci.dependencies|
    ensures forall k :: 0 <= k < |Subtree(ci, i, nestIndent)| ==>
      StartsWith(Subtree(ci, i, nestIndent)[k], nestIndent)
    decreases ci, 0, 0
  {
    var dep := ci.dependencies[i];
    var last := i + 1 == |ci.dependencies|;
    var branch := if last then LAST_BRANCH else BRANCH;
    var cont := if last then LAST_CONTINUE else CONTINUE;
    var subtree := Subtree(ci, i, nestIndent);
    assert subtree == Tree(dep, nestIndent + branch, nestIndent + cont);
    TreeIndented(dep, nestIndent + branch, nestIndent + cont);
    forall k | 0 <= k < |subtree|
      ensures StartsWith(subtree[k], nestIndent)
    {
      if k == 0 {
        LineIndented(dep, nestIndent, branch);
      } else {
        assert StartsWith(subtree[k], nestIndent + cont);
        PrefixOfLonger(subtree[k], nestIndent, cont);
      }
    }
  }

  lemma {:induction false} ChildrenIndented(ci: C.CrateInfo, i: nat, nestIndent: string)
    requires i <= |ci.dependencies|
    ensures forall k :: 0 <= k < |Children(ci, i, nestIndent)| ==>
      StartsWith(Children(ci, i, nestIndent)[k], nestIndent)
    decreases ci, 0, |ci.dependencies| - i + 1
  {
    if i < |ci.dependencies| {
      var subtree := Subtree(ci, i, nestIndent);
      var rest := Children(ci, i + 1, nestIndent);
      var lines := Children(ci, i, nestIndent);
      assert lines == subtree + rest;
      SubtreeIndented(ci, i, nestIndent);
      ChildrenIndented(ci, i + 1, nestIndent);
      forall k | 0 <= k < |lines|
        ensures StartsWith(lines[k], nestIndent)
      {
        if k < |subtree| {
          assert lines[k] == subtree[k];
        } else {
          assert lines[k] == rest[k - |subtree|];
        }
      }
    }
  }
}
