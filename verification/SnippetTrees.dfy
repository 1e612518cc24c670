// Directory trees and their union, which is what a target receives.
module SnippetTrees {
  import opened Prelude

  datatype Content = Content(bytes: seq<bv8>, mode: nat)

  // A directory by the relative paths of its files and of its sub-directories.
  datatype Tree = Tree(files: map<string, Content>, directories: set<string>)

  const EMPTY := Tree(map[], {})

  // No path is both a file and a directory, and common files are identical.
  predicate Agree(a: Tree, b: Tree) {
    && (forall p :: p in a.files && p in b.files ==> a.files[p] == b.files[p])
    && a.files.Keys !! b.directories
    && b.files.Keys !! a.directories
  }

  predicate WellFormed(t: Tree) { t.files.Keys !! t.directories }

  ghost predicate Compatible(trees: seq<Tree>) {
    && (forall t :: t in trees ==> WellFormed(t))
    && (forall t, u :: t in trees && u in trees ==> Agree(t, u))
  }

  // Copying a tree over another: what it brings overwrites.
  function Merge(a: Tree, b: Tree): Tree {
    Tree(a.files + b.files, a.directories + b.directories)
  }

  function MergeAll(trees: seq<Tree>): Tree {
    if trees == [] then EMPTY else Merge(MergeAll(trees[..|trees| - 1]), trees[|trees| - 1])
  }

  // The union holds exactly what some source holds, and every file as every source has it.
  ghost predicate IsUnion(u: Tree, trees: seq<Tree>) {
    && (forall p :: p in u.files <==> exists t :: t in trees && p in t.files)
    && (forall t, p :: t in trees && p in t.files ==> p in u.files && u.files[p] == t.files[p])
    && (forall p :: p in u.directories <==> exists t :: t in trees && p in t.directories)
  }

  lemma LastAndRest(trees: seq<Tree>, t: Tree)
    requires trees != []
    ensures t in trees <==> t in trees[..|trees| - 1] || t == trees[|trees| - 1]
  {
  }

  lemma MergeOne(u: Tree, rest: seq<Tree>, last: Tree, all: seq<Tree>)
    requires IsUnion(u, rest) && forall t :: t in all <==> t in rest || t == last
    requires forall t :: t in rest ==> Agree(t, last)
    ensures IsUnion(Merge(u, last), all)
  {
  }

  // Merging compatible trees loses nothing and changes nothing.
  lemma {:induction false} MergeIsUnion(trees: seq<Tree>)
    requires Compatible(trees)
    ensures IsUnion(MergeAll(trees), trees)
  {
    if trees != [] {
      var rest, last := trees[..|trees| - 1], trees[|trees| - 1];
      forall t
        ensures t in trees <==> t in rest || t == last
      {
        LastAndRest(trees, t);
      }
      MergeIsUnion(rest);
      MergeOne(MergeAll(rest), rest, last, trees);
    }
  }

  lemma UnionIsUnique(u: Tree, v: Tree, trees: seq<Tree>, others: seq<Tree>)
    requires IsUnion(u, trees) && IsUnion(v, others) && forall t :: t in trees <==> t in others
    ensures u == v
  {
  }

  // The order in which the sources are copied does not matter.
  lemma OrderDoesNotMatter(trees: seq<Tree>, others: seq<Tree>)
    requires Compatible(trees) && forall t :: t in trees <==> t in others
    ensures MergeAll(trees) == MergeAll(others)
  {
    MergeIsUnion(trees);
    MergeIsUnion(others);
    UnionIsUnique(MergeAll(trees), MergeAll(others), trees, others);
  }

  // Checking each tree against the union of those before it finds every conflict.
  lemma AgreesWithUnion(u: Tree, rest: seq<Tree>, last: Tree)
    requires IsUnion(u, rest)
    ensures Agree(u, last) <==> forall t :: t in rest ==> Agree(t, last)
  {
  }

  lemma CompatibleOneMore(trees: seq<Tree>)
    requires trees != [] && Compatible(trees[..|trees| - 1])
    ensures Compatible(trees) <==>
      WellFormed(trees[|trees| - 1]) && Agree(MergeAll(trees[..|trees| - 1]), trees[|trees| - 1])
  {
    var rest, last := trees[..|trees| - 1], trees[|trees| - 1];
    MergeIsUnion(rest);
    AgreesWithUnion(MergeAll(rest), rest, last);
    assert forall t :: t in trees <==> t in rest || t == last by {
      forall t ensures t in trees <==> t in rest || t == last { LastAndRest(trees, t); }
    }
  }

  lemma CompatiblePrefix(trees: seq<Tree>, n: nat)
    requires Compatible(trees) && n <= |trees|
    ensures Compatible(trees[..n])
  {
  }

  // The check that precedes a migration: reads every source and reports whether they meet.
  method CheckSources(trees: seq<Tree>) returns (compatible: bool)
    requires forall t :: t in trees ==> WellFormed(t)
    ensures compatible <==> Compatible(trees)
  {
    var files, directories := map[], {};
    var i := 0;
    while i < |trees|
      invariant 0 <= i <= |trees| && Compatible(trees[..i])
      invariant Tree(files, directories) == MergeAll(trees[..i])
    {
      var t := trees[i];
      assert trees[..i + 1][..i] == trees[..i];
      CompatibleOneMore(trees[..i + 1]);
      if exists p :: p in t.directories && p in files {
        if Compatible(trees) { CompatiblePrefix(trees, i + 1); }
        return false;
      }
      if exists p :: p in t.files && (p in directories || (p in files && files[p] != t.files[p])) {
        if Compatible(trees) { CompatiblePrefix(trees, i + 1); }
        return false;
      }
      files, directories := files + t.files, directories + t.directories;
      i := i + 1;
    }
    assert trees[..i] == trees;
    compatible := true;
  }
}
