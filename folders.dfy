/** The folders a cabinet holds: every folder has a name and a size label, and a
    multi-folder additionally owns an ordered list of sub-folders. Folders are
    immutable values, so the hierarchy is a finite tree by construction. */
module Folders {

  datatype Folder =
    | Simple(name: string, size: string)
    | Multi(name: string, size: string, subFolders: seq<Folder>)

  /** The number of folders in the tree rooted at `f`, the root included. */
  function NodeCount(f: Folder): (n: nat)
    ensures n >= 1
  {
    match f
    case Simple(_, _) => 1
    case Multi(_, _, subs) => 1 + ForestNodeCount(subs)
  }

  /** The number of folders in a forest: for each root, one plus the folders below it. */
  function ForestNodeCount(fs: seq<Folder>): (n: nat)
    ensures n == 0 <==> fs == []
    ensures fs != [] ==> n >= NodeCount(fs[0])
  {
    if fs == [] then 0 else NodeCount(fs[0]) + ForestNodeCount(fs[1..])
  }

  /** Counting distributes over the concatenation of forests. */
  lemma {:induction false} ForestNodeCountAppend(a: seq<Folder>, b: seq<Folder>)
    ensures ForestNodeCount(a + b) == ForestNodeCount(a) + ForestNodeCount(b)
  {
    if a == [] {
      assert a + b == b;
    } else {
      assert (a + b)[0] == a[0];
      assert (a + b)[1..] == a[1..] + b;
      ForestNodeCountAppend(a[1..], b);
    }
  }

  /** Dropping the first root leaves a smaller count. */
  lemma ForestNodeCountTail(fs: seq<Folder>)
    requires fs != []
    ensures ForestNodeCount(fs[1..]) < ForestNodeCount(fs)
  {
  }

  /** Every root of a forest accounts for part of the forest's count. */
  lemma {:induction false} RootCountBounded(fs: seq<Folder>, i: nat)
    requires i < |fs|
    ensures NodeCount(fs[i]) <= ForestNodeCount(fs)
  {
    if i > 0 {
      RootCountBounded(fs[1..], i - 1);
    }
  }
}
