/** The cabinet: a read-only query facade over an ordered forest of folders. Every
    query flattens the whole forest in pre-order and then filters or measures the
    flattening. */
module Cabinets {
  import opened Wrappers
  import opened CabinetErrors
  import opened Folders
  import opened FileSizes
  import opened Filters
  import opened MultiFolderProvider

  /** The pre-order flattening of a forest: for each root in order, the root
      itself, then the flattening of its sub-folders, then the remaining roots. */
  function AllFolders(roots: seq<Folder>): seq<Folder>
    decreases ForestNodeCount(roots)
  {
    if roots == [] then []
    else
      SubFoldersWeighLess(roots[0]);
      [roots[0]] + AllFolders(GetSubFolder(roots[0])) + AllFolders(roots[1..])
  }

  /** The flattening holds every folder of the forest exactly once: its length is
      the sum over the roots of one plus the folders below each. */
  lemma {:induction false} AllFoldersLength(roots: seq<Folder>)
    ensures |AllFolders(roots)| == ForestNodeCount(roots)
    decreases ForestNodeCount(roots)
  {
    if roots != [] {
      SubFoldersWeighLess(roots[0]);
      AllFoldersLength(GetSubFolder(roots[0]));
      AllFoldersLength(roots[1..]);
    }
  }

  /** Flattening two forests one after the other is flattening their concatenation. */
  lemma {:induction false} AllFoldersAppend(a: seq<Folder>, b: seq<Folder>)
    ensures AllFolders(a + b) == AllFolders(a) + AllFolders(b)
  {
    if a == [] {
      assert a + b == b;
    } else {
      assert (a + b)[0] == a[0];
      assert (a + b)[1..] == a[1..] + b;
      AllFoldersAppend(a[1..], b);
    }
  }

  /** A folder on its own flattens to itself followed by the flattening of its
      sub-folders: a simple folder contributes only itself, a multi-folder itself
      and everything below it. */
  lemma AllFoldersOfOne(f: Folder)
    ensures AllFolders([f]) == [f] + AllFolders(GetSubFolder(f))
    ensures f.Simple? ==> AllFolders([f]) == [f]
    ensures f.Multi? ==> AllFolders([f]) == [f] + AllFolders(f.subFolders)
  {
    assert [f][1..] == [];
  }

  /** Extending a prefix of the roots by one root extends the flattening by that
      root and the flattening of its sub-folders. */
  lemma AllFoldersStep(roots: seq<Folder>, i: nat)
    requires i < |roots|
    ensures AllFolders(roots[..i + 1])
            == AllFolders(roots[..i]) + [roots[i]] + AllFolders(GetSubFolder(roots[i]))
  {
    var pre, f := roots[..i], roots[i];
    assert roots[..i + 1] == pre + [f];
    AllFoldersAppend(pre, [f]);
    AllFoldersOfOne(f);
  }

  /** Roots keep their declared order: root `k` sits right after the flattenings of
      the roots before it. */
  lemma RootAt(roots: seq<Folder>, k: nat)
    requires k < |roots|
    ensures ForestNodeCount(roots[..k]) < |AllFolders(roots)|
    ensures AllFolders(roots)[ForestNodeCount(roots[..k])] == roots[k]
  {
    assert roots == roots[..k] + roots[k..];
    AllFoldersAppend(roots[..k], roots[k..]);
    AllFoldersLength(roots[..k]);
    AllFoldersLength(roots[k..]);
  }

  /** `part` occurs in `all` starting at position `p`. */
  ghost predicate OccursAt<T>(all: seq<T>, p: nat, part: seq<T>)
  {
    p + |part| <= |all| && forall t :: 0 <= t < |part| ==> all[p + t] == part[t]
  }

  /** Indexing into `[x] + a + b`. */
  lemma ConsIndex<T>(x: T, a: seq<T>, b: seq<T>, i: nat)
    requires i < 1 + |a| + |b|
    ensures ([x] + a + b)[i] == if i == 0 then x else if i <= |a| then a[i - 1] else b[i - 1 - |a|]
  {
  }

  /** Regrouping when the marked element lies in the middle part. */
  lemma RegroupMiddle<T>(x: T, pre: seq<T>, y: T, c: seq<T>, post: seq<T>, b: seq<T>)
    ensures [x] + (pre + [y] + c + post) + b == ([x] + pre) + [y] + c + (post + b)
  {
  }

  /** Regrouping when the marked element lies in the last part. */
  lemma RegroupLast<T>(x: T, a: seq<T>, pre: seq<T>, y: T, c: seq<T>, post: seq<T>)
    ensures [x] + a + (pre + [y] + c + post) == ([x] + a + pre) + [y] + c + post
  {
  }

  /** In `pre + [y] + c + post`, the part `c` starts right after `y`. */
  lemma OccursAfter<T>(pre: seq<T>, y: T, c: seq<T>, post: seq<T>)
    ensures OccursAt(pre + [y] + c + post, |pre| + 1, c)
  {
  }

  /** The flattening splits around the folder `f` at position `i`: what comes
      before it, `f` itself, the flattening of `f`'s sub-folders, and the rest. */
  lemma {:induction false} SplitAround(roots: seq<Folder>, i: nat, f: Folder)
      returns (pre: seq<Folder>, post: seq<Folder>)
    requires i < |AllFolders(roots)| && AllFolders(roots)[i] == f
    ensures |pre| == i
    ensures AllFolders(roots) == pre + [f] + AllFolders(GetSubFolder(f)) + post
    decreases ForestNodeCount(roots)
  {
    assert roots != [];
    var r := roots[0];
    var head, rest := AllFolders(GetSubFolder(r)), AllFolders(roots[1..]);
    assert AllFolders(roots) == [r] + head + rest;
    ConsIndex(r, head, rest, i);
    if i == 0 {
      pre, post := [], rest;
      assert [r] + head + rest == pre + [f] + head + post;
    } else if i <= |head| {
      SubFoldersWeighLess(r);
      var pre', post' := SplitAround(GetSubFolder(r), i - 1, f);
      RegroupMiddle(r, pre', f, AllFolders(GetSubFolder(f)), post', rest);
      pre, post := [r] + pre', post' + rest;
    } else {
      ForestNodeCountTail(roots);
      var pre', post' := SplitAround(roots[1..], i - 1 - |head|, f);
      RegroupLast(r, head, pre', f, AllFolders(GetSubFolder(f)), post');
      pre, post := [r] + head + pre', post';
    }
  }

  /** Every folder comes before its descendants, and they follow it at once:
      right after the folder `f` at position `i` of the flattening comes the
      flattening of `f`'s own sub-folders. */
  lemma DescendantsFollow(roots: seq<Folder>, i: nat, f: Folder)
    requires i < |AllFolders(roots)| && AllFolders(roots)[i] == f
    ensures OccursAt(AllFolders(roots), i + 1, AllFolders(GetSubFolder(f)))
  {
    var pre, post := SplitAround(roots, i, f);
    OccursAfter(pre, f, AllFolders(GetSubFolder(f)), post);
  }

  /** Some folder of the flattening carries the name. */
  ghost predicate NameOccurs(all: seq<Folder>, name: string)
  {
    exists i :: 0 <= i < |all| && all[i].name == name
  }

  /** Two different positions of the flattening carry the name. */
  ghost predicate NameDuplicated(all: seq<Folder>, name: string)
  {
    exists i, j :: 0 <= i < j < |all| && all[i].name == name && all[j].name == name
  }

  /** The folders of `all` whose name is exactly `name`, in order. */
  function FoldersNamed(all: seq<Folder>, name: string): seq<Folder>
  {
    Filter(all, (f: Folder) => f.name == name)
  }

  /** Two or more folders carry the name exactly when two positions do. */
  lemma NamedMoreThanOnce(all: seq<Folder>, name: string)
    ensures |FoldersNamed(all, name)| > 1 <==> NameDuplicated(all, name)
  {
    FilterAtLeastTwo(all, (f: Folder) => f.name == name);
  }

  /** No folder carries the name exactly when no position does. */
  lemma NamedNowhere(all: seq<Folder>, name: string)
    ensures FoldersNamed(all, name) == [] <==> !NameOccurs(all, name)
  {
    FilterEmpty(all, (f: Folder) => f.name == name);
  }

  /** When exactly one folder carries the name, it is in `all`, and every
      position carrying the name holds that folder. */
  lemma NamedOnce(all: seq<Folder>, name: string)
    requires |FoldersNamed(all, name)| == 1
    ensures FoldersNamed(all, name)[0] in all && FoldersNamed(all, name)[0].name == name
    ensures forall i :: 0 <= i < |all| && all[i].name == name ==> all[i] == FoldersNamed(all, name)[0]
  {
    var found := FoldersNamed(all, name);
    FilterMembers(all, (f: Folder) => f.name == name);
    assert found[0] in found;
    forall i | 0 <= i < |all| && all[i].name == name
      ensures all[i] == found[0]
    {
      assert all[i] in all;
      assert all[i] in found;
    }
  }

  /** The folders of `all` whose size label is exactly `size`, in order. */
  function FoldersOfSize(all: seq<Folder>, size: string): seq<Folder>
  {
    Filter(all, (f: Folder) => f.size == size)
  }

  class FileCabinet {
    /** The roots, in the order the caller gave them; never updated. */
    const folders: seq<Folder>

    constructor (folders: seq<Folder>)
      ensures this.folders == folders
    {
      this.folders := folders;
    }

    /** The pre-order flattening of this cabinet's forest. */
    function Flattened(): seq<Folder>
    {
      AllFolders(folders)
    }

    /** Builds the flattening of `rootFolders` in a growing list: for each root,
        append the root, then append the flattening of its sub-folders. */
    method GetAllFolders(rootFolders: seq<Folder>) returns (allFolders: seq<Folder>)
      ensures allFolders == AllFolders(rootFolders)
      decreases ForestNodeCount(rootFolders)
    {
      allFolders := [];
      for i := 0 to |rootFolders|
        invariant allFolders == AllFolders(rootFolders[..i])
      {
        var folder := rootFolders[i];
        allFolders := allFolders + [folder];
        AllFoldersStep(rootFolders, i);
        RootCountBounded(rootFolders, i);
        SubFoldersWeighLess(folder);
        var subFolders := GetAllFolders(GetSubFolder(folder));
        allFolders := allFolders + subFolders;
      }
      assert rootFolders[..|rootFolders|] == rootFolders;
    }

    /** Looks a folder up by exact name anywhere in the hierarchy: absent when no
        folder carries the name, the duplicate-name error when two or more do, and
        otherwise the one folder that does. */
    method FindFolderByName(name: string) returns (r: Result<Option<Folder>, CabinetError>)
      ensures r.Err? <==> NameDuplicated(Flattened(), name)
      ensures r.Err? ==> r.error == DuplicatedFolder(name)
      ensures r == Ok(None) <==> !NameOccurs(Flattened(), name)
      ensures r.Ok? && r.value.Some? ==>
                r.value.value in Flattened() && r.value.value.name == name &&
                forall i :: 0 <= i < |Flattened()| && Flattened()[i].name == name ==>
                  Flattened()[i] == r.value.value
    {
      var all := GetAllFolders(folders);
      var allFound := FoldersNamed(all, name);
      NamedMoreThanOnce(all, name);
      NamedNowhere(all, name);
      if |allFound| > 1 {
        return Err(DuplicatedFolder(name));
      }
      if |allFound| == 0 {
        r := Ok(None);
      } else {
        NamedOnce(all, name);
        r := Ok(Some(allFound[0]));
      }
    }

    /** Validates the size label first, whatever the forest holds, then returns
        the folders of that size in flattening order. */
    method FindFoldersBySize(size: string) returns (r: Result<seq<Folder>, CabinetError>)
      ensures r.Err? <==> !IsSupported(size)
      ensures r.Err? ==> r.error == InvalidSize(size)
      ensures r.Ok? ==> r.value == FoldersOfSize(Flattened(), size)
      ensures r.Ok? ==> forall f :: f in r.value <==> f in Flattened() && f.size == size
      ensures r.Ok? ==> |r.value| <= |Flattened()|
    {
      var validation := ValidateSize(size);
      if validation.Fail? {
        return Err(validation.error);
      }
      var all := GetAllFolders(folders);
      FilterMembers(all, (f: Folder) => f.size == size);
      r := Ok(FoldersOfSize(all, size));
    }

    /** The number of folders in the hierarchy, roots and all their descendants. */
    method Count() returns (n: nat)
      ensures n == |Flattened()|
      ensures n == ForestNodeCount(folders)
    {
      var all := GetAllFolders(folders);
      n := |all|;
      AllFoldersLength(folders);
    }
  }
}
