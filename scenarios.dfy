/** The hierarchies of the cabinet's unit tests, and what the model says about them. */
module CabinetScenarios {
  import opened Wrappers
  import opened CabinetErrors
  import opened Folders
  import opened FileSizes
  import opened Filters
  import opened Cabinets

  /** Three simple roots. */
  function FlatRoots(): seq<Folder>
  {
    [Simple("Documents", "MEDIUM"), Simple("Pictures", "LARGE"), Simple("Videos", "LARGE")]
  }

  /** A multi-folder holding two simple folders. */
  function Projects(): Folder
  {
    Multi("Projects", "LARGE", [Simple("Personal", "SMALL"), Simple("Work", "MEDIUM")])
  }

  /** A multi-folder holding two simple folders and `Projects`. */
  function Projects1(): Folder
  {
    Multi("Projects1", "LARGE", [Simple("Personal1", "SMALL"), Simple("Work1", "MEDIUM"), Projects()])
  }

  /** A third level on top: another "Projects1" whose only child is `Projects1`. */
  function Projects1Outer(): Folder
  {
    Multi("Projects1", "LARGE", [Projects1()])
  }

  /** The flattening of the two-level fixture lists the flat roots, then
      "Projects" and its two children. */
  lemma TwoLevelFlattening()
    ensures AllFolders(FlatRoots() + [Projects()])
            == FlatRoots() + [Projects(), Simple("Personal", "SMALL"), Simple("Work", "MEDIUM")]
  {
    AllFoldersAppend(FlatRoots(), [Projects()]);
    AllFoldersOfOne(Projects());
  }

  /** The flattening of the three-level fixture, in pre-order. */
  lemma ThreeLevelFlattening()
    ensures AllFolders(FlatRoots() + [Projects1()])
            == FlatRoots() + [Projects1(), Simple("Personal1", "SMALL"), Simple("Work1", "MEDIUM"),
                              Projects(), Simple("Personal", "SMALL"), Simple("Work", "MEDIUM")]
  {
    AllFoldersAppend(FlatRoots(), [Projects1()]);
    AllFoldersOfOne(Projects1());
    AllFoldersAppend([Simple("Personal1", "SMALL"), Simple("Work1", "MEDIUM")], [Projects()]);
    AllFoldersOfOne(Projects());
  }

  /** A first folder that carries `size` is kept in front of the rest's result. */
  lemma SizeFilterKeeps(x: Folder, rest: seq<Folder>, size: string)
    requires x.size == size
    ensures FoldersOfSize([x] + rest, size) == [x] + FoldersOfSize(rest, size)
  {
    assert ([x] + rest)[1..] == rest;
  }

  /** A first folder of another size is dropped. */
  lemma SizeFilterDrops(x: Folder, rest: seq<Folder>, size: string)
    requires x.size != size
    ensures FoldersOfSize([x] + rest, size) == FoldersOfSize(rest, size)
  {
    assert ([x] + rest)[1..] == rest;
  }

  /** Six folders of which the second, third and fourth carry `size`: the
      size filter keeps exactly those three, in order. */
  lemma SizeFilterOfSix(a: Folder, b: Folder, c: Folder, d: Folder, e: Folder, f: Folder, size: string)
    requires a.size != size && b.size == size && c.size == size && d.size == size
    requires e.size != size && f.size != size
    ensures FoldersOfSize([a, b, c, d, e, f], size) == [b, c, d]
  {
    var s6: seq<Folder> := [];
    var s5 := [f] + s6;
    var s4 := [e] + s5;
    var s3 := [d] + s4;
    var s2 := [c] + s3;
    var s1 := [b] + s2;
    assert [a, b, c, d, e, f] == [a] + s1;
    SizeFilterDrops(f, s6, size);
    SizeFilterDrops(e, s5, size);
    SizeFilterKeeps(d, s4, size);
    SizeFilterKeeps(c, s3, size);
    SizeFilterKeeps(b, s2, size);
    SizeFilterDrops(a, s1, size);
  }

  /** In the two-level fixture the "LARGE" folders are "Pictures", "Videos" and
      "Projects", in that order. */
  lemma LargeFixture()
    ensures FoldersOfSize(AllFolders(FlatRoots() + [Projects()]), "LARGE")
            == [Simple("Pictures", "LARGE"), Simple("Videos", "LARGE"), Projects()]
  {
    TwoLevelFlattening();
    var a, b, c := Simple("Documents", "MEDIUM"), Simple("Pictures", "LARGE"), Simple("Videos", "LARGE");
    var d, e, f := Projects(), Simple("Personal", "SMALL"), Simple("Work", "MEDIUM");
    assert FlatRoots() + [d, e, f] == [a, b, c, d, e, f];
    assert "MEDIUM" != "LARGE" && "SMALL" != "LARGE" by {
      assert |"MEDIUM"| != |"LARGE"| && "SMALL"[0] != "LARGE"[0];
    }
    SizeFilterOfSix(a, b, c, d, e, f, "LARGE");
  }

  /** The counts the tests expect: 6 for the two-level fixture, 10 for the
      four-level one and 0 for an empty forest. */
  lemma CountFixtures()
    ensures ForestNodeCount(FlatRoots() + [Projects()]) == 6
    ensures ForestNodeCount(FlatRoots() + [Projects1Outer()]) == 10
    ensures ForestNodeCount([]) == 0
  {
    ForestNodeCountAppend(FlatRoots(), [Projects()]);
    ForestNodeCountAppend(FlatRoots(), [Projects1Outer()]);
    assert ForestNodeCount(Projects().subFolders) == 2;
    assert ForestNodeCount(Projects1().subFolders) == 5;
  }

  method TestFindFolderByNameExistingFolder()
  {
    var cabinet := new FileCabinet(FlatRoots() + [Projects1()]);
    var r := cabinet.FindFolderByName("Projects");
    ThreeLevelFlattening();
    var all := cabinet.Flattened();
    assert all[6].name == "Projects";
    assert r.Ok? && r.value.Some?;
    assert r.value.value == Projects();
  }

  method TestFindFolderByNameNonExistingFolder()
  {
    var cabinet := new FileCabinet(FlatRoots());
    var r := cabinet.FindFolderByName("NonExistent");
    AllFoldersAppend(FlatRoots(), []);
    assert r == Ok(None);
  }

  method TestFindFoldersBySizeMatchingFolders()
  {
    var cabinet := new FileCabinet(FlatRoots() + [Projects()]);
    var r := cabinet.FindFoldersBySize("LARGE");
    SupportedLabels("LARGE");
    LargeFixture();
    assert r.Ok?;
    assert r.value == [Simple("Pictures", "LARGE"), Simple("Videos", "LARGE"), Projects()];
  }

  method TestFindFoldersBySizeNoMatch()
  {
    var cabinet := new FileCabinet(FlatRoots());
    var r := cabinet.FindFoldersBySize("EXTRA_LARGE");
    UnsupportedExamples();
    assert r == Err(InvalidSize("EXTRA_LARGE"));
  }

  method TestCounts()
  {
    CountFixtures();
    var cabinet := new FileCabinet(FlatRoots() + [Projects()]);
    var n := cabinet.Count();
    assert n == 6;
    cabinet := new FileCabinet(FlatRoots() + [Projects1Outer()]);
    n := cabinet.Count();
    assert n == 10;
    cabinet := new FileCabinet([]);
    n := cabinet.Count();
    assert n == 0;
  }

  /** In the four-level fixture two folders are named "Projects1", so looking that
      name up fails with the duplicate-name error. */
  method TestDuplicatedName()
  {
    var cabinet := new FileCabinet(FlatRoots() + [Projects1Outer()]);
    var r := cabinet.FindFolderByName("Projects1");
    AllFoldersAppend(FlatRoots(), [Projects1Outer()]);
    AllFoldersOfOne(Projects1Outer());
    AllFoldersOfOne(Projects1());
    var all := cabinet.Flattened();
    assert all[3].name == "Projects1" && all[4].name == "Projects1";
    assert r == Err(DuplicatedFolder("Projects1"));
  }
}
