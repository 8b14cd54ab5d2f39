# File cabinet: a verified model

The repository is one small read-only component: a `FileCabinet` that holds an
ordered forest of folders and answers three queries over the whole hierarchy.
Every folder has a name and a size label; a multi-folder also owns an ordered
list of sub-folders. Every query first flattens the forest in pre-order (each
root, then everything below it, then the next root) and then filters or
measures that flattening:

- `findFolderByName(name)` returns the one folder with that exact name, absent
  when there is none, and a duplicate-name error when there are two or more;
- `findFoldersBySize(size)` rejects a size label outside SMALL, MEDIUM, LARGE
  before looking at the forest, and otherwise returns the folders with that
  label in flattening order;
- `count()` is the number of folders in the flattening.

The model, one module per source file plus two support modules:

- `Wrappers` (wrappers.dfy): `Option` for Java's `Optional`, `Result` and
  `Outcome` for the exceptions. `CabinetErrors` holds the two failures:
  `InvalidSize` and `DuplicatedFolder`.
- `Folders` (folders.dfy): the `Folder` datatype (`Simple` or `Multi` with its
  sub-folders) standing in for the `Folder` and `MultiFolder` interfaces. It
  also holds `NodeCount`/`ForestNodeCount`, an independent recursive count of a
  tree and a forest. That count is the reference for `count()` and also
  the termination measure of the flattening.
- `MultiFolderProvider` (multi_folder_provider.dfy): the child expander.
- `FileSizes` (file_size.dfy): the size enumeration, its labels, and the
  validator as a method with the source's search loop and early return.
- `Filters` (filters.dfy): the stream filter the queries use, with its
  order, multiplicity and counting lemmas.
- `Cabinets` (file_cabinet.dfy): `AllFolders`, the pre-order flattening as a
  function, and lemmas about it. The class `FileCabinet` has the immutable root
  list as a `const` field. Its `GetAllFolders` method builds the list with the
  source's loop and recursion and is proved equal to `AllFolders`. Its three
  query methods are specified against that function.
- `CabinetScenarios` (scenarios.dfy): the unit tests' hierarchies. It has lemmas
  on what the model computes for them, and client methods. These methods call
  the class and prove the tests' expected outcomes from the contracts alone.
  They also cover a duplicate-name lookup on the four-level fixture, which has
  two folders named "Projects1".

## Model

| member | source | states |
|---|---|---|
| `MultiFolderProvider.GetSubFolder` | src/main/java/org/rj/implementation/MultiFolderProvider.java:13-18 | A multi-folder yields exactly its own sub-folders, in order. Any other folder yields the empty list, so the expander is total. |
| `MultiFolderProvider.SubFoldersWeighLess` | src/main/java/org/rj/implementation/MultiFolderProvider.java:13-18 | The folders a folder expands to count exactly one fewer than the folder's whole tree. So the recursive flattening always reaches an end. |
| `FileSizes.FileSize.Label` | src/main/java/org/rj/implementation/FileSize.java:5-13 | Each constant's `size` field: "SMALL", "MEDIUM" and "LARGE", spelled like the constant names. `LabelsDistinct` and `SupportedLabels` state its properties. |
| `FileSizes.Values` | src/main/java/org/rj/implementation/FileSize.java:5-7 | No constant appears twice. The body lists them in declaration order. |
| `FileSizes.ValuesListEveryConstant` | src/main/java/org/rj/implementation/FileSize.java:16 | Every constant is among the values the validator scans. |
| `FileSizes.LabelsDistinct` | src/main/java/org/rj/implementation/FileSize.java:5-13 | Two constants have the same label if and only if they are the same constant. |
| `FileSizes.IsSupported` | src/main/java/org/rj/implementation/FileSize.java:16-18 | The membership test `ValidateSize` is specified against: some constant's label equals the given label exactly. |
| `FileSizes.SupportedLabels` | src/main/java/org/rj/implementation/FileSize.java:5-22 | A label is supported if and only if it is exactly "SMALL", "MEDIUM" or "LARGE". |
| `FileSizes.UnsupportedExamples` | src/test/java/org/rj/FileCabinetTest.java:90-92 | "EXTRA_LARGE" is rejected. So are other cases, leading or trailing blanks, and the empty label: matching is exact. |
| `FileSizes.ValidateSize` | src/main/java/org/rj/implementation/FileSize.java:15-22 | Passes if and only if some constant carries the label. Otherwise it fails with the invalid-size error naming that label. |
| `Filters.Filter` | src/main/java/org/rj/implementation/FileCabinet.java:36-38 | The result is no longer than the input. |
| `Filters.FilterMembers` | src/main/java/org/rj/implementation/FileCabinet.java:36-38 | The result holds exactly the input's elements that pass the test: a value is in the result if and only if it is in the input and passes. |
| `Filters.FilterAppend` | src/main/java/org/rj/implementation/FileCabinet.java:36-38 | Filtering distributes over concatenation, so kept elements stay in input order. |
| `Filters.FilterMultiset` | src/main/java/org/rj/implementation/FileCabinet.java:22-24 | A kept value occurs as often as in the input. A rejected value does not occur. |
| `Filters.FilterEmpty` | src/main/java/org/rj/implementation/FileCabinet.java:30 | The filter keeps nothing if and only if no element passes. |
| `Filters.FilterAtLeastTwo` | src/main/java/org/rj/implementation/FileCabinet.java:26 | The filter keeps two or more elements if and only if two distinct positions pass. |
| `Folders.NodeCount` | src/main/java/org/rj/implementation/FileCabinet.java:49-53 | The independent count of a tree: every folder counts at least itself. |
| `Folders.ForestNodeCount` | src/main/java/org/rj/implementation/FileCabinet.java:42-53 | The independent count of a forest. It is 0 if and only if the forest is empty, and it is at least the first root's count. |
| `Folders.ForestNodeCountAppend` | src/main/java/org/rj/implementation/FileCabinet.java:49-53 | The reference count of two forests put together is the sum of their counts. |
| `Cabinets.AllFolders` | src/main/java/org/rj/implementation/FileCabinet.java:46-55 | The pre-order flattening: each root, then the flattening of its expanded sub-folders, then the remaining roots. `AllFoldersLength`, `AllFoldersAppend`, `RootAt`, `SplitAround` and `DescendantsFollow` state its properties. |
| `Cabinets.AllFoldersLength` | src/main/java/org/rj/implementation/FileCabinet.java:42-53 | The flattening's length is the sum over the roots of one plus the folders below each. An empty forest gives 0. |
| `Cabinets.AllFoldersAppend` | src/main/java/org/rj/implementation/FileCabinet.java:49-53 | Flattening a concatenation of forests is concatenating their flattenings. |
| `Cabinets.AllFoldersOfOne` | src/main/java/org/rj/implementation/FileCabinet.java:49-52 | A simple folder contributes only itself. A multi-folder contributes itself followed by the flattening of its sub-folders. |
| `Cabinets.RootAt` | src/main/java/org/rj/implementation/FileCabinet.java:49-50 | Roots keep their declared order. Root `k` sits right after the flattenings of the roots before it. |
| `Cabinets.SplitAround` | src/main/java/org/rj/implementation/FileCabinet.java:49-53 | Around any folder at position `i`, the flattening splits into exactly `i` folders before it, the folder itself, the flattening of its sub-folders, and the rest. |
| `Cabinets.DescendantsFollow` | src/main/java/org/rj/implementation/FileCabinet.java:49-53 | Every folder in the flattening is followed at once by the flattening of its own sub-folders. So it precedes all its descendants. |
| `Cabinets.NamedMoreThanOnce` | src/main/java/org/rj/implementation/FileCabinet.java:22-26 | Two or more folders match the name if and only if two distinct positions of the list carry it. |
| `Cabinets.NamedNowhere` | src/main/java/org/rj/implementation/FileCabinet.java:22-30 | No folder matches the name if and only if no position of the list carries it. |
| `Cabinets.NamedOnce` | src/main/java/org/rj/implementation/FileCabinet.java:22-30 | When exactly one folder matches, that folder is in the list with that name, and every position carrying the name holds it. |
| `Cabinets.FileCabinet.constructor` | src/main/java/org/rj/implementation/FileCabinet.java:15-18 | The cabinet keeps the caller's roots unchanged. |
| `Cabinets.FileCabinet.GetAllFolders` | src/main/java/org/rj/implementation/FileCabinet.java:46-55 | The list built by the loop and the recursive calls is the pre-order flattening. |
| `Cabinets.FileCabinet.FindFolderByName` | src/main/java/org/rj/implementation/FileCabinet.java:21-31 | Fails with the duplicate-name error if and only if two positions of the flattening carry the name. Absent if and only if none does. Otherwise it returns a folder of the flattening with that name, and every folder there with that name equals it. |
| `Cabinets.FileCabinet.FindFoldersBySize` | src/main/java/org/rj/implementation/FileCabinet.java:34-39 | Fails with the invalid-size error if and only if the label is not supported, whatever the forest. Otherwise it returns the flattening's folders of that size in flattening order: exactly those folders, and no more of them than the flattening holds. |
| `Cabinets.FileCabinet.Count` | src/main/java/org/rj/implementation/FileCabinet.java:42-44 | The length of the flattening. It equals the independent recursive count of the forest. |
| `CabinetScenarios.TwoLevelFlattening` | src/test/java/org/rj/FileCabinetTest.java:99-108 | The test's two-level forest flattens to the three roots, then "Projects" and its two children. |
| `CabinetScenarios.ThreeLevelFlattening` | src/test/java/org/rj/FileCabinetTest.java:18-33 | The test's three-level forest flattens in pre-order. |
| `CabinetScenarios.LargeFixture` | src/test/java/org/rj/FileCabinetTest.java:59-78 | In the two-level forest the "LARGE" folders are exactly "Pictures", "Videos" and "Projects". |
| `CabinetScenarios.CountFixtures` | src/test/java/org/rj/FileCabinetTest.java:96-158 | The two-level forest counts 6, the four-level forest 10 and the empty forest 0. |

## Left out

- The `MultiCabinet` strategy field of `FileCabinet` is not a parameter. The cabinet always expands folders with `MultiFolderProvider.GetSubFolder`, the only implementation in the repository.
- The interfaces `Folder`, `MultiFolder`, `Cabinet` and `MultiCabinet` are not part of this model. The `Folder` datatype and `GetSubFolder` take their place, so `instanceof` dispatch becomes a match on the constructor.
- Object identity and aliasing are not modelled. Folders are immutable values compared by value, and a found folder is a value rather than a reference.
- Cyclic or shared folder graphs are not modelled. The datatype is a finite tree, so no cycle can arise. The source has no cycle guard and would not terminate on a cycle.
- Exception messages and concrete exception classes are left out. The two failures are the `InvalidSize` and `DuplicatedFolder` error values.
- Java `null` names, labels or lists are not modelled.
- `Cabinets.FileCabinet.Count` returns an unbounded natural number rather than a 32-bit `int`. A Java list cannot hold more than 2^31 - 1 elements, so the result never wraps in the source either.
- Resource failures are not modelled. The recursion at FileCabinet.java:51 can overflow the Java stack on deeply nested folders, and the list built at FileCabinet.java:47 can run out of memory long before it reaches 2^31 elements. The model returns a result in both cases.
- Java streams are replaced by the recursive `Filter`. Laziness is not observable here.
