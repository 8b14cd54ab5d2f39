/** The child expander: given a folder, the list of its direct sub-folders. */
module MultiFolderProvider {
  import opened Folders

  /** A multi-folder yields its own sub-folders in their order; any other folder
      yields the empty list. Total: never fails. */
  function GetSubFolder(folder: Folder): (r: seq<Folder>)
    ensures folder.Multi? ==> r == folder.subFolders
    ensures folder.Simple? ==> r == []
  {
    if folder.Multi? then folder.subFolders else []
  }

  /** Expanding a folder leaves exactly one folder fewer to visit, which is what
      makes the flattening terminate. */
  lemma SubFoldersWeighLess(folder: Folder)
    ensures ForestNodeCount(GetSubFolder(folder)) == NodeCount(folder) - 1
  {
  }
}
