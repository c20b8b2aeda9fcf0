/**
 * The FileKit service (Sources/FileKit/FileKit.swift): save, create, load and
 * delete over the filesystem, each failure translated into one case of
 * `FileKitError` carrying the location that failed.
 */
module FileKitService {
  import opened Results
  import opened Entities
  import opened FileSystem

  /** The closed error taxonomy (FileKit.swift:3-9). */
  datatype FileKitError =
    | FailedToSave(path: Path)
    | FailedToLoad(path: Path)
    | FailedToDelete(path: Path)
    | FailedToCreate(path: Path)
    | FolderDoesntExist(path: Path)

  /**
   * `load(file:)`: the stored bytes, read into a new `File` with the same name
   * and folder. `unreadable` stands for a read that `contents(atPath:)` fails
   * for reasons the code does not inspect.
   */
  function LoadFile(d: Disk, file: File, unreadable: bool): (r: Result<File, FileKitError>)
    ensures r.Ok? <==> !unreadable && Contents(d, file.Location()).Some?
    ensures r.Ok? ==> && r.value.name == file.name
                      && r.value.folder == file.folder
                      && r.value.data == Contents(d, file.Location())
    ensures r.Err? ==> r.error == FailedToLoad(file.Location())
  {
    var data := if unreadable then None else Contents(d, file.Location());
    match data
    case None => Err(FailedToLoad(file.Location()))
    case Some(bytes) => Ok(File(file.name, file.folder, Some(bytes)))
  }

  /**
   * `load(folder:)`: the entries of the directory, each also as an unloaded
   * `File`. `listing` is what `contentsOfDirectory(at:)` returns, in its own
   * order; `refused` stands for a failure of that call the code does not
   * inspect.
   */
  function LoadFolder(d: Disk, folder: Folder, refused: bool, listing: seq<Path>): (r: Result<Folder, FileKitError>)
    requires IsDirectory(d, folder.location) && !refused ==> Enumerates(d, folder.location, listing)
    ensures r.Ok? <==> IsDirectory(d, folder.location) && !refused
    ensures r.Err? ==> r.error == FailedToLoad(folder.location)
    ensures r.Ok? ==> && r.value.location == folder.location
                      && r.value.filePaths == listing
                      && Consistent(r.value)
                      && |r.value.files| == |r.value.filePaths| == |Children(d, folder.location)|
                      && (forall q :: q in r.value.filePaths <==> q in Children(d, folder.location))
    ensures r.Ok? ==> forall i :: 0 <= i < |r.value.files| ==>
                        && r.value.files[i].name == LastComponent(r.value.filePaths[i])
                        && r.value.files[i].folder == Folder(folder.location)
                        && r.value.files[i].data == None
  {
    if !IsDirectory(d, folder.location) || refused then
      Err(FailedToLoad(folder.location))
    else
      EnumerationCount(d, folder.location, listing);
      var files := UnloadedFiles(folder.location, listing);
      Ok(Folder(folder.location, listing, files))
  }

  /** The service: stateless itself, it acts on `FileManager.default`. */
  class FileKit {
    const fileManager: FileManager

    constructor (fileManager: FileManager)
      ensures this.fileManager == fileManager
    {
      this.fileManager := fileManager;
    }

    /**
     * `save(file:withAttributes:)`: the owning folder must already exist;
     * then the data (empty when nil) is written to the file's location.
     * `hidden` stands for `fileExists(atPath:)` reporting an existing folder
     * as absent for reasons the code does not inspect (an unsearchable
     * parent, a dangling link); `refused` for a write that fails likewise.
     */
    method Save(file: File, hidden: bool, refused: bool) returns (r: Result<Path, FileKitError>)
      requires fileManager.Valid()
      modifies fileManager
      ensures fileManager.Valid()
      ensures r.Ok? <==> && !hidden
                         && Exists(old(fileManager.disk), file.folder.location)
                         && CanCreateFile(old(fileManager.disk), file.Location())
                         && !refused
      ensures hidden || !Exists(old(fileManager.disk), file.folder.location) ==>
                r == Err(FolderDoesntExist(file.folder.location))
      ensures !hidden && Exists(old(fileManager.disk), file.folder.location) && r.Err? ==>
                r == Err(FailedToSave(file.Location()))
      ensures r.Err? ==> fileManager.disk == old(fileManager.disk)
      ensures r.Ok? ==> && r.value == file.Location()
                        && fileManager.disk == WithFile(old(fileManager.disk), file.Location(), file.data.GetOr([]))
                        && Contents(fileManager.disk, file.Location()) == Some(file.data.GetOr([]))
    {
      var folderExists := !hidden && Exists(fileManager.disk, file.folder.location);
      if !folderExists {
        return Err(FolderDoesntExist(file.folder.location));
      }
      var written := fileManager.CreateFile(file.Location(), file.data, refused);
      if !written {
        return Err(FailedToSave(file.Location()));
      }
      return Ok(file.Location());
    }

    /** `create(folder:withAttributes:)`: the folder and every missing ancestor. */
    method Create(folder: Folder, refused: bool) returns (r: Result<Path, FileKitError>)
      requires fileManager.Valid()
      modifies fileManager
      ensures fileManager.Valid()
      ensures r.Ok? <==> CanCreateDirectory(old(fileManager.disk), folder.location) && !refused
      ensures r.Err? ==> r.error == FailedToCreate(folder.location)
                         && PartlyCreated(old(fileManager.disk), fileManager.disk, folder.location)
      ensures !CanCreateDirectory(old(fileManager.disk), folder.location) ==>
                fileManager.disk == old(fileManager.disk)
      ensures r.Ok? ==> && r.value == folder.location
                        && fileManager.disk == WithDirectories(old(fileManager.disk), folder.location)
                        && IsDirectory(fileManager.disk, folder.location)
    {
      var created := fileManager.CreateDirectory(folder.location, refused);
      if !created {
        return Err(FailedToCreate(folder.location));
      }
      return Ok(folder.location);
    }

    /** `delete(file:)`: removes whatever is at the file's location. */
    method DeleteFile(file: File, refused: bool) returns (r: Result<Path, FileKitError>)
      requires fileManager.Valid()
      modifies fileManager
      ensures fileManager.Valid()
      ensures r.Ok? <==> CanRemove(old(fileManager.disk), file.Location()) && !refused
      ensures r.Err? ==> r.error == FailedToDelete(file.Location())
                         && PartlyRemoved(old(fileManager.disk), fileManager.disk, file.Location())
      ensures !CanRemove(old(fileManager.disk), file.Location()) ==> fileManager.disk == old(fileManager.disk)
      ensures r.Ok? ==> && r.value == file.Location()
                        && fileManager.disk == Without(old(fileManager.disk), file.Location())
    {
      var removed := fileManager.RemoveItem(file.Location(), refused);
      if !removed {
        return Err(FailedToDelete(file.Location()));
      }
      return Ok(file.Location());
    }

    /** `delete(folder:)`: removes the folder and everything under it. */
    method DeleteFolder(folder: Folder, refused: bool) returns (r: Result<Path, FileKitError>)
      requires fileManager.Valid()
      modifies fileManager
      ensures fileManager.Valid()
      ensures r.Ok? <==> CanRemove(old(fileManager.disk), folder.location) && !refused
      ensures r.Err? ==> r.error == FailedToDelete(folder.location)
                         && PartlyRemoved(old(fileManager.disk), fileManager.disk, folder.location)
      ensures !CanRemove(old(fileManager.disk), folder.location) ==> fileManager.disk == old(fileManager.disk)
      ensures r.Ok? ==> && r.value == folder.location
                        && fileManager.disk == Without(old(fileManager.disk), folder.location)
    {
      var removed := fileManager.RemoveItem(folder.location, refused);
      if !removed {
        return Err(FailedToDelete(folder.location));
      }
      return Ok(folder.location);
    }

    /**
     * The saving-and-loading scenario: create the folder, save a file with
     * data into it, load it back, delete it, and load it again.
     */
    method SaveLoadDelete(file: File) returns (loaded: Result<File, FileKitError>, reloaded: Result<File, FileKitError>)
      requires fileManager.Valid()
      requires file.data.Some?
      requires CanCreateDirectory(fileManager.disk, file.folder.location)
      requires !IsDirectory(fileManager.disk, file.Location())
      modifies fileManager
      ensures fileManager.Valid()
      ensures loaded == Ok(file)
      ensures reloaded == Err(FailedToLoad(file.Location()))
    {
      SaveLoadRoundTrip(fileManager.disk, file);
      var created := Create(file.folder, false);
      var saved := Save(file, false, false);
      assert created.Ok? && saved.Ok?;
      loaded := LoadFile(fileManager.disk, file, false);
      ghost var beforeDelete := fileManager.disk;
      var deleted := DeleteFile(file, false);
      assert deleted.Ok?;
      DeleteThenLoadFails(beforeDelete, file, false);
      reloaded := LoadFile(fileManager.disk, file, false);
    }

    /**
     * `path(forResource:withExtension:inBundle:subdirectory:)`. `found` is the
     * components of the URL the bundle returns, if any; `resourceURL` is the
     * location of `URL(string: resource)`, reported when there is none. The
     * folder keeps the first component and every later one but the last.
     */
    static method PathForResource(resource: string, ext: string, found: Option<Path>, resourceURL: Path)
      returns (r: Result<File, FileKitError>)
      requires found.Some? ==> |found.value| > 0  // `pathComponents.first!` traps on none
      ensures found.None? ==> r == Err(FailedToLoad(resourceURL))
      ensures found.Some? ==> && r.Ok?
                              && r.value.name == resource + "." + ext
                              && r.value.data == None
                              && r.value.folder.filePaths == []
                              && r.value.folder.files == []
      ensures found.Some? && |found.value| >= 2 ==>
                r.Ok? && r.value.folder.location == found.value[..|found.value| - 1]
      ensures found.Some? && |found.value| == 1 ==> r.Ok? && r.value.folder.location == found.value
      ensures found.Some? && |found.value| >= 2 && LastComponent(found.value) == resource + "." + ext ==>
                r.Ok? && r.value.Location() == found.value
    {
      if found.None? {
        return Err(FailedToLoad(resourceURL));
      }
      var components := found.value;
      var middle := if |components| >= 2 then components[1..|components| - 1] else [];
      var path := [components[0]];
      for k := 0 to |middle|
        invariant path == [components[0]] + middle[..k]
      {
        path := path + [middle[k]];
      }
      assert middle[..|middle|] == middle;
      return Ok(File(resource + "." + ext, Folder(path)));
    }
  }

  /**
   * Round trip: after `create` of the owning folder, `save` of a file with
   * data and `load` of it give back a value equal to the file.
   */
  lemma SaveLoadRoundTrip(d: Disk, file: File)
    requires file.data.Some?
    requires CanCreateDirectory(d, file.folder.location)
    requires !IsDirectory(d, file.Location())
    ensures var created := WithDirectories(d, file.folder.location);
            && Exists(created, file.folder.location)
            && CanCreateFile(created, file.Location())
            && LoadFile(WithFile(created, file.Location(), file.data.GetOr([])), file, false) == Ok(file)
  {
    var loc := file.folder.location;
    var created := WithDirectories(d, loc);
    assert loc[..|loc|] == loc;
    assert Parent(file.Location()) == loc;
  }

  /**
   * A file saved without data is written empty, so loading it gives empty
   * data rather than nil: the loaded value differs from the saved one.
   */
  lemma SaveNilLoadsEmpty(d: Disk, file: File)
    requires file.data.None?
    ensures LoadFile(WithFile(d, file.Location(), file.data.GetOr([])), file, false)
            == Ok(File(file.name, file.folder, Some([])))
    ensures LoadFile(WithFile(d, file.Location(), file.data.GetOr([])), file, false) != Ok(file)
  {
  }

  /** After `delete`, loading the same file fails with `failedToLoad` at its location. */
  lemma DeleteThenLoadFails(d: Disk, file: File, unreadable: bool)
    ensures LoadFile(Without(d, file.Location()), file, unreadable) == Err(FailedToLoad(file.Location()))
  {
    RemovedTreeIsGone(d, file.Location(), file.Location());
  }

  /**
   * Saving two differently named files into an empty folder and loading the
   * folder gives two entries, those two files' locations, in some order.
   */
  lemma TwoSavedFilesCount(d: Disk, a: File, b: File, listing: seq<Path>)
    requires a.folder == b.folder && a.name != b.name
    requires IsDirectory(d, a.folder.location) && Children(d, a.folder.location) == {}
    requires Enumerates(WithFile(WithFile(d, a.Location(), a.data.GetOr([])), b.Location(), b.data.GetOr([])),
                        a.folder.location, listing)
    ensures var d2 := WithFile(WithFile(d, a.Location(), a.data.GetOr([])), b.Location(), b.data.GetOr([]));
            && LoadFolder(d2, a.folder, false, listing).Ok?
            && |LoadFolder(d2, a.folder, false, listing).value.files| == 2
            && (forall q :: q in listing <==> q == a.Location() || q == b.Location())
  {
    var loc := a.folder.location;
    var d2 := WithFile(WithFile(d, a.Location(), a.data.GetOr([])), b.Location(), b.data.GetOr([]));
    SameFolderDifferentNames(a, b);
    assert a.Location()[..|loc|] == loc && b.Location()[..|loc|] == loc;
    var d1 := WithFile(d, a.Location(), a.data.GetOr([]));
    WriteAddsEntry(d, loc, a.Location(), a.data.GetOr([]));
    WriteAddsEntry(d1, loc, b.Location(), b.data.GetOr([]));
    assert Children(d2, loc) == {a.Location(), b.Location()};
    EnumerationCount(d2, loc, listing);
  }

  /**
   * Creating a folder that already exists succeeds and changes nothing: in a
   * tree every ancestor of an existing directory is a directory too.
   */
  lemma CreateExistingFolder(d: Disk, folder: Folder)
    requires IsTree(d) && IsDirectory(d, folder.location)
    ensures CanCreateDirectory(d, folder.location)
    ensures WithDirectories(d, folder.location) == d
  {
    var p := folder.location;
    forall i | 0 <= i < |p| ensures IsDirectory(d, p[..i]) {
      AncestorsAreDirectories(d, p, i);
    }
    assert p[..|p|] == p;
    var d' := WithDirectories(d, p);
    forall q | q in d' ensures q in d {
      if q <= p {
        assert q == p[..|q|];
      }
    }
    assert d'.Keys == d.Keys;
  }

  /** Loading a regular file as a folder fails: in a tree a file has no entries to list. */
  lemma LoadFolderOfFileFails(d: Disk, folder: Folder, refused: bool)
    requires IsTree(d) && Contents(d, folder.location).Some?
    ensures Children(d, folder.location) == {}
    ensures LoadFolder(d, folder, refused, []) == Err(FailedToLoad(folder.location))
  {
    FileHasNoEntries(d, folder.location);
  }
}
