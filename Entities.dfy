/**
 * The two value types of FileKit: `File` (Sources/FileKit/Entities/File.swift)
 * and `Folder` (Sources/FileKit/Entities/Folder.swift).
 *
 * A URL is modelled by its path components, and `appendingPathComponent(c)`
 * by appending `c` as one more component.
 */
module Entities {
  import opened Results

  /**
   * A location: the path components of a URL, outermost first. An absolute
   * URL's components start with "/"; a URL without a path has none.
   */
  type Path = seq<string>

  newtype Byte = x: int | 0 <= x < 256

  /** Foundation's `Data`: a byte buffer. */
  type Data = seq<Byte>

  /** `URL.lastPathComponent`; the empty path has none and gives "". */
  function LastComponent(p: Path): string {
    if |p| == 0 then "" else p[|p| - 1]
  }

  /**
   * A file: its name (one path component), the folder it lives in, and its
   * content, absent until loaded. The memberwise initializer of
   * File.swift:8-12 defaults `data` to nil; Dafny's equality on this datatype
   * is the synthesized `Equatable` of File.swift:15.
   */
  datatype File = File(name: string, folder: Folder, data: Option<Data> := None)
  {
    /** `folder.location.appendingPathComponent(name)` (File.swift:17-20). */
    function Location(): (p: Path)
      ensures |p| == |folder.location| + 1
      ensures p[..|folder.location|] == folder.location
      ensures LastComponent(p) == name
    {
      folder.location + [name]
    }
  }

  /**
   * A folder: its location and the entries found there by the last load.
   *
   * Folder.swift:3-11 declares only `location` and `filePaths`, yet
   * FileKit.swift:59-61 builds `Folder(location:filePaths:files:)` and the
   * tests read `.files`. The model therefore carries the third field `files`,
   * one unloaded `File` per entry of `filePaths` (see `Consistent`). Both
   * lists default to empty, as `filePaths` does in Folder.swift:7.
   */
  datatype Folder = Folder(location: Path, filePaths: seq<Path> := [], files: seq<File> := [])

  /**
   * One unloaded `File` per entry, as FileKit.swift:55-58 builds them: named
   * after the entry's last component, in a bare folder at `location`.
   */
  function UnloadedFiles(location: Path, entries: seq<Path>): (fs: seq<File>)
    ensures |fs| == |entries|
    ensures forall i :: 0 <= i < |entries| ==>
              && fs[i].name == LastComponent(entries[i])
              && fs[i].folder.location == location
              && fs[i].folder.filePaths == []
              && fs[i].folder.files == []
              && fs[i].data == None
  {
    seq(|entries|, i requires 0 <= i < |entries| => File(LastComponent(entries[i]), Folder(location)))
  }

  /** `files` agrees with `filePaths`, entry by entry. */
  predicate Consistent(f: Folder) {
    f.files == UnloadedFiles(f.location, f.filePaths)
  }

  /** File equality is structural: name, folder and data (File.swift:3-15). */
  lemma FileEquality(a: File, b: File)
    ensures a == b <==> a.name == b.name && a.folder == b.folder && a.data == b.data
  {
  }

  /** The initializer stores its arguments and defaults `data` to nil (File.swift:8-12). */
  lemma FileInit(name: string, folder: Folder, data: Option<Data>)
    ensures File(name, folder).data == None
    ensures File(name, folder, data).name == name
    ensures File(name, folder, data).folder == folder
    ensures File(name, folder, data).data == data
  {
  }

  /**
   * Two files with different names in the same folder are different values
   * at different locations, and a file equals itself.
   */
  lemma SameFolderDifferentNames(a: File, b: File)
    requires a.folder == b.folder && a.name != b.name
    ensures a != b
    ensures a.Location() != b.Location()
    ensures a == a
  {
    assert LastComponent(a.Location()) != LastComponent(b.Location());
  }

  /** A file's location determines its name and its folder's location. */
  lemma LocationInjective(a: File, b: File)
    requires a.Location() == b.Location()
    ensures a.name == b.name && a.folder.location == b.folder.location
  {
    assert |a.folder.location| == |b.folder.location|;
    assert a.folder.location == a.Location()[..|a.folder.location|];
  }

  /**
   * A folder built from a location alone stores that location and has no
   * entries, whatever is on disk (Folder.swift:7-10).
   */
  lemma BareFolder(location: Path)
    ensures Folder(location).location == location
    ensures Folder(location).filePaths == []
    ensures Folder(location).files == []
    ensures Consistent(Folder(location))
  {
  }

  /**
   * For folders whose `files` agree with `filePaths`, structural equality is
   * equality of the two declared fields, as Folder.swift:13 synthesizes it.
   */
  lemma FolderEquality(a: Folder, b: Folder)
    requires Consistent(a) && Consistent(b)
    ensures a == b <==> a.location == b.location && a.filePaths == b.filePaths
  {
  }
}
