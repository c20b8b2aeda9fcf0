# FileKit, modelled in Dafny

FileKit is a small Swift filesystem library. It has two value types, `File`
(a name, an owning folder and optional data) and `Folder` (a location and the
entries found there by the last load). Its service `FileKit` creates folders,
saves, loads and deletes files and folders. Every failure is translated into
exactly one case of the closed `FileKitError` enum, and each case carries the
location that failed.

The model has four modules:

- `Results` (Results.dfy): `Option` (Swift's optionals) and
  `Result<T, E>` (a `throws` function's outcome as a tagged value).
- `Entities` (Entities.dfy): `File` and `Folder` as datatypes, with
  `File.Location()`, `UnloadedFiles` and the lemmas on equality and
  construction.
- `FileSystem` (FileSystem.dfy): an abstract stand-in for Foundation's
  `FileManager`, which is not part of this model. The filesystem is a map
  from a path to a node, either a directory or a regular file holding bytes.
  Each call FileKit makes has a pure function for its effect and, on the
  class `FileManager`, a method that applies it. The `IsTree` invariant says
  the root `[]` is a directory and every other node sits in a directory. Every
  call keeps it.
- `FileKitService` (FileKit.dfy): `FileKitError`; `load(file:)` and
  `load(folder:)` as functions of the filesystem state; the class `FileKit`
  with `save`, `create` and both `delete`s as methods that modify the
  `FileManager` they wrap; the resource helper; and the lemmas that relate
  several operations.

Modelling choices:

- A URL is its sequence of path components (`seq<string>`).
  `appendingPathComponent(c)` appends `c` as one component.
- The filesystem's root is the empty path `[]`. The "/" that Foundation puts
  first in an absolute URL's path components is therefore an ordinary
  directory `["/"]` below that root. `[]` is also the path of a URL without
  one, such as `file://invalid`.
- A `FileManager` call can fail for reasons FileKit never inspects, such as
  permissions or an invalid URL like `file://invalid` in the tests. Each such
  failure is an oracle argument: `refused` for a mutating call or directory
  enumeration, `unreadable` for `contents(atPath:)`, and `hidden` for
  `fileExists(atPath:)` in `save` reporting an existing folder as absent (an
  unsearchable parent directory, a dangling symbolic link). Besides the oracle, a
  call fails only where success would be impossible in a tree:
  - `createFile` needs a directory as parent and no directory at the path.
  - `createDirectory` with intermediate directories fails when any prefix of
    the path is a regular file.
  - `removeItem` needs something at the path, and that path is not the root.
- Directory enumeration order is the oracle `listing`. It must name every
  entry exactly once (multiset equality with the set of children). Only
  membership and count are stated about it.
- `fileExists(atPath:)` is true for a regular file as well as a directory.
  So `save` into a "folder" that is really a file passes the existence check
  and then fails with `failedToSave`.
- `createFile` with nil contents writes an empty file. Loading that file gives
  empty data, not nil (`SaveNilLoadsEmpty`).

Facts about the code that shape the model:

- The error enum has five cases (Sources/FileKit/FileKit.swift:3-9). The
  search-path helpers call `fatalError` (Sources/FileKit/FileKit.swift:87-89)
  instead of reporting an error.
- `save` requires the owning folder to exist already
  (Sources/FileKit/FileKit.swift:15-17). It does not create the folder.
- Every operation is synchronous: it `throws` or returns. There is no
  callback variant.
- `Folder` as declared in Sources/FileKit/Entities/Folder.swift:3-11 has
  only `location` and `filePaths`. But Sources/FileKit/FileKit.swift:59-61
  builds `Folder(location:filePaths:files:)`, and the tests read `.files`. So
  the model's `Folder` has a third field `files`, and both lists default to
  empty. `Consistent` ties `files` to `filePaths` entry by entry. For
  consistent folders the datatype's structural equality is equality of
  `location` and `filePaths` (`FolderEquality`), which is what the declared
  struct synthesizes.

## Model

| member | source | states |
|---|---|---|
| `Entities.File.Location` | Sources/FileKit/Entities/File.swift:17-20 | a file's location is its folder's location followed by one more component, the file's name |
| `Entities.LocationInjective` | Sources/FileKit/Entities/File.swift:17-20 | two files at the same location have the same name and the same folder location |
| `Entities.FileEquality` | Sources/FileKit/Entities/File.swift:3-15 | two files are equal iff their names, folders and data are all equal |
| `Entities.FileInit` | Sources/FileKit/Entities/File.swift:8-12 | the initializer stores name, folder and data unchanged, and data defaults to nil |
| `Entities.SameFolderDifferentNames` | Tests/FileKitTests/FileKitTests.swift:137-142 | files with different names in one folder are unequal and have different locations; a file equals itself |
| `Entities.BareFolder` | Sources/FileKit/Entities/Folder.swift:7-10 | a folder built from a location alone stores that location, has no entries and no files, and is consistent |
| `Entities.FolderEquality` | Sources/FileKit/Entities/Folder.swift:13 | for consistent folders, equality holds iff location and filePaths are equal; folders at different locations differ |
| `Entities.UnloadedFiles` | Sources/FileKit/FileKit.swift:55-58 | one file per entry, named after the entry's last component, in a bare folder at the given location, without data |
| `FileSystem.WithFile` | Sources/FileKit/FileKit.swift:18-20 | after a write, the path holds exactly the bytes written, and every other path is unchanged |
| `FileSystem.WriteAddsEntry` | Sources/FileKit/FileKit.swift:18-20 | writing a file directly inside a directory adds exactly that entry to the directory's children |
| `FileSystem.WithFileValid` | Sources/FileKit/FileKit.swift:18-20 | a write that createFile allows keeps the filesystem a tree |
| `FileSystem.FileManager.CreateFile` | Sources/FileKit/FileKit.swift:18-20 | createFile reports true exactly when the parent is a directory, the path is not one and the call is not refused; then the bytes (empty for nil) are stored there, otherwise nothing changes |
| `FileSystem.WithDirectories` | Sources/FileKit/FileKit.swift:28-30 | after creation the path and every one of its prefixes is a directory; existing nodes are unchanged; the only new paths are prefixes of the path |
| `FileSystem.WithDirectoriesValid` | Sources/FileKit/FileKit.swift:28-30 | creating a directory with its intermediate directories keeps the filesystem a tree |
| `FileSystem.CreateDirectoryIdempotent` | Sources/FileKit/FileKit.swift:28-30 | creating an existing folder again can succeed and changes nothing |
| `FileSystem.FileOnPathBlocksCreate` | Sources/FileKit/FileKit.swift:27-33 | a regular file at any prefix of the path makes folder creation fail |
| `FileSystem.FileManager.CreateDirectory` | Sources/FileKit/FileKit.swift:28-30 | createDirectory succeeds exactly when no prefix of the path is a regular file and the call is not refused; then the path and its missing ancestors are directories; when creation cannot succeed nothing changes, and a refused call may only have added directories along the path, changing no existing node |
| `FileSystem.Without` | Sources/FileKit/FileKit.swift:64-80 | after a removal, a path exists iff it existed before and is not the removed path or under it; the surviving nodes are unchanged |
| `FileSystem.WithoutValid` | Sources/FileKit/FileKit.swift:64-80 | removing a non-root path keeps the filesystem a tree |
| `FileSystem.RemovedTreeIsGone` | Sources/FileKit/FileKit.swift:73-80 | after a removal nothing at or under the removed path exists or can be read |
| `FileSystem.FileManager.RemoveItem` | Sources/FileKit/FileKit.swift:66 | removeItem succeeds exactly when something non-root is there and the call is not refused; then that path and its subtree are gone; when nothing removable is there nothing changes, and a refused call may only have taken away part of that subtree, changing nothing outside it |
| `FileSystem.RemovalOutcomesBounded` | Sources/FileKit/FileKit.swift:66 | both possible outcomes of a refused removal, nothing removed and everything under the path removed, are partial removals |
| `FileSystem.PartlyRemovedKeepsOutside` | Sources/FileKit/FileKit.swift:64-80 | after a refused removal every path outside the removed one exists and reads exactly as before |
| `FileSystem.CreationOutcomesBounded` | Sources/FileKit/FileKit.swift:28-30 | both possible outcomes of a refused creation, nothing created and the whole path created, are partial creations |
| `FileSystem.PartlyCreatedKeepsContents` | Sources/FileKit/FileKit.swift:26-35 | after a refused creation everything that existed still exists and every file reads as before |
| `FileSystem.CreatedDirectoryIsEmpty` | Sources/FileKit/FileKit.swift:28-30 | a folder created where nothing was is a directory with no entries, as the empty folder that the two-file test starts from |
| `FileSystem.ParentOfLocation` | Sources/FileKit/Entities/File.swift:17-20 | the parent of a file's location is its folder's location |
| `FileSystem.AncestorsAreDirectories` | Sources/FileKit/FileKit.swift:28-30 | in a tree every proper prefix of an existing path is a directory |
| `FileSystem.FileHasNoEntries` | Sources/FileKit/FileKit.swift:49-51 | in a tree a regular file has no entries |
| `FileSystem.EnumerationCount` | Sources/FileKit/FileKit.swift:49-51 | a directory listing names exactly the directory's entries, and has as many elements as there are entries |
| `FileKitService.LoadFile` | Sources/FileKit/FileKit.swift:37-44 | load succeeds iff a readable regular file is at the location; it returns the same name and folder with data set to the stored bytes; otherwise failedToLoad at the file's location |
| `FileKitService.LoadFolder` | Sources/FileKit/FileKit.swift:46-62 | load succeeds iff the location is a directory and enumeration is not refused, else failedToLoad at the folder's location; the result keeps the location, its filePaths are the listing (exactly the entries, as many), and it has one unloaded file per entry, named after the entry's last component, in a bare folder at the location |
| `FileKitService.FileKit.Save` | Sources/FileKit/FileKit.swift:14-24 | folderDoesntExist(folder location) exactly when the existence check reports the owning folder absent (nothing there, or hidden from the check); otherwise failedToSave(file location) when the write fails; on success the file's location is returned and now holds the file's data; on failure the filesystem is unchanged |
| `FileKitService.FileKit.Create` | Sources/FileKit/FileKit.swift:26-35 | create succeeds iff directory creation can succeed and is not refused; it returns the folder's location, which is then a directory, with its missing ancestors created; otherwise failedToCreate(folder location), with nothing changed when creation cannot succeed and at most some directories along the path added when it is refused |
| `FileKitService.FileKit.DeleteFile` | Sources/FileKit/FileKit.swift:64-71 | on success it returns the file's location, and that path and everything under it are gone with no other path changed; otherwise failedToDelete(file location), with nothing changed when nothing is there and at most part of that subtree gone when it is refused |
| `FileKitService.FileKit.DeleteFolder` | Sources/FileKit/FileKit.swift:73-80 | on success it returns the folder's location, and the folder and everything under it are gone with no other path changed; otherwise failedToDelete(folder location), with nothing changed when nothing is there and at most part of that subtree gone when it is refused |
| `FileKitService.FileKit.PathForResource` | Sources/FileKit/FileKit.swift:105-118 | with no bundle URL it fails with failedToLoad; otherwise the file is named resource.ext, without data, in a bare folder made of the URL's components minus the last; when that last component is resource.ext the file's location is the bundle URL itself |
| `FileKitService.SaveLoadRoundTrip` | Sources/FileKit/FileKit.swift:14-44 | after create, the owning folder exists and the save can succeed; loading the saved file with data gives a value equal to the original |
| `FileKitService.SaveNilLoadsEmpty` | Sources/FileKit/FileKit.swift:18-43 | a file saved with nil data loads back with empty data, so it is not equal to the saved value |
| `FileKitService.DeleteThenLoadFails` | Sources/FileKit/FileKit.swift:64-71 | after a file is deleted, loading it fails with failedToLoad at its location |
| `FileKitService.TwoSavedFilesCount` | Tests/FileKitTests/FileKitTests.swift:53-72 | saving two differently named files into an empty folder gives a folder load with exactly two files, whose listing is exactly those two locations |
| `FileKitService.CreateExistingFolder` | Sources/FileKit/FileKit.swift:28-30 | creating a folder that already exists as a directory can succeed and leaves the filesystem unchanged |
| `FileKitService.LoadFolderOfFileFails` | Sources/FileKit/FileKit.swift:46-54 | loading a regular file as a folder fails with failedToLoad at that location, and the file has no entries |
| `FileKitService.FileKit.SaveLoadDelete` | Sources/FileKit/FileKit.swift:14-71 | create, save, load and delete in sequence: the loaded file equals the saved one, and loading it after the delete fails with failedToLoad |

## Left out

- Platform directory lookups are left out: `pathToFolder(forSearchPath:)`, `folder(forSearchPath:)`, `fileInCachesFolder`, `fileInDocumentsFolder` and `currentWorkingFolder` (Sources/FileKit/FileKit.swift:84-125). They only look up platform locations or call `fatalError`. A caller of the model supplies locations directly.
- The `attributes` dictionaries of `save` and `create` are passed to `FileManager` without being examined.
- `FileManager` internals are left out: permissions, symbolic links, URL parsing and validity, and why a call is refused. All of these are the `refused`, `unreadable` and `hidden` oracles.
- Bundle resource lookup is not modelled: `PathForResource` receives the bundle's answer as `found`, and the location of `URL(string: resource)` as `resourceURL`. The trap when `URL(string:)` gives nil is not modelled. The trap on a URL with no components is a requirement.
- Names are not checked. A name containing `/`, or an empty one, is appended as one component, whereas `appendingPathComponent` would split it or ignore it.
- `url(fromPath:)` and `folder(fromPath:)`, which the tests call, are not part of this model, because their source is not among the files modelled.
- The root is `[]`, not `["/"]`: `removeItem` may remove the directory `["/"]` that absolute URLs start with, which Foundation would refuse.
- Directory enumeration order is left out. Only count and membership of `load(folder:)`'s entries are stated.
- No asynchronous or callback variant exists in the code, so there is none to model.
- Scheduling, file-handle release and concurrent access to the same path are left out. A successful call is modelled as one step on the filesystem map.
- `FileSystem.FileManager.RemoveItem`, and through it `FileKitService.FileKit.DeleteFile` and `FileKitService.FileKit.DeleteFolder`: a refused removal is only bounded (part of the subtree may be gone, nothing else changes), not described exactly, because Foundation removes a directory's contents one by one and may throw halfway. The method itself leaves the filesystem untouched, which is one of the allowed outcomes.
- `FileSystem.FileManager.CreateDirectory`, and through it `FileKitService.FileKit.Create`: a refused creation is only bounded (some directories along the path may have been added, no existing node changes), because Foundation creates the missing ancestors one at a time and may throw after some of them. The method itself leaves the filesystem untouched, which is one of the allowed outcomes.
- `FileSystem.FileManager.CreateFile`: a refused write is modelled as changing nothing, as an atomic write would; a partially written file is not modelled.
- Package.swift (build configuration) and the XCTest harness (expectations, set-up and tear-down, printing) are left out.
