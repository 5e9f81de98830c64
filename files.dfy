/**
 * The filesystem as the hot-reload layer observes it, and the OS watch
 * registry (QFileSystemWatcher) as a plain set of registered paths.
 */
module Files {

  /** What stat() and a read of one existing file report. `readable` is false
      when the file exists but cannot be opened. */
  datatype FileStat = FileStat(size: int, mtime: int, readable: bool, content: string)

  /** A missing path is a path that is not a key of the map. */
  type FileSystem = map<string, FileStat>

  /** DataManager::safeReadFile: the file's text, or the empty string when the
      file is missing or cannot be opened. */
  function ReadFile(fs: FileSystem, path: string): (r: string)
    ensures r == [] <==> path !in fs || !fs[path].readable || fs[path].content == []
    ensures r != [] ==> r == fs[path].content
  {
    if path in fs && fs[path].readable then fs[path].content else ""
  }

  /** QFileSystemWatcher::addPath: a path is accepted only when the file exists;
      adding a registered path changes nothing. */
  function AddPath(registered: set<string>, fs: FileSystem, path: string): (r: set<string>)
    ensures forall q :: q in r <==> q in registered || (q == path && path in fs)
  {
    if path in fs then registered + {path} else registered
  }
}
