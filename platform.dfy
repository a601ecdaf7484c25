/**
 * java.nio paths and the file system, as an oracle: which paths exist, what reading a path
 * yields, and the path library's resolve, toAbsolutePath and Path.of.
 */
module Platform {
  import opened Wrappers

  /** A java.nio.file.Path, through its toString form. */
  datatype Path = Path(text: string)

  datatype FileSystem = FileSystem(
    existing: set<Path>,          // File.exists
    contents: map<Path, string>,  // Files.readString; a path not in the map throws IOException
    resolve: (Path, Path) -> Path, // Path.resolve
    absolute: Path -> Path,        // Path.toAbsolutePath
    pathOf: string -> Path         // Path.of
  )

  /** Files.readString; `None` stands for the IOException. */
  function ReadString(fs: FileSystem, p: Path): (r: Option<string>)
    ensures r.Some? <==> p in fs.contents
    ensures r.Some? ==> r.value == fs.contents[p]
  {
    if p in fs.contents then Some(fs.contents[p]) else None
  }
}
