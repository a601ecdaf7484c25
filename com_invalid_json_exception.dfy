/**
 * com.gbursali.utils.InvalidJSONException: its three constructors and the message that the
 * constructor taking a file builds.
 */
module ComInvalidJsonException {
  import opened Wrappers
  import opened Platform
  import opened Exceptions
  import opened TextLines

  const FileLabel := "\nRequested file:"
  const FullPathLabel := "\nRequested Full path:"

  /** The constructor without arguments: no detail message. */
  function NoDetail(): (e: Exception)
    ensures e.InvalidJson? && e.pkg == ComGbursali && e.message.None?
  {
    InvalidJson(ComGbursali, None)
  }

  /** The constructor taking a message keeps it verbatim. */
  function WithMessage(message: string): (e: Exception)
    ensures e.InvalidJson? && e.pkg == ComGbursali && e.message == Some(message)
  {
    InvalidJson(ComGbursali, Some(message))
  }

  /**
   * buildMessage: the message, then a line naming the requested file, then a line naming its
   * absolute form (`fullPath` is file.toAbsolutePath()).
   */
  function BuildMessage(message: string, file: Path, fullPath: Path): (r: string)
    ensures |r| == |message| + |FileLabel| + |file.text| + |FullPathLabel| + |fullPath.text|
    ensures r[..|message|] == message
    ensures r[|message|..|message| + |FileLabel|] == FileLabel
    ensures r[|r| - |fullPath.text|..] == fullPath.text
  {
    var withFile := message + FileLabel + file.text;
    withFile + FullPathLabel + fullPath.text
  }

  /** The constructor taking a message and a file. */
  function WithFile(message: string, file: Path, fs: FileSystem): (e: Exception)
    ensures e.InvalidJson? && e.pkg == ComGbursali && e.message == Some(BuildMessage(message, file, fs.absolute(file)))
    ensures |e.message.value| > |message| && e.message.value[..|message|] == message
  {
    InvalidJson(ComGbursali, Some(BuildMessage(message, file, fs.absolute(file))))
  }

  /**
   * Read line by line, the built message is the original message's lines followed by exactly
   * two more: first the requested file, then its full path.
   */
  lemma MessageLines(message: string, file: Path, fullPath: Path)
    requires '\n' !in file.text && '\n' !in fullPath.text
    ensures Lines(BuildMessage(message, file, fullPath))
         == Lines(message) + ["Requested file:" + file.text, "Requested Full path:" + fullPath.text]
  {
    var fileLine := "Requested file:" + file.text;
    var pathLine := "Requested Full path:" + fullPath.text;
    assert '\n' !in fileLine && '\n' !in pathLine;
    assert BuildMessage(message, file, fullPath) == message + "\n" + (fileLine + "\n" + pathLine);
    LinesOfJoin(message, fileLine + "\n" + pathLine);
    LinesOfJoin(fileLine, pathLine);
    LinesOfOneLine(fileLine);
    LinesOfOneLine(pathLine);
  }
}
