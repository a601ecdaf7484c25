/**
 * space.gbsdev.utils.InvalidJSONException: two constructors and the `make` factory, which
 * returns (does not throw) an exception whose message names a file. The class is not
 * com.gbursali's InvalidJSONException, though its messages are built the same way.
 */
module SpaceInvalidJsonException {
  import opened Wrappers
  import opened Platform
  import opened Exceptions
  import ComInvalidJsonException

  /** The constructor without arguments: no detail message. */
  function NoDetail(): (e: Exception)
    ensures e.InvalidJson? && e.pkg == SpaceGbsdev && e.message.None?
  {
    InvalidJson(SpaceGbsdev, None)
  }

  /** The constructor taking a message keeps it verbatim. */
  function WithMessage(message: string): (e: Exception)
    ensures e.InvalidJson? && e.pkg == SpaceGbsdev && e.message == Some(message)
  {
    InvalidJson(SpaceGbsdev, Some(message))
  }

  /**
   * make: appends the requested-file line and the full-path line to the message and returns
   * a new exception carrying it. The text is the one com.gbursali's buildMessage produces.
   */
  function Make(message: string, file: Path, fs: FileSystem): (e: Exception)
    ensures e.InvalidJson? && e.pkg == SpaceGbsdev && e.message.Some?
    ensures e.message.value == ComInvalidJsonException.BuildMessage(message, file, fs.absolute(file))
    ensures e.message.value[..|message|] == message
  {
    var withFile := message + "\nRequested file:" + file.text;
    var withPath := withFile + "\nRequested Full path:" + fs.absolute(file).text;
    InvalidJson(SpaceGbsdev, Some(withPath))
  }
}
