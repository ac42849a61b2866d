/** JSON files the program reads, as already-decoded objects with string values. */
module JsonFiles {
  import opened Wrappers

  /** What json.load makes of a file that exists. */
  datatype JsonDocument = Unparsable | Object(entries: map<string, string>)

  /** The exception a read raises: FileNotFoundError, or a decoding error. */
  datatype ReadError = NotFound(path: string) | Malformed(path: string)

  /** open(path) followed by json.load over a read-only set of files; a path absent from `files` does not exist. */
  function ReadObject(files: map<string, JsonDocument>, path: string): (r: Result<map<string, string>, ReadError>)
    ensures r.Success? <==> path in files && files[path].Object?
    ensures r.Success? ==> r.value == files[path].entries
    ensures r.Failure? ==> r.error.path == path && (r.error.NotFound? <==> path !in files)
  {
    if path !in files then Failure(NotFound(path))
    else match files[path]
      case Unparsable => Failure(Malformed(path))
      case Object(entries) => Success(entries)
  }
}
