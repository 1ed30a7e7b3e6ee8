/** The errors that the taskfile loader and the include registry produce or
    pass on. */
module Errors {

  datatype Error =
      /** `taskFileNotFound{path}`: none of `path.yml`, `path.json`, `path.toml` exists. */
    | TaskFileNotFound(path: string)
      /** Any other error, carried by its message: a decoder's, the word expander's,
          or one built with `errors.New`. */
    | Failed(message: string)
      /** `fmt.Errorf("task: error resolving path %s relative to %s: %w", ...)`:
          making a relative include path absolute failed. */
    | ResolvePathFailed(path: string, baseDir: string, cause: Error)

  /** The error returned when the value of `includes` is not a YAML mapping. */
  const IncludesNotAMap: Error := Failed("task: includes is not a map")
}
