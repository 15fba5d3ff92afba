/** Failure-compatible wrappers and the error conditions of the configuration generator.
    Every way the generator script can stop before its write, a failed `assert` or a
    raised exception, is one `Error` here. */
module Outcomes {

  datatype Option<+T> = None | Some(value: T)

  /** Why a run stops. Each variant names the key, path or token at fault. */
  datatype Error =
    | MissingTemplate                      // rec_multi_language_lite_train.yml is not in the working directory
    | MalformedOption(option: string)      // an -o option does not split on '=' into exactly two parts
    | UnparsableValue(text: string)        // the value of an -o option is not valid YAML
    | MissingLanguage                      // no -l argument
    | UnsupportedLanguage(token: string)   // the token is neither in the registry nor in a family list
    | InvalidPath(path: seq<string>)       // a path descends through a missing key or a non-mapping
    | NotAMapping(key: string)             // a mapping override on a top-level value that is not a mapping
    | UnknownRootKey(root: string)         // a dotted override whose first segment is not a top-level key
    | MissingDictionary(family: string)    // ppocr/utils/dict/{family}_dict.txt is not a file
    | MissingFile(file: string)            // a shortcut path does not exist under the project root

  datatype Result<+T> = Ok(value: T) | Err(error: Error)
  {
    predicate IsFailure() { Err? }

    function PropagateFailure<U>(): Result<U>
      requires Err?
    {
      Err(error)
    }

    function Extract(): T
      requires Ok?
    {
      value
    }
  }
}
