/**
 * The conditions on which the plugin generator logs a diagnostic and exits.
 * Each one is terminal: nothing is retried and nothing after it runs.
 */
module Failures {

  datatype Failure =
      /** A cursor read past the end of the argument list: what was expected,
          where it was expected, and every argument (for the diagnostic). */
    | MissingArgument(description: string, position: nat, arguments: seq<string>)
      /** A value given to `--output` that is neither `gohome` nor `stdout`. */
    | InvalidOutputValue(value: string)
      /** A plugin name that does not start with `buffalo-`. */
    | InvalidPluginName(name: string)
      /** A plugin name whose suffix holds no letter or digit. */
    | EmptyDerivedIdentifier(name: string)
}
