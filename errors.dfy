/** The Python exceptions the modelled code can raise. */
module Errors {

  datatype Error =
    | AttributeError(name: string)      // an attribute that the object does not have
    | TypeError                         // `str + int`, `int(True, 0)`, ...
    | AssertionError                    // a failed `assert`
    | ValueError(detail: string)        // `int(s, 0)` on a malformed literal (the literal),
                                        // or `deque(maxlen=n)` with n < 0 (Python's message)
    | HelpRequest                       // `Arguments.HelpRequest`
    | MissingOptions(names: seq<string>) // the `getopt.GetoptError` for missing required options
}

