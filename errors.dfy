/**
  The exceptions the parser raises, grouped by the Python class that carries
  them.  Every failure aborts the parse call that raised it.
*/
module Errors {

  /** Reasons an `ArgumentRejectedError` is raised. */
  datatype Rejection =
    | DashOnly          // a bare `-` or `--` token
    | UnsupportedName   // `--x`/`-x` with x undeclared and no kwargs collector
    | NoVarargs         // a positional token with nothing left to bind and no varargs
    | SwitchAsKwarg     // `-x` with x undeclared (kwargs take no switches)
    | KwargExists       // a kwarg name supplied twice
    | AlreadySet        // a declared name bound twice
    | NotASwitch        // `-x` for a declared x that is not a switch
    | ValidationFailed  // the validator refused a segment, or raised
    | AdapterFailed     // an adapter of the chain raised
    | BelowMin          // the length or value is smaller than `min`
    | AboveMax          // the length or value is greater than `max`

  /** Reasons an `ArgumentMissingError` is raised. */
  datatype Absence =
    | NamedValue        // `--x` is the last token
    | KwargValue        // `--x` (x a kwarg) is the last token
    | RequiredArgument  // a required parameter was never bound

  /** What a `RequestHelpError` asks to be shown. */
  datatype Help =
    | Usage                    // no tokens at all: basic usage
    | Detailed(option: string) // a help option: help of every route
    | RouteHelp(route: string) // a help option followed by a route name

  /** Reasons the base class `ArgzError` itself is raised. */
  datatype Problem =
    | RouteExists   // a route registered twice under one name
    | KwargShadow   // a kwarg name equal to a bound parameter name

  /** Exceptions that are not `ArgzError`s and escape the parser. */
  datatype Crash =
    | NoTargets           // parsing with no route registered
    | ShadowsRouteMembers // a parameter named like an attribute of the route object
    | SameNameAsMember    // a route named like an attribute of the registry (an assert)
    | NotAList            // the varargs adapters did not return a list (an assert)
    | NotADict            // the kwargs adapters did not return a dict (an assert)
    | Incomparable        // min/max compared with a value Python 3 cannot order against an int

  datatype Failure =
    | Rejected(why: Rejection, subject: string)
    | Missing(what: Absence, subject: string)
    | MissingRoute(token: string)
    | HelpRequested(help: Help)
    | General(problem: Problem, subject: string)
    | Uncaught(crash: Crash, subject: string)
}
