/** Observable output of a run, as abstract events instead of formatted text.
    Messages the program writes to the error stream and values it writes to the
    output stream are both recorded, in order. */
module Output {
  import opened Values

  datatype Event =
    /** The top value, printed with the default `%g` format. */
    | Top(v: Value)
    /** The "(stack empty)" indicator of a peek on an empty stack. */
    | StackEmpty
    /** The "=> " prefix shown before an interactive result. */
    | ResultArrow
    /** A value removed by the `pop` builtin, printed with `%.6g`. */
    | Popped(v: Value)
    /** "Invalid number: <token>". */
    | InvalidNumber(token: string)
    /** "Invalid operator: <token>". */
    | InvalidOperator(token: string)
    /** "Command not found: '<word>'.". */
    | CommandNotFound(word: string)
    /** The help text: one (name, description) line per entry, in order. */
    | HelpListing(entries: seq<(string, string)>)
    /** The greeting printed when an interactive session starts. */
    | Banner(text: string)
    /** "No result (stack empty)", the single-file variant's empty report. */
    | NoResult
}
