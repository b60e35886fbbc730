/** Tokens and command trees: what the scanner hands to the parser and what the parser builds. */
module Syntax {

  /** The token kinds of parser.y, in declaration order. */
  datatype Kind =
    | WORD | COMMAND | FILENAME | BACKGROUND | PIPE | PIPE_ERROR | SEMICOLON
    | REDIRECT_IN | REDIRECT_OUT | REDIRECT_ERROR | APPEND | APPEND_ERROR
    | STRING | LOGICAL_AND | LOGICAL_OR | EOLN | YEOF

  datatype Token = Token(kind: Kind, text: string)

  /** Internal (translated) number of a token kind; the external number is 255 more. */
  function Code(k: Kind): (c: int)
    ensures 3 <= c <= 19
  {
    match k
    case WORD => 3 case COMMAND => 4 case FILENAME => 5 case BACKGROUND => 6
    case PIPE => 7 case PIPE_ERROR => 8 case SEMICOLON => 9
    case REDIRECT_IN => 10 case REDIRECT_OUT => 11 case REDIRECT_ERROR => 12
    case APPEND => 13 case APPEND_ERROR => 14 case STRING => 15
    case LOGICAL_AND => 16 case LOGICAL_OR => 17 case EOLN => 18 case YEOF => 19
  }

  /** A line ends at EOLN or YEOF. */
  predicate IsTerminator(t: Token) {
    t.kind.EOLN? || t.kind.YEOF?
  }

  /** `zCmd`, `azArgs` (slot 0 is the short name), the background flag, the redirects, `pcNext`. */
  datatype Command =
    Command(zCmd: string, args: seq<string>, background: bool, redirects: Redirects, next: Commands)

  datatype Commands = NoCommand | Some(command: Command)

  /** A redirect list, linked through `prNext`. */
  datatype Redirects =
    | NoRedirect
    | File(kind: Kind, name: string, next: Redirects)
    | Pipe(kind: Kind, command: Command, next: Redirects)
}
