/** The three editing modes and the texts the plugin derives from them. */
module Modes {

  datatype Mode = CMD | INSERT | CMDLINE

  datatype Option<T> = None | Some(value: T)

  /** The value the `vim.mode` condition compares keybinding operands against;
      no two modes share one, so an operand selects exactly one mode. */
  function ToModeText(m: Mode): (r: string)
    ensures m == CMD <==> r == "normal"
    ensures m == INSERT <==> r == "insert"
    ensures m == CMDLINE <==> r == "commandline"
  {
    match m
    case CMD => "normal"
    case INSERT => "insert"
    case CMDLINE => "commandline"
  }

  /** The status-bar text shown on entering a mode; command-line mode shows none. */
  function StatusText(m: Mode): (r: Option<string>)
    ensures r == None <==> m == CMDLINE
    ensures r == Some("CMD") <==> m == CMD
    ensures r == Some("INSERT") <==> m == INSERT
  {
    match m
    case CMD => Some("CMD")
    case INSERT => Some("INSERT")
    case CMDLINE => None
  }
}
