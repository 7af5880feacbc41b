/** JSON as the stream code sees it: texts that parse or do not, and what may be re-printed from them. */
module JsonTexts {
  import opened OrderedDict

  /** What `json.loads` makes of a text. */
  datatype Parse = NotJson | NotObject | Object

  /** The JSON library, the request's tool schemas and the provider's argument aliases. */
  datatype Json = Json(
    parse: string -> Parse,
    valid: (string, string) -> bool,         // does this tool's schema accept this (object) text?
    foreground: string -> string,            // re-printed with run_in_background forced to false
    inForeground: string -> bool,            // an object in which run_in_background is false
    aliased: string -> bool,                 // does this tool have argument aliases?
    restore: (string, string) -> string)     // re-printed with this tool's aliases undone
  {
    /** `parse_complete_tool_input(raw, name, schemas) is not None`. */
    predicate Complete(raw: string, name: string) {
      parse(raw).Object? && valid(name, raw)
    }

    /** `_restore_aliased_tool_arguments`. */
    function Restored(name: string, raw: string): Option<string> {
      match parse(raw)
      case NotJson => None
      case NotObject => Some(raw)
      case Object => Some(restore(name, raw))
    }
  }
}
