/** formatMessage (src/lib/logger.ts): the line every log call prints. The console calls and the
    development switch around them are left out. */
module Logger {
  import opened Wrappers
  import opened Strings

  const Tag := "[10x-Flashcards]"

  /** The parts pushed: the tag, the bracketed context when it is a non-empty string, the message. */
  function Parts(message: string, context: Option<string>): (ps: seq<string>)
    ensures 2 <= |ps| <= 3
    ensures ps[0] == Tag && ps[|ps| - 1] == message
    ensures |ps| == 3 <==> context.Some? && context.value != ""
    ensures |ps| == 3 ==> ps[1] == "[" + context.value + "]"
  {
    if context.Some? && context.value != "" then [Tag, "[" + context.value + "]", message] else [Tag, message]
  }

  /** formatMessage: the parts array built by pushes, then joined with single spaces. */
  method FormatMessage(message: string, context: Option<string>) returns (line: string)
    ensures line == Join(Parts(message, context), " ")
  {
    var parts := [Tag];
    if context.Some? && context.value != "" {
      parts := parts + ["[" + context.value + "]"];
    }
    parts := parts + [message];
    assert parts == Parts(message, context);
    line := Join(parts, " ");
  }

  /** The line starts with the tag and ends with the message; the context sits between them
      exactly when present and non-empty. */
  lemma LineShape(message: string, context: Option<string>)
    ensures var line := Join(Parts(message, context), " ");
            StartsWith(line, Tag + " ") &&
            line == Tag + " " + (if context.Some? && context.value != "" then "[" + context.value + "] " else "") + message
  {
    var ps := Parts(message, context);
    if |ps| == 3 {
      assert Join(ps, " ") == ps[0] + " " + Join(ps[1..], " ");
      assert Join(ps[1..], " ") == ps[1] + " " + Join(ps[2..], " ");
    } else {
      assert Join(ps, " ") == ps[0] + " " + Join(ps[1..], " ");
    }
    var line := Join(ps, " ");
    assert line[..|Tag + " "|] == Tag + " ";
  }
}
