/** promptUserStr: write a prompt to a connection and read one newline-terminated answer. */
module Prompt {
  import opened Wire
  import opened Text

  /** The answer read back: the text with its newline trimmed, whether the read hit end of
      stream (io.EOF), and what is left of the input after the read. */
  datatype Reply = Reply(response: string, atEof: bool, rest: string)

  /** Writes prompt to connection h, reads up to the first newline of input and trims that
      one newline. At end of stream the text read comes back as it is, with atEof set. */
  function PromptUserStr(wire: seq<Write>, h: Handle, prompt: string, input: string)
    : (r: (seq<Write>, Reply))
    ensures r.0 == wire + [Write(h, prompt)]
    ensures '\n' !in r.1.response
    ensures !r.1.atEof ==> input == r.1.response + "\n" + r.1.rest
    ensures r.1.atEof ==> r.1.response == input && r.1.rest == []
  {
    var read := ReadString(input);
    var reply :=
      match read
      case Line(l, rest) => Reply(TrimSuffix(l, "\n"), false, rest)
      case AtEof(f) => Reply(TrimSuffix(f, "\n"), true, []);
    (wire + [Write(h, prompt)], reply)
  }

  /** Inverse of the framing: an answer without newlines, sent with its newline, is read
      back exactly, and the text after it is left unread. */
  lemma PromptUserStrReadsAnswer(wire: seq<Write>, h: Handle, prompt: string,
                                 answer: string, rest: string)
    requires '\n' !in answer
    ensures PromptUserStr(wire, h, prompt, answer + "\n" + rest).1 == Reply(answer, false, rest)
  {
    var l := answer + "\n";
    assert l[..|l| - 1] == answer;
    ReadStringOfLine(l, rest);
  }
}
