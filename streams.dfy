/** The output stream the printers write to (`std::ostream`), reduced to the text written so far. */
module Streams {
  /** An output stream: text is only ever appended to it. */
  class Stream {
    var text: string

    /** A fresh stream has nothing written to it. */
    constructor()
      ensures text == ""
    {
      text := "";
    }

    /** `out << s`: appends `s` and changes nothing else. */
    method Write(s: string)
      modifies this
      ensures text == old(text) + s
    {
      text := text + s;
    }
  }
}
