/** The output stream both collectors write to (a file, or standard output). */
module Output {

  class Sink {
    /** Everything written so far. */
    var text: string

    constructor ()
      ensures text == ""
    {
      text := "";
    }

    /** `output_file.write(s)`. */
    method Write(s: string)
      modifies this
      ensures text == old(text) + s
    {
      text := text + s;
    }
  }
}
