/** The process console, reduced to the record of what was written to it. */
module Output {

  /** Each call of `console.log` appends its argument as one entry. */
  class Console {
    var lines: seq<string>

    constructor()
      ensures lines == []
    {
      lines := [];
    }

    method Log(text: string)
      modifies this
      ensures lines == old(lines) + [text]
    {
      lines := lines + [text];
    }
  }
}
