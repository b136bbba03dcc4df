/**
 * The terminal the ledger talks to: the readline interface that answers each
 * prompt with one line of input, and the console whose `log` prints a line.
 * A line of input is known only through what the two parsers make of it.
 */
module TerminalIo {
  import opened Wrappers

  /** What `parseFloat` makes of an amount line, in whole cents. */
  datatype Amount = NaN | Num(cents: int)

  /** What `parseInt` makes of a menu-choice line. */
  datatype Choice = NaN | Int(k: int)

  /** One line typed by the user, as both parsers read it. */
  datatype Line = Line(asChoice: Choice, asAmount: Amount)

  class Terminal {
    /** Lines the user has yet to type, in order. */
    var input: seq<Line>
    /** Every line printed so far, in order. */
    var output: seq<string>

    constructor(lines: seq<Line>)
      ensures input == lines && output == []
    {
      input := lines;
      output := [];
    }

    /** `console.log`: prints one line. */
    method Log(line: string)
      modifies this
      ensures output == old(output) + [line]
      ensures input == old(input)
    {
      output := output + [line];
    }

    /** `rl.question`: waits for the next line; None when no line ever comes. */
    method Question() returns (answer: Option<Line>)
      modifies this
      ensures old(input) == [] ==> answer == None && input == []
      ensures old(input) != [] ==> answer == Some(old(input)[0]) && input == old(input)[1..]
      ensures output == old(output)
    {
      if input == [] {
        answer := None;
      } else {
        answer := Some(input[0]);
        input := input[1..];
      }
    }
  }
}
