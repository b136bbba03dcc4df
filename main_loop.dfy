/**
 * The main program: a menu loop that reads a choice, dispatches it to the
 * business logic, and repeats while `continueFlag` holds. `Dispatch` and
 * `RunFrom` state what one choice and a whole run do to the observable state;
 * the `MainProgram` class carries them out.
 */
module MainLoop {
  import opened Wrappers
  import opened TerminalIo
  import opened DataLayer
  import opened BusinessLogic
  import opened Money

  const InvalidChoiceMessage: string := "Invalid choice, please select 1-4."
  const GoodbyeMessage: string := "Exiting the program. Goodbye!"

  /** The lines `displayMenu` prints before every prompt for a choice. */
  const MenuLines: seq<string> := [
    "--------------------------------",
    "Account Management System",
    "1. View Balance",
    "2. Credit Account",
    "3. Debit Account",
    "4. Exit",
    "--------------------------------"
  ]

  /** Everything a run can observe or change: the stored balance, the flag, and the terminal. */
  datatype Machine = Machine(balance: int, continueFlag: bool, input: seq<Line>, output: seq<string>)

  /** Finished: the step returned. Starved: a prompt is still waiting for a line that never comes. */
  datatype Outcome = Finished(m: Machine) | Starved(m: Machine)

  predicate IsMenuChoice(choice: Choice) { choice.Int? && 1 <= choice.k <= 4 }

  /** What processing one parsed choice does; `m.input` holds the lines after the choice line. */
  function Dispatch(m: Machine, choice: Choice): (o: Outcome)
    ensures o.m.continueFlag == (m.continueFlag && choice != Int(4))
    ensures o.Starved? <==> (choice == Int(2) || choice == Int(3)) && m.input == []
    ensures o.Starved? ==> o.m == m
    ensures o.m.input == m.input || (m.input != [] && o.m.input == m.input[1..])
    ensures choice != Int(2) && choice != Int(3) ==> o.Finished? && o.m.balance == m.balance && o.m.input == m.input
    ensures choice == Int(1) ==> o.m.output == m.output + [BalanceMessage(m.balance)]
    ensures choice == Int(2) && m.input != [] ==>
              var e := CreditEffect(m.balance, m.input[0].asAmount);
              o == Finished(m.(balance := e.balance, input := m.input[1..], output := m.output + [e.message]))
    ensures choice == Int(3) && m.input != [] ==>
              var e := DebitEffect(m.balance, m.input[0].asAmount);
              o == Finished(m.(balance := e.balance, input := m.input[1..], output := m.output + [e.message]))
    ensures choice == Int(4) ==> o.m.output == m.output
    ensures !IsMenuChoice(choice) ==> o.m.output == m.output + [InvalidChoiceMessage]
    ensures m.balance >= 0 ==> o.m.balance >= 0
    ensures Extends(m.output, o.m.output)
    ensures GoodbyeMessage !in o.m.output[|m.output|..]
  {
    match choice
    case Int(1) =>
      var line := BalanceMessage(m.balance);
      assert line[0] != GoodbyeMessage[0];
      Finished(m.(output := m.output + [line]))
    case Int(2) =>
      if m.input == [] then Starved(m)
      else
        var e := CreditEffect(m.balance, m.input[0].asAmount);
        assert CreditedMessage(e.balance)[0] != GoodbyeMessage[0];
        Finished(m.(balance := e.balance, input := m.input[1..], output := m.output + [e.message]))
    case Int(3) =>
      if m.input == [] then Starved(m)
      else
        var e := DebitEffect(m.balance, m.input[0].asAmount);
        assert DebitedMessage(e.balance)[0] != GoodbyeMessage[0];
        Finished(m.(balance := e.balance, input := m.input[1..], output := m.output + [e.message]))
    case Int(4) => Finished(m.(continueFlag := false))
    case _ => Finished(m.(output := m.output + [InvalidChoiceMessage]))
  }

  lemma MenuNeverSaysGoodbye()
    ensures GoodbyeMessage !in MenuLines
  {
  }

  /** One pass of the loop body: print the menu, wait for a choice line, dispatch it. */
  function Iterate(m: Machine): (o: Outcome)
    ensures |m.output| + |MenuLines| <= |o.m.output|
    ensures o.m.output[|m.output|..|m.output| + |MenuLines|] == MenuLines
    ensures m.input == [] ==> o == Starved(m.(output := m.output + MenuLines))
    ensures m.input != [] ==>
              o == Dispatch(m.(input := m.input[1..], output := m.output + MenuLines), m.input[0].asChoice)
    ensures o.Finished? ==> m.input != [] && (o.m.continueFlag <==> m.continueFlag && m.input[0].asChoice != Int(4))
    ensures o.Finished? ==> o.m.input == m.input[1..] || (|m.input| > 1 && o.m.input == m.input[2..])
    ensures |o.m.input| <= |m.input|
    ensures m.balance >= 0 ==> o.m.balance >= 0
    ensures Extends(m.output, o.m.output)
    ensures GoodbyeMessage !in o.m.output[|m.output|..]
  {
    var shown := m.(output := m.output + MenuLines);
    MenuNeverSaysGoodbye();
    assert shown.output[|m.output|..] == MenuLines;
    if m.input == [] then Starved(shown)
    else
      var o := Dispatch(shown.(input := m.input[1..]), m.input[0].asChoice);
      AbsentFromJoinAll(GoodbyeMessage, m.output, shown.output, o.m.output);
      o
  }

  /**
   * What the loop does from `m` on: while the flag holds, run the loop body;
   * once it is cleared, print the goodbye.
   */
  function RunFrom(m: Machine): (o: Outcome)
    decreases |m.input|
    ensures o.Finished? ==> !o.m.continueFlag
    ensures |o.m.input| <= |m.input|
  {
    if !m.continueFlag then
      Finished(m.(output := m.output + [GoodbyeMessage]))
    else
      match Iterate(m)
      case Starved(next) => Starved(next)
      case Finished(next) => RunFrom(next)
  }

  /** A run started from a non-negative balance never leaves it negative, whatever the input. */
  lemma {:induction false} RunKeepsBalanceNonNegative(m: Machine)
    requires m.balance >= 0
    ensures RunFrom(m).m.balance >= 0
    decreases |m.input|
  {
    if m.continueFlag && Iterate(m).Finished? {
      RunKeepsBalanceNonNegative(Iterate(m).m);
    }
  }

  /** One finished pass consumes a non-empty prefix of the input, and a pass that clears the flag consumed exactly a choice of 4. */
  lemma IterateConsumesPrefix(m: Machine)
    requires m.continueFlag && Iterate(m).Finished?
    ensures var n := Iterate(m).m;
            && |n.input| < |m.input|
            && n.input == m.input[|m.input| - |n.input|..]
            && (!n.continueFlag ==> n.input == m.input[1..] && m.input[0].asChoice == Int(4))
  {
  }

  /**
   * A running loop that finishes does so right after reading a choice of 4,
   * and leaves the lines after it unread.
   */
  lemma {:induction false} RunEndsAfterExitChoice(m: Machine)
    requires m.continueFlag
    requires RunFrom(m).Finished?
    ensures var rest := RunFrom(m).m.input;
            && |rest| < |m.input|
            && rest == m.input[|m.input| - |rest|..]
            && m.input[|m.input| - |rest| - 1].asChoice == Int(4)
    decreases |m.input|
  {
    var step := Iterate(m);
    assert step.Finished? && RunFrom(m) == RunFrom(step.m);
    var next := step.m;
    IterateConsumesPrefix(m);
    var rest := RunFrom(m).m.input;
    if next.continueFlag {
      RunEndsAfterExitChoice(next);
      assert m.input[|m.input| - |next.input|..][|next.input| - |rest|..] == m.input[|m.input| - |rest|..];
    } else {
      assert rest == next.input;
    }
  }

  /** A run starves only when a prompt finds the input used up. */
  lemma {:induction false} StarvesOnlyWhenExhausted(m: Machine)
    ensures RunFrom(m).Starved? ==> RunFrom(m).m.input == []
    decreases |m.input|
  {
    if m.continueFlag && Iterate(m).Finished? {
      StarvesOnlyWhenExhausted(Iterate(m).m);
    }
  }

  /** `out` is `before` followed by more lines. */
  predicate Extends(before: seq<string>, out: seq<string>) { |before| <= |out| && out[..|before|] == before }

  /** The lines `out` adds to `before` end with the goodbye and hold it nowhere else. */
  predicate GoodbyeOnceLast(before: seq<string>, out: seq<string>)
    requires Extends(before, out)
  {
    |out| > |before| && out[|out| - 1] == GoodbyeMessage && GoodbyeMessage !in out[|before|..|out| - 1]
  }

  /** `x` is absent from what `b` adds to `a` and from what `c` adds to `b`, hence from what `c` adds to `a`. */
  lemma AbsentFromJoinAll(x: string, a: seq<string>, b: seq<string>, c: seq<string>)
    requires Extends(a, b) && x !in b[|a|..]
    requires Extends(b, c) && x !in c[|b|..]
    ensures Extends(a, c) && x !in c[|a|..]
  {
  }

  /**
   * What a run starting from output `before` prints: more lines after `before`,
   * ending with a single goodbye if the run finished, and no goodbye at all if
   * it starved.
   */
  predicate PrintsGoodbyeOnceLast(before: seq<string>, o: Outcome)
  {
    && Extends(before, o.m.output)
    && (o.Finished? ==> GoodbyeOnceLast(before, o.m.output))
    && (o.Starved? ==> GoodbyeMessage !in o.m.output[|before|..])
  }

  lemma GoodbyeAppended(m: Machine)
    ensures PrintsGoodbyeOnceLast(m.output, Finished(m.(output := m.output + [GoodbyeMessage])))
  {
  }

  lemma ShapeAfterStep(before: seq<string>, mid: seq<string>, o: Outcome)
    requires Extends(before, mid) && GoodbyeMessage !in mid[|before|..]
    requires PrintsGoodbyeOnceLast(mid, o)
    ensures PrintsGoodbyeOnceLast(before, o)
  {
  }

  /** The output of a run extends the old output; the goodbye appears once, as the last line, exactly when the run finishes. */
  lemma {:induction false} RunPrintsGoodbyeOnceLast(m: Machine)
    ensures PrintsGoodbyeOnceLast(m.output, RunFrom(m))
    decreases |m.input|
  {
    if !m.continueFlag {
      GoodbyeAppended(m);
    } else {
      var step := Iterate(m);
      if step.Finished? {
        RunPrintsGoodbyeOnceLast(step.m);
        ShapeAfterStep(m.output, step.m.output, RunFrom(step.m));
      }
    }
  }

  /** Choosing 4 first exits at once: one menu, the goodbye, the balance untouched, the rest of the input unread. */
  lemma ExitAtOnce(balance: int, exit: Line, rest: seq<Line>, output: seq<string>)
    requires exit.asChoice == Int(4)
    ensures RunFrom(Machine(balance, true, [exit] + rest, output))
            == Finished(Machine(balance, false, rest, output + MenuLines + [GoodbyeMessage]))
  {
  }

  /** A fresh program that is asked to view the balance and then to exit. */
  lemma ViewThenExit(view: Line, exit: Line, rest: seq<Line>)
    requires view.asChoice == Int(1) && exit.asChoice == Int(4)
    ensures RunFrom(Machine(InitialBalance, true, [view, exit] + rest, []))
            == Finished(Machine(InitialBalance, false, rest,
                                MenuLines + ["Current balance: 1000.00"] + MenuLines + [GoodbyeMessage]))
  {
    FormatThousand();
    var m := Machine(InitialBalance, true, [view, exit] + rest, []);
    var viewed := Machine(InitialBalance, true, [exit] + rest, MenuLines + ["Current balance: 1000.00"]);
    assert m.input[1..] == [exit] + rest;
    var shown := m.(output := MenuLines);
    assert [] + MenuLines == MenuLines;
    assert BalanceMessage(InitialBalance) == "Current balance: 1000.00";
    assert Dispatch(shown.(input := [exit] + rest), Int(1)) == Finished(viewed);
    assert Iterate(m) == Finished(viewed);
    ExitAtOnce(InitialBalance, exit, rest, viewed.output);
  }

  class MainProgram {
    const terminal: Terminal
    const dataProgram: DataProgram
    const operations: Operations
    var continueFlag: bool

    /** The operations act on this program's own store and terminal. */
    ghost predicate Valid()
    {
      operations.dataProgram == dataProgram && operations.terminal == terminal
    }

    ghost function State(): Machine
      reads this, dataProgram, terminal
    {
      Machine(dataProgram.storageBalance, continueFlag, terminal.input, terminal.output)
    }

    /** A fresh store at 1000.00, a terminal that will answer with `lines`, and the flag set. */
    constructor(lines: seq<Line>)
      ensures Valid()
      ensures fresh(terminal) && fresh(dataProgram) && fresh(operations)
      ensures State() == Machine(InitialBalance, true, lines, [])
    {
      var rl := new Terminal(lines);
      var store := new DataProgram();
      terminal := rl;
      dataProgram := store;
      operations := new Operations(store, rl);
      continueFlag := true;
    }

    method DisplayMenu()
      modifies terminal
      ensures terminal.output == old(terminal.output) + MenuLines
      ensures terminal.input == old(terminal.input)
    {
      terminal.Log(MenuLines[0]);
      terminal.Log(MenuLines[1]);
      terminal.Log(MenuLines[2]);
      terminal.Log(MenuLines[3]);
      terminal.Log(MenuLines[4]);
      terminal.Log(MenuLines[5]);
      terminal.Log(MenuLines[6]);
    }

    /** Dispatches one choice line; `answered` is false when an amount prompt gets no line. */
    method ProcessChoice(choice: Line) returns (answered: bool)
      requires Valid()
      modifies this, dataProgram, terminal
      ensures var o := Dispatch(old(State()), choice.asChoice);
              State() == o.m && answered == o.Finished?
    {
      answered := true;
      match choice.asChoice
      case Int(1) => operations.ViewBalance();
      case Int(2) => answered := operations.Credit();
      case Int(3) => answered := operations.Debit();
      case Int(4) => continueFlag := false;
      case _ => terminal.Log(InvalidChoiceMessage);
    }

    /** The menu loop; `completed` is false when a prompt gets no line. */
    method Run() returns (completed: bool)
      requires Valid()
      modifies this, dataProgram, terminal
      ensures var o := RunFrom(old(State()));
              State() == o.m && completed == o.Finished?
      ensures old(State()).balance >= 0 ==> State().balance >= 0
    {
      if State().balance >= 0 {
        RunKeepsBalanceNonNegative(State());
      }
      while continueFlag
        invariant RunFrom(State()) == RunFrom(old(State()))
        decreases |terminal.input|
      {
        DisplayMenu();
        var answer := terminal.Question();
        if answer.None? {
          return false;
        }
        var answered := ProcessChoice(answer.value);
        if !answered {
          return false;
        }
      }
      terminal.Log(GoodbyeMessage);
      completed := true;
    }
  }
}
