# Account ledger, modelled in Dafny

A model of a single-account ledger ported from a three-program COBOL
application. A store holds one balance, which starts at 1000.00. A business
layer views it, credits it and debits it. Debits have overdraft protection.
A menu loop reads choices from the user until the user picks "4. Exit".

Money is held as whole cents in an unbounded `int`, which is the
fixed-point meaning (`PIC 9(6)V99`) the code notes. The three source classes
are three Dafny classes. Each keeps its fields, except that the readline
field `rl` is renamed `terminal`:

- `DataLayer.DataProgram` holds `storageBalance`.
- `BusinessLogic.Operations` holds constant references to the store and the terminal.
- `MainLoop.MainProgram` holds those references, the `operations` object and `continueFlag`.

The readline interface and `console.log` together become
`TerminalIo.Terminal`. It holds the lines the user will type (`input`) and
every line printed so far (`output`).

The rules are stated once, as functions on values:

- `CreditEffect` and `DebitEffect` give the balance and the printed line for one operation.
- `Dispatch` handles one menu choice.
- `Iterate` is one pass of the loop body.
- `RunFrom` is a whole run.

Each of these works on a `Machine` record holding the balance, the flag, the
pending input and the output. The class methods are proved to carry these
rules out on the heap. For example, `Run`'s loop keeps
`RunFrom(State()) == RunFrom(old(State()))`. Lemmas prove what the rules
promise:

- the balance never goes negative;
- rejected amounts change nothing;
- debiting the whole balance leaves 0.00;
- a run ends right after a choice of 4, printing the goodbye exactly once and last;
- every printed amount reads back as the exact number of cents.

Parsing is abstract. An input line (`TerminalIo.Line`) carries what
`parseInt` makes of it (`Choice`: `NaN` or `Int(k)`) and what `parseFloat`
makes of it (`Amount`: `NaN` or `Num(cents)`). If the input runs out while a
prompt is waiting, the run cannot go on. The model records this as a
`Starved` outcome: nothing further happens and no goodbye is printed.

Three facts about the code shape the model:

- The menu prints seven lines: two separators, a title and the four choices (src/accounting/index.js:134-140).
- `parseFloat` accepts a numeric prefix of an amount line, so "12abc" reads as 12. The model abstracts the parse.
- A prompt that never gets a line never resolves, so the loop never resumes and no goodbye is printed.

## Model

| member | source | states |
|---|---|---|
| `DataLayer.DataProgram.constructor` | src/accounting/index.js:19-22 | a new store holds 1000.00 (100000 cents) |
| `DataLayer.DataProgram.Read` | src/accounting/index.js:28-30 | returns the stored balance and changes nothing, so two reads with no write between them agree |
| `DataLayer.DataProgram.Write` | src/accounting/index.js:36-38 | the stored balance becomes the argument, unconditionally |
| `DataLayer.WriteThenReadTwice` | src/accounting/index.test.js:425-439 | after `write(b)`, two reads both return `b` |
| `DataLayer.FreshStoreRead` | src/accounting/index.test.js:26-29 | reading a fresh store gives 1000.00 |
| `Money.FormatCents` | src/accounting/index.js:56 | the two-decimal rendering has exactly one point, with exactly two digits after it, starts with '-' exactly when the value is negative, and its whole part is "0" or has no leading zero |
| `Money.FormatRoundTrip` | src/accounting/index.js:56 | reading the rendering back gives the same number of cents, so `toFixed(2)` on exact cents loses nothing |
| `Money.FormatInjective` | src/accounting/index.js:56 | two different balances never print the same |
| `Money.FormatThousand` | src/accounting/index.test.js:70-80 | 1000.00 prints as "1000.00" |
| `TerminalIo.Terminal.constructor` | src/accounting/index.js:120-123 | the interface starts with the user's pending lines and nothing printed |
| `TerminalIo.Terminal.Log` | src/accounting/index.js:56 | `console.log` appends exactly one line to the output and reads no input |
| `TerminalIo.Terminal.Question` | src/accounting/index.js:65 | a prompt consumes exactly the next pending line, or yields nothing when no line is left; it prints nothing |
| `BusinessLogic.CreditEffect` | src/accounting/index.js:63-81 | a NaN or negative amount leaves the balance and prints the invalid-amount message; otherwise the balance grows by exactly the amount (zero included) and the credited message shows the new balance; the balance never falls, and stays the same only when the amount is rejected or zero |
| `BusinessLogic.DebitEffect` | src/accounting/index.js:88-112 | a NaN or negative amount is rejected with the invalid-amount message; an amount not above the balance (`>=`, so equal is allowed) is subtracted and the debited message shows the new balance; a larger amount prints the insufficient-funds message and leaves the balance; a debit never raises the balance and never drives it below zero |
| `BusinessLogic.OperationsKeepBalanceNonNegative` | src/accounting/index.js:93-108 | from a non-negative balance, neither a credit nor a debit yields a negative one |
| `BusinessLogic.DebitWholeBalance` | src/accounting/index.js:102-105 | debiting exactly the balance succeeds, leaves 0 and prints "Amount debited. New balance: 0.00" |
| `BusinessLogic.CreditThenDebit` | src/accounting/index.test.js:501-519 | from a non-negative balance `b`, a valid credit of `a` then a valid debit of `d` leaves `b + a - d` with the debited message when `d <= b + a`, and otherwise leaves `b + a` with the insufficient-funds message; crediting and debiting the same amount, valid or not, gives `b` back |
| `BusinessLogic.MessagesReportNewBalance` | src/accounting/index.js:74-105 | a successful credit or debit prints its fixed prefix followed by a rendering that reads back as exactly the new balance |
| `BusinessLogic.Operations.constructor` | src/accounting/index.js:45-48 | the operations act on the given store and terminal |
| `BusinessLogic.Operations.ViewBalance` | src/accounting/index.js:54-57 | prints "Current balance: " and the balance to two decimals; balance and input unchanged |
| `BusinessLogic.Operations.Credit` | src/accounting/index.js:63-81 | consumes one amount line and leaves exactly the balance and output line that `CreditEffect` gives; with no line left, changes nothing |
| `BusinessLogic.Operations.Debit` | src/accounting/index.js:88-112 | consumes one amount line and leaves exactly the balance and output line that `DebitEffect` gives; with no line left, changes nothing |
| `MainLoop.Dispatch` | src/accounting/index.js:147-172 | 2 with a line pending applies `CreditEffect` to that line's amount, consumes it and prints its message; 3 does the same with `DebitEffect`; 2 or 3 with no line left starves and changes nothing; 4 clears the flag and touches neither balance nor output; 1 prints the balance and changes nothing else; any value other than 1-4, or NaN, prints the invalid-choice message and keeps balance, flag and input; only 2 and 3 read an amount line; a non-negative balance stays non-negative; output only grows and never gains the goodbye |
| `MainLoop.Iterate` | src/accounting/index.js:179-186 | one pass prints the seven menu lines first; with no line left it starves; otherwise it is exactly `Dispatch` of the choice line on the rest of the input; it consumes the choice line and at most one more line, clears the flag exactly when the choice is 4, keeps a non-negative balance non-negative, and never prints the goodbye |
| `MainLoop.RunFrom` | src/accounting/index.js:178-191 | a finished run has the flag cleared and never consumes more lines than it was given |
| `MainLoop.RunKeepsBalanceNonNegative` | src/accounting/index.js:178-191 | for every input, a run that starts from a non-negative balance ends with one, so no sequence of credits and debits overdraws the account |
| `MainLoop.StarvesOnlyWhenExhausted` | src/accounting/index.js:178-186 | a run ends starved only with every input line consumed, so it stops only at a prompt that no line answers |
| `MainLoop.RunEndsAfterExitChoice` | src/accounting/index.js:163-187 | a run that finishes stops right after consuming a line read as choice 4, and leaves every later line unread |
| `MainLoop.RunPrintsGoodbyeOnceLast` | src/accounting/index.js:178-191 | a run only appends to the output; if it finishes, the goodbye is the last line and appears nowhere else in what the run printed; if it starves, no goodbye is printed |
| `MainLoop.ExitAtOnce` | src/accounting/index.test.js:623-636 | choosing 4 first prints one menu and the goodbye, clears the flag, keeps the balance and leaves the rest of the input unread |
| `MainLoop.ViewThenExit` | src/accounting/index.test.js:45-62 | a fresh program given 1 then 4 prints the menu, "Current balance: 1000.00", the menu again and the goodbye |
| `MainLoop.MainProgram.constructor` | src/accounting/index.js:119-127 | a fresh store at 1000.00, operations sharing that store and terminal, and the flag set |
| `MainLoop.MainProgram.DisplayMenu` | src/accounting/index.js:133-141 | prints the seven menu lines in order |
| `MainLoop.MainProgram.ProcessChoice` | src/accounting/index.js:147-172 | leaves exactly the state `Dispatch` gives for the parsed choice |
| `MainLoop.MainProgram.Run` | src/accounting/index.js:178-191 | leaves exactly the state `RunFrom` gives from the starting state, reports whether the loop finished, and keeps a non-negative balance non-negative |

## Left out

- Money.FormatCents: from 10^21 (10^23 cents) up, `toFixed(2)` prints exponent notation such as `1e+21`; the model always prints digits and two decimals. This reaches the balance, credited and debited messages.
- Binary floating point. Balances and amounts are exact whole cents. The model does not capture sub-cent amounts, `Infinity`, rounding drift, or `toFixed`'s rounding of values that have more than two decimals.
- The string grammar of `parseInt` and `parseFloat`. Each input line is given by what the two parsers return for it.
- The prompt texts that `rl.question` writes ("Enter your choice (1-4): " and so on). They go to the terminal, not through `console.log`, so they are not in `output`.
- `rl.close()` after the goodbye. It only releases the terminal.
- The promise and `async`/`await` plumbing. It only orders one prompt after another, and the model runs the steps in sequence.
- The entry point, `console.error` and `process.exit(1)`. These are process wiring, and exit codes are not modelled.
- An upper bound on the balance. The `PIC 9(6)V99` width is noted in the code but never enforced, so the model has no cap.
