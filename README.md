# Agile and waterfall calculators in Dafny

This project models the two calculator scripts of the agile-vs-waterfall
explainer and proves what they promise.

- **Agile** (`agile_calculator.dfy`) models `AgileCalculator`. A table of
  feature toggles decides which of add, subtract, multiply and divide the
  constructor puts into the operation registry. `Run` refuses any name that
  is not in the registry. Otherwise it applies the operation, and if the
  history toggle is on it appends `(op, a, b, result)` to the history list.
  Division by zero is not an error: it returns a +infinity sentinel.
  `GetHistory` fails while the history toggle is off and otherwise returns
  the history.
  - The class is `AgileCalculator`. It has the registry `ops` (a map from
    name to operation) and the history `history` (a sequence the methods
    reassign).
  - It also has a ghost log `calls` of every `Run`. Its invariant `Valid()`
    says two things. The registry is `Registry(features)`. The history is
    `Recorded(ops, calls)`, the successful calls in call order with their
    results, when the toggle is on, and empty when it is off.
  - Numbers are exact reals. Python's `float("inf")` is the `PosInf` case of
    `Value`.
- **Waterfall** (`waterfall_calculator.dfy`) models `Calculator.add`,
  `Calculator.subtract` and the routing of `run_cli`. Routing is the pure
  function `RunCli`, which maps an argument vector to an `Outcome`: the usage
  line (exit status 1), a printed result, or a rejected operation (exit
  status 2). Converting the operands with `float` is the parameter `parse`.

The toggles are a value passed to the constructor. `FeatureTable` is the
table as shipped: all four operations on, history off. The source re-reads
the global table on every call, but never changes it, so the two agree.

## Model

| member | source | states |
|---|---|---|
| `Agile.Apply` | agile_calculator.py:38-44 | add, subtract and divide are characterised by their inverses (`r - b == a`, `r + b == a`, `r * b == a` when `b != 0`); multiply gives `a * b`; the +infinity sentinel comes out exactly when dividing by zero |
| `Agile.Enabled` | agile_calculator.py:37-53 | reads one toggle by name; only the four operation names and "history" can be on, any other name reads as off (as `FEATURES.get` gives a false value) |
| `Agile.OpOf` | agile_calculator.py:37-44 | for each of the four operation names, the operation whose registry key is that name (the lambda stored under it) |
| `Agile.Registry` | agile_calculator.py:36-44 | a name is registered iff it is one of add/subtract/multiply/divide and its toggle is on; each name maps to the operation of that name; "history" is never registered |
| `Agile.Dispatch` | agile_calculator.py:48-50 | the pure model of `run`'s lookup: it succeeds iff the name is registered, and a refusal is NotAvailable(op); `RunByName` states the results name by name |
| `Agile.Recorded` | agile_calculator.py:53-54 | the history a log of calls leaves: one entry per successful call, in call order; every entry names a registered operation |
| `Agile.RunByName` | agile_calculator.py:46-56 | over a registry built from toggles, `run` succeeds iff the name is an enabled operation; it returns a+b, a-b, a*b, a/b, or +infinity for division by zero; any other name fails with NotAvailable(op) |
| `Agile.HistoryIsNotAnOperation` | agile_calculator.py:36-49 | running "history" always fails with NotAvailable, whatever the toggles |
| `Agile.ShippedRegistry` | agile_calculator.py:22-28 | under the shipped table all four operations are registered and history is off |
| `Agile.RecordedSound` | agile_calculator.py:50-54 | every history entry names a registered operation, and its result is that operation applied to the entry's operands |
| `Agile.RecordedLength` | agile_calculator.py:53-54 | the history never holds more entries than there were calls |
| `Agile.RecordedAllSucceed` | agile_calculator.py:50-54 | when every call names a registered operation, entry j of the history is call j with its result |
| `Agile.RecordedAppend` | agile_calculator.py:50-54 | the history of a log split in two is the history of the first part followed by that of the second, so mixed logs combine the all-succeed and all-fail cases in call order |
| `Agile.RecordedAllFail` | agile_calculator.py:48-49 | calls on unregistered names leave the history empty |
| `Agile.AgileCalculator.constructor` | agile_calculator.py:32-44 | the conditional inserts leave the registry equal to `Registry(features)`; the history starts empty |
| `Agile.AgileCalculator.Run` | agile_calculator.py:46-56 | an unregistered name fails with NotAvailable(op) and leaves the history unchanged; otherwise the result is the registered operation applied to (a, b); with history on the history gains exactly `(op, a, b, result)` at its end and earlier entries stay; with history off it never changes; the invariant is kept |
| `Agile.AgileCalculator.GetHistory` | agile_calculator.py:58-61 | fails with HistoryDisabled when the toggle is off; otherwise returns the calculator's history, which is the successful calls in call order with their results, and changes nothing |
| `Agile.RunIsRepeatable` | agile_calculator.py:46-56 | two identical calls on one calculator return the same result, fixed by (op, a, b) and the toggles alone, whatever the history holds |
| `Agile.SelfTest` | agile_calculator.py:65-81 | on the shipped table add(2,3)=5, subtract(7,4)=3, multiply(3,4)=12, divide(10,0)=+infinity, and asking for the history fails |
| `Waterfall.Add` | waterfall_calculator.py:21-22 | the sum is the number that, less either operand, gives back the other |
| `Waterfall.Subtract` | waterfall_calculator.py:24-25 | the difference is the number that, plus `b`, gives back `a` |
| `Waterfall.SelfTest` | waterfall_calculator.py:56-58 | add(5,3) = 8 and subtract(5,3) = 2 |
| `Waterfall.Outcome.ExitCode` | waterfall_calculator.py:38-52 | exit status 0 exactly for a printed result, 1 exactly for usage, 2 exactly for a rejected operation |
| `Waterfall.RunCli` | waterfall_calculator.py:38-52 | the routing of one command-line run; a result is printed only for exactly three operands and a name in {"add", "subtract"}; `UsageIffWrongCount`, `RoutesToArithmetic` and `ScopeIsFixed` state the rest |
| `Waterfall.UsageIffWrongCount` | waterfall_calculator.py:38-40 | the outcome is usage iff the argument vector does not hold exactly four items; then the exit status is 1 and the operands are never converted (the outcome does not depend on `parse`) |
| `Waterfall.RoutesToArithmetic` | waterfall_calculator.py:42-48 | with three operands, "add" prints `Add(a, b)` and "subtract" prints `Subtract(a, b)` of the converted operands |
| `Waterfall.ScopeIsFixed` | waterfall_calculator.py:45-52 | with three operands a result is printed iff the name is in {"add", "subtract"}; every other name is rejected with exit status 2 and no arithmetic |

## Left out

- Floating point: operands and results are exact reals. Rounding, NaN, signed zeros and the `1e-9` tolerance of the agile tests are not modelled. Operands are finite; feeding an infinite value back into an operation is not modelled.
- Division by zero gives +infinity for every dividend, negative or zero included. This is what the source does, and the model keeps it.
- Converting strings to numbers (`float(...)`): in the waterfall model it is the parameter `parse`, which always succeeds. A string that does not parse makes the source raise before the operation name is looked at; that path is not modelled.
- Printing, `sys.argv` and `sys.exit`: the waterfall outcome carries the exit status as a value, and the text of the printed lines and of the error messages is not modelled.
- The agile command line: the `backlog` and `features` listings, the product backlog strings, and the catching and printing of the "not available" error. The model stops at `Run`'s error result.
- Changing the global toggle table while the program runs: the source never does it, so the toggles are fixed at construction.
- The waterfall `Calculator` object and its module-level instance hold no state, so `add` and `subtract` are plain functions.
