/**
 * The "waterfall" calculator: a fixed scope of addition and subtraction,
 * reached through a command line that takes exactly one operation name and
 * two operands.
 */
module Waterfall {

  /** The signed-off scope: the only operation names the command line accepts. */
  const Scope: set<string> := {"add", "subtract"}

  /** Addition: the result is the number that, less `b`, gives back `a`. */
  function Add(a: real, b: real): (r: real)
    ensures r - b == a && r - a == b
  {
    a + b
  }

  /** Subtraction: the result is the number that, plus `b`, gives back `a`. */
  function Subtract(a: real, b: real): (r: real)
    ensures r + b == a
  {
    a - b
  }

  /** The release check: 5 + 3 and 5 - 3. */
  lemma SelfTest()
    ensures Add(5.0, 3.0) == 8.0
    ensures Subtract(5.0, 3.0) == 2.0
  {
  }

  /** How a command-line run ends: the usage line, a printed result, or a rejected operation. */
  datatype Outcome = Usage | Printed(value: real) | Rejected
  {
    /** The process exit status of the outcome. */
    function ExitCode(): (code: nat)
      ensures code == 0 <==> Printed?
      ensures code == 1 <==> Usage?
      ensures code == 2 <==> Rejected?
    {
      match this
      case Usage => 1
      case Printed(_) => 0
      case Rejected => 2
    }
  }

  /**
   * One command-line run. `argv` is the whole argument vector, program name
   * first; `parse` stands for the string-to-number conversion of the operands.
   */
  function RunCli(argv: seq<string>, parse: string -> real): (out: Outcome)
    ensures out.Printed? ==> |argv| == 4 && argv[1] in Scope
  {
    if |argv| != 4 then Usage
    else
      var op, a, b := argv[1], parse(argv[2]), parse(argv[3]);
      if op == "add" then Printed(Add(a, b))
      else if op == "subtract" then Printed(Subtract(a, b))
      else Rejected
  }

  /** A wrong argument count ends with the usage line and exit status 1, before any operand is read. */
  lemma UsageIffWrongCount(argv: seq<string>, parse: string -> real)
    ensures RunCli(argv, parse) == Usage <==> |argv| != 4
    ensures |argv| != 4 ==> RunCli(argv, parse).ExitCode() == 1
    ensures |argv| != 4 ==> forall other: string -> real :: RunCli(argv, other) == RunCli(argv, parse)
  {
  }

  /** With three operands, "add" and "subtract" print the result of the matching arithmetic method. */
  lemma RoutesToArithmetic(argv: seq<string>, parse: string -> real)
    requires |argv| == 4
    ensures argv[1] == "add" ==> RunCli(argv, parse) == Printed(Add(parse(argv[2]), parse(argv[3])))
    ensures argv[1] == "subtract" ==> RunCli(argv, parse) == Printed(Subtract(parse(argv[2]), parse(argv[3])))
  {
  }

  /** Exactly the names in Scope are accepted; every other name is rejected with exit status 2. */
  lemma ScopeIsFixed(argv: seq<string>, parse: string -> real)
    requires |argv| == 4
    ensures RunCli(argv, parse).Printed? <==> argv[1] in Scope
    ensures RunCli(argv, parse) == Rejected <==> argv[1] !in Scope
    ensures argv[1] !in Scope ==> RunCli(argv, parse).ExitCode() == 2
  {
  }
}
