/**
 * The argument cursor: an index into the process's argument list that can
 * test for more input, peek at the next token, or consume it. Reading past
 * the end is fatal; here it yields a `MissingArgument` failure.
 */
module Arguments {
  import opened Wrappers
  import opened Failures
  import opened Characters

  /** The argument at `pos`, or the failure that names what was expected there. */
  function ArgumentAt(args: seq<string>, pos: nat, description: string): (r: Result<string, Failure>)
    ensures r.Success? <==> pos < |args|
    ensures r.Success? ==> r.value == args[pos]
    ensures r.Failure? ==> r.error == MissingArgument(description, pos, args)
  {
    if |args| <= pos then Failure(MissingArgument(description, pos, args))
    else Success(args[pos])
  }

  function Digit(d: nat): (c: char)
    requires d < 10
    ensures IsDigit(c) && (c as int) - ('0' as int) == d
  {
    ('0' as int + d) as char
  }

  /** Decimal rendering of a non-negative integer, as `strconv.Itoa` prints it. */
  function DecimalString(n: nat): (s: string)
    ensures |s| >= 1
    ensures forall i :: 0 <= i < |s| ==> IsDigit(s[i])
    ensures s[0] == '0' ==> n == 0 && s == "0"
    decreases n
  {
    if n < 10 then [Digit(n)] else DecimalString(n / 10) + [Digit(n % 10)]
  }

  function DigitValue(c: char): (d: nat)
    requires IsDigit(c)
    ensures d < 10 && Digit(d) == c
  {
    (c as int) - ('0' as int)
  }

  /** The value of a string of decimal digits. */
  function DecimalValue(s: string): nat
    requires forall i :: 0 <= i < |s| ==> IsDigit(s[i])
  {
    if s == [] then 0
    else 10 * DecimalValue(s[..|s| - 1]) + DigitValue(s[|s| - 1])
  }

  /** Reading back the decimal rendering gives the number again. */
  lemma {:induction false} DecimalRoundTrip(n: nat)
    ensures DecimalValue(DecimalString(n)) == n
    decreases n
  {
    var s := DecimalString(n);
    if n >= 10 {
      DecimalRoundTrip(n / 10);
      assert s[..|s| - 1] == DecimalString(n / 10);
    }
  }

  /** Distinct positions are reported with distinct strings. */
  lemma DecimalStringInjective(m: nat, n: nat)
    requires DecimalString(m) == DecimalString(n)
    ensures m == n
  {
    DecimalRoundTrip(m);
    DecimalRoundTrip(n);
  }

  class ArgumentIterator {
    /** The process arguments; index 0 is the program name. */
    const args: seq<string>
    /** The index of the next argument to read. */
    var pos: nat

    /** The cursor never passes the end: a read past it is fatal before any advance. */
    ghost predicate Valid()
      reads this
    {
      pos <= |args|
    }

    constructor (args: seq<string>, start: nat)
      requires start <= |args|
      ensures this.args == args && pos == start && Valid()
    {
      this.args := args;
      pos := start;
    }

    /** True exactly when an argument remains at the cursor. */
    function HasNextArgument(): (b: bool)
      reads this
      ensures b <==> pos < |args|
      ensures Valid() ==> (!b <==> pos == |args|)
    {
      |args| > pos
    }

    /** The cursor position as the diagnostic prints it. */
    function IndexString(): (s: string)
      reads this
      ensures |s| >= 1
      ensures forall i :: 0 <= i < |s| ==> IsDigit(s[i])
      ensures s[0] == '0' ==> pos == 0 && s == "0"
      ensures DecimalValue(s) == pos
    {
      DecimalRoundTrip(pos);
      DecimalString(pos)
    }

    /** Peeks at the argument under the cursor; a function, so the position cannot move. */
    function SeeNextArgument(description: string): (r: Result<string, Failure>)
      reads this
      ensures r.Success? <==> pos < |args|
      ensures r.Success? ==> r.value == args[pos]
      ensures r.Failure? ==> r.error == MissingArgument(description, pos, args)
    {
      ArgumentAt(args, pos, description)
    }

    /** Peeks and then advances by exactly one; a failed read leaves the cursor where it was. */
    method GetNextArgument(description: string) returns (r: Result<string, Failure>)
      modifies this
      ensures r == old(SeeNextArgument(description))
      ensures pos == if r.Success? then old(pos) + 1 else old(pos)
      ensures old(pos) <= pos
      ensures old(Valid()) ==> Valid()
    {
      r := ArgumentAt(args, pos, description);
      if r.Success? {
        pos := pos + 1;
      }
    }
  }
}
