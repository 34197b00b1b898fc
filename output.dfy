/**
 * The output sink option: generated code goes either under the Go
 * workspace (`gohome`, the default) or to standard output (`stdout`).
 */
module Output {
  import opened Wrappers
  import opened Failures

  datatype Sink = GoHome | Stdout

  const DefaultOutput := "gohome"

  /** The option value that selects a sink. */
  function SinkName(s: Sink): string {
    match s
    case GoHome => "gohome"
    case Stdout => "stdout"
  }

  /** The sink an option value selects, if it is one of the two accepted values. */
  function ParseSink(v: string): (r: Option<Sink>)
    ensures r.Some? <==> (v == "gohome" || v == "stdout")
    ensures r.Some? ==> SinkName(r.value) == v
  {
    if v == "gohome" then Some(GoHome)
    else if v == "stdout" then Some(Stdout)
    else None
  }

  /** Naming a sink and reading the name back gives the same sink. */
  lemma {:induction false} ParseSinkName(s: Sink)
    ensures ParseSink(SinkName(s)) == Some(s)
  {
    match s
    case GoHome =>
    case Stdout =>
      assert "stdout" != "gohome";
  }

  /** The process-wide output setting. */
  class Config {
    var generationOutput: string

    /** The setting always holds one of the two accepted values. */
    ghost predicate Valid()
      reads this
    {
      ParseSink(generationOutput).Some?
    }

    function Selected(): Sink
      reads this
      requires Valid()
    {
      ParseSink(generationOutput).value
    }

    constructor ()
      ensures Valid() && generationOutput == DefaultOutput && Selected() == GoHome
    {
      generationOutput := DefaultOutput;
    }

    /** Accepts `gohome` or `stdout`; any other value is fatal and changes nothing. */
    method SetOutput(outputValue: string) returns (r: Result<(), Failure>)
      modifies this
      ensures r.Success? <==> (outputValue == "gohome" || outputValue == "stdout")
      ensures r.Success? ==> generationOutput == outputValue
      ensures r.Failure? ==> r.error == InvalidOutputValue(outputValue) && generationOutput == old(generationOutput)
      ensures old(Valid()) ==> Valid()
    {
      if "gohome" == outputValue || "stdout" == outputValue {
        generationOutput := outputValue;
        r := Success(());
      } else {
        r := Failure(InvalidOutputValue(outputValue));
      }
    }
  }
}
