/**
 * The top-level command dispatcher and the `plugin-template-generate` /
 * `plugin-template-destroy` handlers. Instead of printing, writing files or
 * exiting, a run yields an `Outcome`: the actions performed in order and how
 * the process ends.
 *
 * `Scan`, `OutputOptions` and `GenerateStep` define the behaviour on values;
 * `Dispatch`, `ProcessGeneratePluginTemplate` and
 * `ProcessDestroyPluginTemplate` walk the shared `ArgumentIterator` and the
 * output setting as the program does, and are proved to agree with them.
 */
module Dispatch {
  import opened Wrappers
  import opened Failures
  import opened Arguments
  import opened HandlerNames
  import opened Output
  import opened PluginPath

  const AvailableCommand := "available"
  const HelpFlag := "--help"
  const GenerateCommand := "plugin-template-generate"
  const DestroyCommand := "plugin-template-destroy"
  const OutputFlag := "--output"

  // What each cursor read expects, as the diagnostics name it.
  const RootDescription := "Flag or buffalo root command"
  const OptionDescription := "Flag or buffalo generate plugin-template's parameter"
  const OutputFlagDescription := "--output argument consume"
  const OutputValueDescription := "Output value: one of (gohome|stdout)"
  const CommandDescription := "<buffalo_command> For which buffalo command is this plugin for."
  const NameDescription := "<plugin_name> Generated plugin name."

  /** A sub-command advertised to the framework by `available`. */
  datatype Command = Command(name: string, useCommand: string, buffaloCommand: string, description: string)

  const Catalog: seq<Command> := [
    Command("plugin-template", GenerateCommand, "generate",
            "[--output (gohome|stdout)] <buffalo_command> <plugin_name> Generates a new plugin."),
    Command("plugin-template", DestroyCommand, "destroy",
            "<plugin_name> Destroys plugin previously generated by \"buffalo generate plugin-template\" command")
  ]

  /** The values substituted into the plugin template. */
  datatype TemplateParams = TemplateParams(buffaloCommand: string, pluginName: string, handlerName: string)

  datatype Action =
    | PrintCatalog
    | PrintHelp
      /** Render the template for `params` into `sink`; `pluginPath` locates the file under the workspace. */
    | Generate(params: TemplateParams, pluginPath: string, sink: Sink)
      /** Remove the workspace directory of `pluginPath`. */
    | Destroy(pluginPath: string)
      /** Report an unknown token together with every argument. */
    | Unrecognized(token: string, arguments: seq<string>)

  datatype Exit = Finished | Fatal(failure: Failure)

  datatype Outcome = Outcome(actions: seq<Action>, exit: Exit)

  /** `rest`, preceded by the actions already `done`. */
  function Then(done: seq<Action>, rest: Outcome): Outcome {
    Outcome(done + rest.actions, rest.exit)
  }

  predicate IsKnownToken(token: string) {
    token == AvailableCommand || token == HelpFlag || token == GenerateCommand || token == DestroyCommand
  }

  /**
   * The `--output <value>` pairs that precede the positional generate
   * arguments: the position of the first other token and the sink in force.
   */
  function OutputOptions(args: seq<string>, pos: nat, sink: Sink): (r: Result<(nat, Sink), Failure>)
    ensures r.Success? ==> pos <= r.value.0 && (|args| <= r.value.0 || args[r.value.0] != OutputFlag)
    ensures r.Success? && pos <= |args| ==> r.value.0 <= |args|
    ensures r.Success? && r.value.0 == pos ==> r.value.1 == sink
    ensures r.Success? && pos < r.value.0 ==>
      pos + 2 <= r.value.0 <= |args| && args[r.value.0 - 2] == OutputFlag && ParseSink(args[r.value.0 - 1]) == Some(r.value.1)
    ensures r.Failure? ==> r.error.MissingArgument? || r.error.InvalidOutputValue?
    ensures r.Failure? && r.error.MissingArgument? && pos <= |args| ==>
      r.error == MissingArgument(OutputValueDescription, |args|, args)
    decreases |args| - pos
  {
    if |args| <= pos || args[pos] != OutputFlag then Success((pos, sink))
    else
      var value :- ArgumentAt(args, pos + 1, OutputValueDescription);
      match ParseSink(value)
      case None => Failure(InvalidOutputValue(value))
      case Some(s) => OutputOptions(args, pos + 2, s)
  }

  /** The action the generator performs for a command and a plugin path. */
  function GenerationAction(command: string, pluginPath: string, sink: Sink): (r: Result<Action, Failure>)
    ensures r.Success? <==> HandlerName(Base(pluginPath)).Success?
    ensures r.Failure? ==> r.error == HandlerName(Base(pluginPath)).error
    ensures r.Success? ==> r.value.Generate? && r.value.sink == sink && r.value.pluginPath == pluginPath
    ensures r.Success? ==> r.value.params.buffaloCommand == command && r.value.params.pluginName == Base(pluginPath)
    ensures r.Success? ==> r.value.params.handlerName == HandlerName(Base(pluginPath)).value
  {
    var handler :- HandlerName(Base(pluginPath));
    Success(Generate(TemplateParams(command, Base(pluginPath), handler), pluginPath, sink))
  }

  /** `GenerateStep` once the options are read and `pos` is at the positional arguments. */
  function GenerateFrom(args: seq<string>, pos: nat, sink: Sink): (r: Result<(Action, nat, Sink), Failure>)
    ensures r.Success? <==> pos + 1 < |args| && HandlerName(Base(args[pos + 1])).Success?
    ensures r.Success? ==> r.value.1 == pos + 2 && r.value.2 == sink
    ensures r.Success? ==> r.value.0 == Generate(TemplateParams(args[pos], Base(args[pos + 1]), HandlerName(Base(args[pos + 1])).value), args[pos + 1], sink)
  {
    var command :- ArgumentAt(args, pos, CommandDescription);
    var path :- ArgumentAt(args, pos + 1, NameDescription);
    var action :- GenerationAction(command, path, sink);
    Success((action, pos + 2, sink))
  }

  /**
   * `plugin-template-generate` with its arguments starting at `pos`: the
   * action, the position after it, and the sink in force afterwards.
   */
  function GenerateStep(args: seq<string>, pos: nat, sink: Sink): (r: Result<(Action, nat, Sink), Failure>)
    ensures r.Success? ==> pos + 2 <= r.value.1 <= |args|
    ensures r.Success? ==> OutputOptions(args, pos, sink) == Success((r.value.1 - 2, r.value.2))
    ensures r.Success? ==> GenerateFrom(args, r.value.1 - 2, r.value.2) == r
  {
    var options :- OutputOptions(args, pos, sink);
    GenerateFrom(args, options.0, options.1)
  }

  /**
   * The top-level loop from `pos` on, with `sink` as the current output
   * setting: at most one action per token, plus the help printed after an
   * unknown token.
   */
  function Scan(args: seq<string>, pos: nat, sink: Sink): (o: Outcome)
    ensures pos <= |args| ==> |o.actions| <= |args| - pos + 1
    decreases |args| - pos
  {
    if |args| <= pos then Outcome([], Finished)
    else
      var token := args[pos];
      if token == AvailableCommand then Then([PrintCatalog], Scan(args, pos + 1, sink))
      else if token == HelpFlag then Outcome([PrintHelp], Finished)
      else if token == GenerateCommand then
        match GenerateStep(args, pos + 1, sink)
        case Failure(e) => Outcome([], Fatal(e))
        case Success(step) => Then([step.0], Scan(args, step.1, step.2))
      else if token == DestroyCommand then
        match ArgumentAt(args, pos + 1, NameDescription)
        case Failure(e) => Outcome([], Fatal(e))
        case Success(path) => Then([Destroy(path)], Scan(args, pos + 2, sink))
      else Outcome([Unrecognized(token, args), PrintHelp], Finished)
  }

  /** A whole run: help when nothing follows the program name, else the scan from index 1. */
  function Run(args: seq<string>): (o: Outcome)
    ensures |args| <= 1 ==> o == Outcome([PrintHelp], Finished)
    ensures |args| > 1 && args[1] == HelpFlag ==> o == Outcome([PrintHelp], Finished)
  {
    if |args| <= 1 then Outcome([PrintHelp], Finished)
    else Scan(args, 1, GoHome)
  }

  lemma ThenAppend(done: seq<Action>, a: Action, rest: Outcome)
    ensures Then(done, Then([a], rest)) == Then(done + [a], rest)
  {
    assert done + ([a] + rest.actions) == (done + [a]) + rest.actions;
  }

  /** `available` prints the catalog and the scan goes on with the next token. */
  lemma ScanAvailable(args: seq<string>, pos: nat, sink: Sink)
    requires pos < |args| && args[pos] == AvailableCommand
    ensures Scan(args, pos, sink) == Then([PrintCatalog], Scan(args, pos + 1, sink))
  {
  }

  /** After a successful generation the scan goes on where the handler left the cursor. */
  lemma ScanGenerate(args: seq<string>, pos: nat, sink: Sink)
    requires pos < |args| && args[pos] == GenerateCommand
    ensures GenerateStep(args, pos + 1, sink).Failure? ==>
      Scan(args, pos, sink) == Outcome([], Fatal(GenerateStep(args, pos + 1, sink).error))
    ensures GenerateStep(args, pos + 1, sink).Success? ==>
      var step := GenerateStep(args, pos + 1, sink).value;
      Scan(args, pos, sink) == Then([step.0], Scan(args, step.1, step.2))
  {
  }

  /** `plugin-template-destroy` without its path is fatal; with it, the scan goes on after the path. */
  lemma ScanDestroy(args: seq<string>, pos: nat, sink: Sink)
    requires pos < |args| && args[pos] == DestroyCommand
    ensures pos + 1 == |args| ==>
      Scan(args, pos, sink) == Outcome([], Fatal(MissingArgument(NameDescription, pos + 1, args)))
    ensures pos + 1 < |args| ==>
      Scan(args, pos, sink) == Then([Destroy(args[pos + 1])], Scan(args, pos + 2, sink))
  {
  }

  /** The generator proper, up to the point where the template is rendered. */
  method GeneratePluginTemplate(buffaloCommand: string, pluginNameWithPath: string, config: Config)
    returns (r: Result<Action, Failure>)
    requires config.Valid()
    ensures r == GenerationAction(buffaloCommand, pluginNameWithPath, config.Selected())
  {
    var pluginName := Base(pluginNameWithPath);
    var handlerName := DetermineHandlerName(pluginName);
    if handlerName.Failure? {
      return Failure(handlerName.error);
    }
    var params := TemplateParams(buffaloCommand, pluginName, handlerName.value);
    if "stdout" == config.generationOutput {
      r := Success(Generate(params, pluginNameWithPath, Stdout));
    } else if "gohome" == config.generationOutput {
      r := Success(Generate(params, pluginNameWithPath, GoHome));
    } else {
      assert false;
    }
  }

  /** The option sub-loop of the generate handler: consumes `--output <value>` pairs. */
  method ReadOutputOptions(it: ArgumentIterator, config: Config) returns (r: Result<(), Failure>)
    requires config.Valid()
    modifies it, config
    ensures config.Valid()
    ensures var options := OutputOptions(it.args, old(it.pos), old(config.Selected()));
      && r.Success? == options.Success?
      && (r.Failure? ==> r.error == options.error)
      && (r.Success? ==> options.value == (it.pos, config.Selected()))
  {
    ghost var start, sink := it.pos, config.Selected();
    while it.HasNextArgument()
      invariant config.Valid()
      invariant start <= it.pos
      invariant OutputOptions(it.args, start, sink) == OutputOptions(it.args, it.pos, config.Selected())
      decreases |it.args| - it.pos
    {
      var token := it.SeeNextArgument(OptionDescription);
      if token.value != OutputFlag {
        break;
      }
      var flag := it.GetNextArgument(OutputFlagDescription);
      var value := it.GetNextArgument(OutputValueDescription);
      if value.Failure? {
        return Failure(value.error);
      }
      var accepted := config.SetOutput(value.value);
      if accepted.Failure? {
        return Failure(accepted.error);
      }
    }
    r := Success(());
  }

  /** Reads the `--output` pairs and the two positional arguments, then generates. */
  method ProcessGeneratePluginTemplate(it: ArgumentIterator, config: Config) returns (r: Result<Action, Failure>)
    requires config.Valid()
    modifies it, config
    ensures config.Valid()
    ensures var step := GenerateStep(it.args, old(it.pos), old(config.Selected()));
      && r.Success? == step.Success?
      && (r.Failure? ==> r.error == step.error)
      && (r.Success? ==> r.value == step.value.0 && it.pos == step.value.1 && config.Selected() == step.value.2)
  {
    ghost var start, sink := it.pos, config.Selected();
    var options := ReadOutputOptions(it, config);
    if options.Failure? {
      return Failure(options.error);
    }
    assert GenerateStep(it.args, start, sink) == GenerateFrom(it.args, it.pos, config.Selected());
    r := GenerateAtCursor(it, config);
  }

  /** The `generation:` label: reads `<buffalo_command>` and `<plugin_name>` in that order, then generates. */
  method GenerateAtCursor(it: ArgumentIterator, config: Config) returns (r: Result<Action, Failure>)
    requires config.Valid()
    modifies it
    ensures var step := GenerateFrom(it.args, old(it.pos), config.Selected());
      && r.Success? == step.Success?
      && (r.Failure? ==> r.error == step.error)
      && (r.Success? ==> r.value == step.value.0 && it.pos == step.value.1)
  {
    ghost var positionals := it.pos;
    var command := it.GetNextArgument(CommandDescription);
    if command.Failure? {
      return Failure(command.error);
    }
    var path := it.GetNextArgument(NameDescription);
    if path.Failure? {
      return Failure(path.error);
    }
    assert command.value == it.args[positionals] && path.value == it.args[positionals + 1];
    r := GeneratePluginTemplate(command.value, path.value, config);
  }

  /** Reads the one positional argument of `plugin-template-destroy`. */
  method ProcessDestroyPluginTemplate(it: ArgumentIterator) returns (r: Result<Action, Failure>)
    modifies it
    ensures r.Success? <==> old(it.pos) < |it.args|
    ensures r.Success? ==> r.value == Destroy(it.args[old(it.pos)]) && it.pos == old(it.pos) + 1
    ensures r.Failure? ==> r.error == MissingArgument(NameDescription, old(it.pos), it.args) && it.pos == old(it.pos)
  {
    var path := it.GetNextArgument(NameDescription);
    if path.Failure? {
      return Failure(path.error);
    }
    r := Success(Destroy(path.value));
  }

  /** The program's entry point over its argument list. */
  method Dispatch(args: seq<string>) returns (o: Outcome)
    ensures o == Run(args)
  {
    if |args| <= 1 {
      return Outcome([PrintHelp], Finished);
    }
    var config := new Config();
    var it := new ArgumentIterator(args, 1);
    var actions: seq<Action> := [];
    while it.HasNextArgument()
      invariant it.args == args && config.Valid()
      invariant Run(args) == Then(actions, Scan(args, it.pos, config.Selected()))
      decreases |args| - it.pos
    {
      ghost var pos, sink := it.pos, config.Selected();
      var token := it.GetNextArgument(RootDescription);
      var flagOrCommand := token.value;
      if flagOrCommand == AvailableCommand {
        ScanAvailable(args, pos, sink);
        ThenAppend(actions, PrintCatalog, Scan(args, it.pos, sink));
        actions := actions + [PrintCatalog];
      } else if flagOrCommand == HelpFlag {
        return Outcome(actions + [PrintHelp], Finished);
      } else if flagOrCommand == GenerateCommand {
        var generated := ProcessGeneratePluginTemplate(it, config);
        if generated.Failure? {
          return Outcome(actions, Fatal(generated.error));
        }
        ScanGenerate(args, pos, sink);
        ThenAppend(actions, generated.value, Scan(args, it.pos, config.Selected()));
        actions := actions + [generated.value];
      } else if flagOrCommand == DestroyCommand {
        var destroyed := ProcessDestroyPluginTemplate(it);
        ScanDestroy(args, pos, sink);
        if destroyed.Failure? {
          return Outcome(actions, Fatal(destroyed.error));
        }
        ThenAppend(actions, destroyed.value, Scan(args, it.pos, sink));
        actions := actions + [destroyed.value];
      } else {
        return Outcome(actions + [Unrecognized(flagOrCommand, args), PrintHelp], Finished);
      }
    }
    return Outcome(actions, Finished);
  }

  // Properties of a whole run.

  /** What every action of a run satisfies, relative to the arguments it came from. */
  predicate WellFormedAction(args: seq<string>, a: Action) {
    match a
    case Generate(params, path, _) =>
      path in args && params.buffaloCommand in args && params.pluginName == Base(path) &&
      HandlerName(params.pluginName) == Success(params.handlerName)
    case Destroy(path) => path in args
    case Unrecognized(token, all) => all == args && token in args && !IsKnownToken(token)
    case _ => true
  }

  /**
   * Every generated action carries the handler name derived from its plugin's
   * base name, every path and command comes from the arguments, and only
   * unknown tokens are reported as unrecognised.
   */
  lemma {:induction false} ScanWellFormed(args: seq<string>, pos: nat, sink: Sink)
    ensures forall i :: 0 <= i < |Scan(args, pos, sink).actions| ==>
      WellFormedAction(args, Scan(args, pos, sink).actions[i])
    decreases |args| - pos
  {
    if pos < |args| {
      var token := args[pos];
      if token == AvailableCommand {
        ScanWellFormed(args, pos + 1, sink);
        ThenWellFormed(args, PrintCatalog, Scan(args, pos + 1, sink));
      } else if token == GenerateCommand {
        var step := GenerateStep(args, pos + 1, sink);
        if step.Success? {
          GenerateStepWellFormed(args, pos + 1, sink);
          ScanWellFormed(args, step.value.1, step.value.2);
          ThenWellFormed(args, step.value.0, Scan(args, step.value.1, step.value.2));
        }
      } else if token == DestroyCommand {
        if pos + 1 < |args| {
          assert args[pos + 1] in args;
          ScanWellFormed(args, pos + 2, sink);
          ThenWellFormed(args, Destroy(args[pos + 1]), Scan(args, pos + 2, sink));
        }
      }
    }
  }

  lemma ThenWellFormed(args: seq<string>, a: Action, rest: Outcome)
    requires WellFormedAction(args, a)
    requires forall i :: 0 <= i < |rest.actions| ==> WellFormedAction(args, rest.actions[i])
    ensures forall i :: 0 <= i < |Then([a], rest).actions| ==> WellFormedAction(args, Then([a], rest).actions[i])
  {
    forall i | 0 <= i < |Then([a], rest).actions|
      ensures WellFormedAction(args, Then([a], rest).actions[i])
    {
      if i > 0 {
        assert Then([a], rest).actions[i] == rest.actions[i - 1];
      }
    }
  }

  lemma GenerateStepWellFormed(args: seq<string>, pos: nat, sink: Sink)
    requires GenerateStep(args, pos, sink).Success?
    ensures WellFormedAction(args, GenerateStep(args, pos, sink).value.0)
  {
    var step := GenerateStep(args, pos, sink);
    var options := OutputOptions(args, pos, sink).value;
    assert GenerateFrom(args, options.0, options.1) == step;
    assert args[options.0] in args && args[options.0 + 1] in args;
  }

  /** A run that fails for a missing argument fails exactly at the end of the argument list. */
  lemma {:induction false} ScanMissingAtEnd(args: seq<string>, pos: nat, sink: Sink)
    requires pos <= |args|
    ensures Scan(args, pos, sink).exit.Fatal? && Scan(args, pos, sink).exit.failure.MissingArgument? ==>
      Scan(args, pos, sink).exit.failure.position == |args| &&
      Scan(args, pos, sink).exit.failure.arguments == args
    decreases |args| - pos
  {
    if pos < |args| {
      var token := args[pos];
      if token == AvailableCommand {
        ScanMissingAtEnd(args, pos + 1, sink);
      } else if token == GenerateCommand {
        var step := GenerateStep(args, pos + 1, sink);
        if step.Success? {
          ScanMissingAtEnd(args, step.value.1, step.value.2);
        } else {
          var options := OutputOptions(args, pos + 1, sink);
          if options.Success? {
            assert GenerateFrom(args, options.value.0, options.value.1) == step;
          }
        }
      } else if token == DestroyCommand {
        if pos + 1 < |args| {
          ScanMissingAtEnd(args, pos + 2, sink);
        }
      }
    }
  }

  /** `--help` and unknown tokens end the scan, whatever follows them. */
  lemma ScanStops(args: seq<string>, pos: nat, sink: Sink)
    requires pos < |args|
    ensures args[pos] == HelpFlag ==> Scan(args, pos, sink) == Outcome([PrintHelp], Finished)
    ensures !IsKnownToken(args[pos]) ==>
      Scan(args, pos, sink) == Outcome([Unrecognized(args[pos], args), PrintHelp], Finished)
  {
  }

  /** A scan starts by reporting a token as unrecognised exactly when that token is unknown. */
  lemma ScanUnrecognizedIff(args: seq<string>, pos: nat, sink: Sink)
    requires pos < |args|
    ensures (Scan(args, pos, sink).actions != [] && Scan(args, pos, sink).actions[0].Unrecognized?)
      <==> !IsKnownToken(args[pos])
  {
    if args[pos] == GenerateCommand {
      var step := GenerateStep(args, pos + 1, sink);
      if step.Success? {
        var options := OutputOptions(args, pos + 1, sink).value;
        assert GenerateFrom(args, options.0, options.1) == step;
      }
    }
  }

  /** Every sub-command the catalog advertises is dispatched, never reported as unrecognised. */
  lemma CatalogCommandsRecognized(args: seq<string>, pos: nat, sink: Sink, c: Command)
    requires c in Catalog && pos < |args| && args[pos] == c.useCommand
    ensures !(Scan(args, pos, sink).actions != [] && Scan(args, pos, sink).actions[0].Unrecognized?)
  {
    ScanUnrecognizedIff(args, pos, sink);
  }

  /** From `pos` on, `args` holds one `--output <value>` pair for each sink of `values`, in order. */
  predicate PairsAt(args: seq<string>, pos: nat, values: seq<Sink>)
    ensures PairsAt(args, pos, values) ==> pos + 2 * |values| <= |args|
    decreases |values|
  {
    if values == [] then pos <= |args|
    else pos + 1 < |args| && args[pos] == OutputFlag && args[pos + 1] == SinkName(values[0])
         && PairsAt(args, pos + 2, values[1..])
  }

  /** Any number of `--output` pairs is consumed; the last one decides the sink. */
  lemma {:induction false} OutputOptionsOfPairs(args: seq<string>, pos: nat, values: seq<Sink>, sink: Sink)
    requires PairsAt(args, pos, values)
    requires pos + 2 * |values| == |args| || args[pos + 2 * |values|] != OutputFlag
    ensures pos + 2 * |values| <= |args|
    ensures OutputOptions(args, pos, sink)
         == Success((pos + 2 * |values|, if values == [] then sink else values[|values| - 1]))
    decreases |values|
  {
    if values != [] {
      OutputOptionsPair(args, pos, values[0], sink);
      OutputOptionsOfPairs(args, pos + 2, values[1..], values[0]);
      if |values| > 1 {
        assert values[1..][|values| - 2] == values[|values| - 1];
      }
    }
  }

  /** One accepted `--output <value>` pair selects its sink and moves past both tokens. */
  lemma OutputOptionsPair(args: seq<string>, pos: nat, value: Sink, sink: Sink)
    requires pos + 1 < |args| && args[pos] == OutputFlag && args[pos + 1] == SinkName(value)
    ensures OutputOptions(args, pos, sink) == OutputOptions(args, pos + 2, value)
  {
    ParseSinkName(value);
  }

  /**
   * Conversely, a successful option read consumed nothing but accepted
   * `--output` pairs: it stops at the first pair boundary that is not
   * `--output`, and the sink is the last pair's, or the one in force before.
   */
  lemma {:induction false} OutputOptionsShape(args: seq<string>, pos: nat, sink: Sink) returns (values: seq<Sink>)
    requires pos <= |args| && OutputOptions(args, pos, sink).Success?
    ensures PairsAt(args, pos, values)
    ensures OutputOptions(args, pos, sink).value
         == (pos + 2 * |values|, if values == [] then sink else values[|values| - 1])
    decreases |args| - pos
  {
    if |args| <= pos || args[pos] != OutputFlag {
      values := [];
    } else {
      var s := ParseSink(args[pos + 1]).value;
      ParseSinkName(s);
      var vs := OutputOptionsShape(args, pos + 2, s);
      values := [s] + vs;
      assert values[1..] == vs;
      if vs != [] {
        assert values[|values| - 1] == vs[|vs| - 1];
      }
    }
  }

  /**
   * After any number of accepted pairs, an `--output` with no value is a
   * missing argument at the end of the arguments, and one with a value other
   * than `gohome` or `stdout` is an invalid output value.
   */
  lemma {:induction false} OutputOptionsFailAfterPairs(args: seq<string>, pos: nat, values: seq<Sink>, sink: Sink)
    requires PairsAt(args, pos, values)
    requires pos + 2 * |values| < |args| && args[pos + 2 * |values|] == OutputFlag
    ensures pos + 2 * |values| + 1 == |args| ==>
      OutputOptions(args, pos, sink) == Failure(MissingArgument(OutputValueDescription, |args|, args))
    ensures pos + 2 * |values| + 1 < |args| && ParseSink(args[pos + 2 * |values| + 1]).None? ==>
      OutputOptions(args, pos, sink) == Failure(InvalidOutputValue(args[pos + 2 * |values| + 1]))
    decreases |values|
  {
    if values != [] {
      OutputOptionsPair(args, pos, values[0], sink);
      OutputOptionsFailAfterPairs(args, pos + 2, values[1..], values[0]);
    }
  }

  /**
   * `plugin-template-generate`, any number of `--output` pairs, then
   * `<buffalo_command>` and `<plugin_name>`: one generation, into the sink
   * the last pair selected.
   */
  lemma {:induction false} GenerateWithOptions(args: seq<string>, values: seq<Sink>)
    requires |args| == 2 * |values| + 4 && args[1] == GenerateCommand && PairsAt(args, 2, values)
    requires args[|args| - 2] != OutputFlag
    requires HandlerName(Base(args[|args| - 1])).Success?
    ensures Run(args) == Outcome([Generate(TemplateParams(args[|args| - 2], Base(args[|args| - 1]),
                                                          HandlerName(Base(args[|args| - 1])).value),
                                           args[|args| - 1],
                                           if values == [] then GoHome else values[|values| - 1])], Finished)
  {
    var p := |args| - 2;
    var sink := if values == [] then GoHome else values[|values| - 1];
    OutputOptionsOfPairs(args, 2, values, GoHome);
    assert OutputOptions(args, 2, GoHome) == Success((p, sink));
    RunGenerate(args, p, sink, args[p], args[p + 1], HandlerName(Base(args[p + 1])).value);
  }

  lemma {:induction false} RunGenerate(args: seq<string>, p: nat, sink: Sink, command: string, path: string, handler: string)
    requires 2 <= p && |args| == p + 2 && args[1] == GenerateCommand && args[p] == command && args[p + 1] == path
    requires OutputOptions(args, 2, GoHome) == Success((p, sink))
    requires HandlerName(Base(path)) == Success(handler)
    ensures Run(args) == Outcome([Generate(TemplateParams(command, Base(path), handler), path, sink)], Finished)
  {
    var action := Generate(TemplateParams(command, Base(path), handler), path, sink);
    assert GenerateFrom(args, p, sink) == Success((action, p + 2, sink));
    assert GenerateStep(args, 2, GoHome) == Success((action, p + 2, sink));
    ScanGenerate(args, 1, GoHome);
  }

  /** An `--output` value other than `gohome` or `stdout` is fatal, whatever follows it. */
  lemma InvalidOutputFatal(program: string, value: string, rest: seq<string>)
    requires value != "gohome" && value != "stdout"
    ensures Run([program, GenerateCommand, OutputFlag, value] + rest) == Outcome([], Fatal(InvalidOutputValue(value)))
  {
    var args := [program, GenerateCommand, OutputFlag, value] + rest;
    assert args[1] == GenerateCommand && args[2] == OutputFlag && args[3] == value;
  }

  /** `--output` as the last token is missing its value. */
  lemma OutputValueMissing(program: string)
    ensures var args := [program, GenerateCommand, OutputFlag];
      Run(args) == Outcome([], Fatal(MissingArgument(OutputValueDescription, 3, args)))
  {
  }

  /** A generate with only one positional argument is missing `<plugin_name>`. */
  lemma PluginNameMissing(program: string, command: string)
    requires command != OutputFlag
    ensures var args := [program, GenerateCommand, command];
      Run(args) == Outcome([], Fatal(MissingArgument(NameDescription, 3, args)))
  {
  }

  /** `--output stdout` followed by the two positional arguments generates on standard output. */
  lemma {:induction false} GenerateToStdout(program: string, command: string, path: string)
    requires command != OutputFlag && HandlerName(Base(path)).Success?
    ensures Run([program, GenerateCommand, OutputFlag, "stdout", command, path])
         == Outcome([Generate(TemplateParams(command, Base(path), HandlerName(Base(path)).value), path, Stdout)], Finished)
  {
    var args := [program, GenerateCommand, OutputFlag, "stdout", command, path];
    GenerateWithOptions(args, [Stdout]);
  }

  /** `plugin-template-generate --output stdout generate buffalo-foo` generates `handleFoo` for plugin `buffalo-foo` on standard output. */
  lemma {:induction false} GenerateFooToStdout()
    ensures Run(["buffalo-plugin-template", GenerateCommand, OutputFlag, "stdout", "generate", "buffalo-foo"])
         == Outcome([Generate(TemplateParams("generate", "buffalo-foo", "handleFoo"), "buffalo-foo", Stdout)], Finished)
  {
    BaseOfName("buffalo-foo");
    ExampleFoo();
    GenerateToStdout("buffalo-plugin-template", "generate", "buffalo-foo");
  }

  /**
   * The output setting is process-wide: a generation without `--output`
   * uses, and passes on to the rest of the scan, the sink already in force.
   */
  lemma GenerateKeepsSink(args: seq<string>, pos: nat, sink: Sink)
    requires pos < |args| && args[pos] != OutputFlag
    requires GenerateStep(args, pos, sink).Success?
    ensures GenerateStep(args, pos, sink).value.0.sink == sink
    ensures GenerateStep(args, pos, sink).value.2 == sink
  {
    assert GenerateStep(args, pos, sink) == GenerateFrom(args, pos, sink);
  }
}
