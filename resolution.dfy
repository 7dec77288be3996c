/**
 * What `dispatch` and `runCommand` compute, as functions of the parser state and the
 * argument vector: the token scan, the choice of command, the unknown-option check,
 * the resolution of every parameter by precedence, and the binding of the global
 * parameters to the fields of the handler object before the handler is invoked.
 */
module Resolution {
  import opened Wrappers
  import opened Errors
  import opened JavaText
  import opened Values
  import opened Validators
  import opened Schema
  import opened OptionTokens
  import opened HelpText

  /** The options of one dispatch: option name to its text (None when given without a value). */
  type Options = map<string, Option<string>>

  /** The public fields of the handler object that global parameters are written to. */
  type Fields = map<string, Value>

  // ----- the token scan -----

  /** The scan's state: the command named so far, and the options read so far. */
  datatype ScanState = ScanState(command: Option<Command>, options: Options)

  const NoTokens := ScanState(None, map[])

  /** One iteration of the scan loop in `dispatch`. */
  function ScanToken(cs: seq<Command>, st: ScanState, arg: string): Result<ScanState, CmdError> {
    if IsOptionToken(arg) then
      var o := ParseOption(arg);
      Ok(st.(options := st.options[o.name := o.value]))
    else if st.command.Some? then
      Err(Error(DISPATCH_DUPLICATE_COMMAND, arg, "The command line can only have one command"))
    else
      match FindCommand(cs, ToLowerCase(arg))
      case None => Err(Error(DISPATCH_UNKNOWN_COMMAND, arg, "Unknown command"))
      case Some(i) => Ok(st.(command := Some(cs[i])))
  }

  /** The scan of the tokens, left to right; the first error stops it. */
  function Scan(cs: seq<Command>, args: seq<string>): Result<ScanState, CmdError>
    decreases |args|
  {
    if args == [] then Ok(NoTokens)
    else match Scan(cs, args[..|args| - 1])
      case Err(e) => Err(e)
      case Ok(st) => ScanToken(cs, st, args[|args| - 1])
  }

  // ----- reference definitions of what the scan finds -----

  /** What each token is as an option: its parsed name and value, or None when it is a command word. */
  function OptionsOf(args: seq<string>): (os: seq<Option<ParsedOption>>)
    ensures |os| == |args|
    ensures forall i :: 0 <= i < |args| ==> os[i] == (if IsOptionToken(args[i]) then Some(ParseOption(args[i])) else None)
  {
    seq(|args|, i requires 0 <= i < |args| => if IsOptionToken(args[i]) then Some(ParseOption(args[i])) else None)
  }

  /** Parsed options put in a map in order: a later option of the same name replaces an earlier one. */
  function Collect(os: seq<Option<ParsedOption>>): Options
    decreases |os|
  {
    if os == [] then map[]
    else
      var m := Collect(os[..|os| - 1]);
      match os[|os| - 1]
      case None => m
      case Some(o) => m[o.name := o.value]
  }

  /** Every option token of the command line read into a map. */
  function OptionMap(args: seq<string>): Options {
    Collect(OptionsOf(args))
  }

  /** The tokens that are not options, in order. */
  function CommandWords(args: seq<string>): seq<string>
    decreases |args|
  {
    if args == [] then []
    else CommandWords(args[..|args| - 1]) + (if IsOptionToken(args[|args| - 1]) then [] else [args[|args| - 1]])
  }

  /**
   * The command the command words select: none without words; an unknown first word is
   * DISPATCH_UNKNOWN_COMMAND; a second word is DISPATCH_DUPLICATE_COMMAND.
   */
  function NamedCommand(cs: seq<Command>, words: seq<string>): Result<Option<Command>, CmdError> {
    if words == [] then Ok(None)
    else match FindCommand(cs, ToLowerCase(words[0]))
      case None => Err(Error(DISPATCH_UNKNOWN_COMMAND, words[0], "Unknown command"))
      case Some(i) =>
        if |words| == 1 then Ok(Some(cs[i]))
        else Err(Error(DISPATCH_DUPLICATE_COMMAND, words[1], "The command line can only have one command"))
  }

  lemma NamedCommandExtend(cs: seq<Command>, words: seq<string>, w: string)
    requires NamedCommand(cs, words).Err?
    ensures NamedCommand(cs, words + [w]) == NamedCommand(cs, words)
  {
    assert (words + [w])[0] == words[0];
    if |words| >= 2 {
      assert (words + [w])[1] == words[1];
    }
  }

  /**
   * The scan agrees with the reference definitions: it fails exactly as the command words
   * dictate, and when it succeeds it holds the selected command and the map of all options.
   */
  lemma ScanMeaning(cs: seq<Command>, args: seq<string>)
    ensures Scan(cs, args).Err? <==> NamedCommand(cs, CommandWords(args)).Err?
    ensures Scan(cs, args).Err? ==> Scan(cs, args).error == NamedCommand(cs, CommandWords(args)).error
    ensures Scan(cs, args).Ok? ==>
      Scan(cs, args).value == ScanState(NamedCommand(cs, CommandWords(args)).value, OptionMap(args))
  {
    ScanCommand(cs, args);
    ScanOptions(cs, args);
  }

  lemma {:induction false} ScanCommand(cs: seq<Command>, args: seq<string>)
    ensures Scan(cs, args).Err? <==> NamedCommand(cs, CommandWords(args)).Err?
    ensures Scan(cs, args).Err? ==> Scan(cs, args).error == NamedCommand(cs, CommandWords(args)).error
    ensures Scan(cs, args).Ok? ==> Scan(cs, args).value.command == NamedCommand(cs, CommandWords(args)).value
    decreases |args|
  {
    if args != [] {
      var init, arg := args[..|args| - 1], args[|args| - 1];
      ScanCommand(cs, init);
      var words := CommandWords(init);
      if IsOptionToken(arg) {
        assert CommandWords(args) == words;
      } else if NamedCommand(cs, words).Err? {
        NamedCommandExtend(cs, words, arg);
      } else {
        assert CommandWords(args) == words + [arg];
        if words != [] {
          assert (words + [arg])[0] == words[0] && (words + [arg])[1] == arg;
        }
      }
    }
  }

  lemma {:induction false} ScanOptions(cs: seq<Command>, args: seq<string>)
    ensures Scan(cs, args).Ok? ==> Scan(cs, args).value.options == OptionMap(args)
    decreases |args|
  {
    if args != [] && Scan(cs, args).Ok? {
      var init, last := args[..|args| - 1], args[|args| - 1];
      ScanOptions(cs, init);
      assert OptionsOf(args)[..|args| - 1] == OptionsOf(init);
      var st := Scan(cs, init).value;
      assert Scan(cs, args) == ScanToken(cs, st, last);
      if IsOptionToken(last) {
        assert OptionsOf(args)[|args| - 1] == Some(ParseOption(last));
      } else {
        assert OptionsOf(args)[|args| - 1] == None;
      }
    }
  }

  /** In a sequence of parsed options, the value of the last option of a name is the one kept. */
  lemma {:induction false} CollectLastWins(os: seq<Option<ParsedOption>>, i: nat)
    requires i < |os| && os[i].Some?
    requires forall j :: i < j < |os| && os[j].Some? ==> os[j].value.name != os[i].value.name
    ensures os[i].value.name in Collect(os) && Collect(os)[os[i].value.name] == os[i].value.value
    decreases |os|
  {
    if i < |os| - 1 {
      var init := os[..|os| - 1];
      assert init[i] == os[i];
      forall j | i < j < |init| && init[j].Some?
        ensures init[j].value.name != init[i].value.name
      {
        assert init[j] == os[j];
      }
      CollectLastWins(init, i);
    }
  }

  /** The names collected are exactly the names of the parsed options. */
  lemma {:induction false} CollectKeys(os: seq<Option<ParsedOption>>)
    ensures forall n :: n in Collect(os) <==> exists i :: 0 <= i < |os| && os[i].Some? && os[i].value.name == n
    decreases |os|
  {
    if os != [] {
      var init := os[..|os| - 1];
      CollectKeys(init);
      forall n | n in Collect(os)
        ensures exists i :: 0 <= i < |os| && os[i].Some? && os[i].value.name == n
      {
        if n in Collect(init) {
          var i :| 0 <= i < |init| && init[i].Some? && init[i].value.name == n;
          assert os[i] == init[i];
        }
      }
      forall n | exists i :: 0 <= i < |os| && os[i].Some? && os[i].value.name == n
        ensures n in Collect(os)
      {
        var i :| 0 <= i < |os| && os[i].Some? && os[i].value.name == n;
        if i < |os| - 1 {
          assert init[i] == os[i];
        }
      }
    }
  }

  /** For every option name, the value of its last occurrence on the command line is the one kept. */
  lemma OptionMapLastWins(args: seq<string>, i: nat)
    requires i < |args| && IsOptionToken(args[i])
    requires forall j :: i < j < |args| && IsOptionToken(args[j]) ==> ParseOption(args[j]).name != ParseOption(args[i]).name
    ensures ParseOption(args[i]).name in OptionMap(args)
    ensures OptionMap(args)[ParseOption(args[i]).name] == ParseOption(args[i]).value
  {
    CollectLastWins(OptionsOf(args), i);
  }

  /** The option names are exactly the names of the option tokens. */
  lemma OptionMapKeys(args: seq<string>)
    ensures forall n :: n in OptionMap(args) <==>
      exists i :: 0 <= i < |args| && IsOptionToken(args[i]) && ParseOption(args[i]).name == n
  {
    var os := OptionsOf(args);
    CollectKeys(os);
    forall n ensures n in OptionMap(args) <==> exists i :: 0 <= i < |args| && IsOptionToken(args[i]) && ParseOption(args[i]).name == n {
      if n in OptionMap(args) {
        var i :| 0 <= i < |os| && os[i].Some? && os[i].value.name == n;
        assert IsOptionToken(args[i]) && ParseOption(args[i]).name == n;
      }
    }
  }

  // ----- choosing the command -----

  /** Without a command word the default command runs; without a default command that is DISPATCH_NO_COMMAND. */
  function SelectCommand(named: Option<Command>, defaultCommand: Option<Command>): Result<Command, CmdError> {
    if named.None? && defaultCommand.None? then
      Err(CmdError(DISPATCH_NO_COMMAND, None, "No command was specified", None))
    else if named.None? then Ok(defaultCommand.value)
    else Ok(named.value)
  }

  /** The scan and the choice of command: the selected command and the options, or the first error. */
  function Front(m: Model, args: seq<string>): Result<(Command, Options), CmdError> {
    match Scan(m.commands, args)
    case Err(e) => Err(e)
    case Ok(st) =>
      match SelectCommand(st.command, m.defaultCommand)
      case Err(e) => Err(e)
      case Ok(c) => Ok((c, st.options))
  }

  // ----- the unknown-option check -----

  predicate NamesParameter(p: Parameter, n: string) {
    p.name == n || p.shortName == n
  }

  /** An option is known when a global parameter or a parameter of the command has it as full or short name. */
  predicate Known(gs: seq<GlobalParameter>, c: Command, n: string) {
    (exists k :: 0 <= k < |gs| && NamesParameter(gs[k].param, n)) ||
    (exists k :: 0 <= k < |c.params| && NamesParameter(c.params[k], n))
  }

  function UnknownOptions(gs: seq<GlobalParameter>, c: Command, opts: Options): set<string> {
    set n | n in opts && !Known(gs, c, n)
  }

  function UnknownOption(n: string): CmdError {
    Error(DISPATCH_UNKNOWN_PARAMETER, n, "Unknown option")
  }

  // ----- resolving one parameter -----

  /**
   * The value of a parameter before validation: the option given by full name, else by
   * short name, else DISPATCH_MISSING_REQUIRED_PARAMETER when required, else the coerced
   * default, else the zero value of its type.
   */
  function ResolveValue(p: Parameter, opts: Options): Result<Value, Failure> {
    if p.name in opts then Coerce(p.ptype, p.name, opts[p.name])
    else if p.shortName in opts then Coerce(p.ptype, p.shortName, opts[p.shortName])
    else if p.isRequired then Err(Cmd(Error(DISPATCH_MISSING_REQUIRED_PARAMETER, p.name, "Missing required parameter")))
    else if p.defaultValue.Some? then Coerce(p.ptype, p.name, p.defaultValue)
    else Ok(ZeroValue(p.ptype))
  }

  /** `validate(value, parameter)`: a message from the validator is DISPATCH_VALIDATION_ERROR on the parameter. */
  function CheckValue(p: Parameter, v: Value, matches: RegexEngine): (r: Result<Value, Failure>)
    ensures r.Ok? ==> r.value == v
    ensures p.validator.None? ==> r == Ok(v)
    ensures p.validator.Some? ==> match ValidateValue(p.validator.value, v, matches)
      case Ok(None) => r == Ok(v)
      case Ok(Some(message)) => r == Err(Cmd(CmdError(DISPATCH_VALIDATION_ERROR, Some(p.name), message, None)))
      case Err(x) => r == Err(Unchecked(x))
  {
    if p.validator.None? then Ok(v)
    else match ValidateValue(p.validator.value, v, matches)
      case Err(x) => Err(Unchecked(x))
      case Ok(None) => Ok(v)
      case Ok(Some(message)) => Err(Cmd(Error(DISPATCH_VALIDATION_ERROR, p.name, message)))
  }

  /** One parameter resolved and validated. */
  function BindParameter(p: Parameter, opts: Options, matches: RegexEngine): Result<Value, Failure> {
    match ResolveValue(p, opts)
    case Err(f) => Err(f)
    case Ok(v) => CheckValue(p, v, matches)
  }

  /** The argument list: every parameter bound in declaration order; the first failure stops it. */
  function BindAll(ps: seq<Parameter>, opts: Options, matches: RegexEngine): (r: Result<seq<Value>, Failure>)
    ensures r.Ok? ==> |r.value| == |ps|
    decreases |ps|
  {
    if ps == [] then Ok([])
    else match BindAll(ps[..|ps| - 1], opts, matches)
      case Err(f) => Err(f)
      case Ok(vs) =>
        match BindParameter(ps[|ps| - 1], opts, matches)
        case Err(f) => Err(f)
        case Ok(v) => Ok(vs + [v])
  }

  /** Parameter k is the first of `ps` whose binding fails. */
  predicate FirstFailing(ps: seq<Parameter>, opts: Options, matches: RegexEngine, k: int) {
    0 <= k < |ps| && BindParameter(ps[k], opts, matches).Err? &&
    forall j :: 0 <= j < k ==> BindParameter(ps[j], opts, matches).Ok?
  }

  /**
   * The argument list holds the value of every parameter in declaration order; when it
   * cannot be built, the failure is that of the first parameter that fails.
   */
  lemma {:induction false} BindAllMeaning(ps: seq<Parameter>, opts: Options, matches: RegexEngine)
    ensures BindAll(ps, opts, matches).Ok? ==>
      forall k :: 0 <= k < |ps| ==> BindParameter(ps[k], opts, matches) == Ok(BindAll(ps, opts, matches).value[k])
    ensures BindAll(ps, opts, matches).Err? ==> exists k :: (FirstFailing(ps, opts, matches, k) &&
      BindParameter(ps[k], opts, matches).error == BindAll(ps, opts, matches).error)
    decreases |ps|
  {
    if ps != [] {
      var init := ps[..|ps| - 1];
      BindAllMeaning(init, opts, matches);
      var r := BindAll(init, opts, matches);
      if r.Err? {
        var k :| FirstFailing(init, opts, matches, k) && BindParameter(init[k], opts, matches).error == r.error;
        assert init[k] == ps[k];
        assert forall j :: 0 <= j < k ==> init[j] == ps[j];
        assert FirstFailing(ps, opts, matches, k);
      } else {
        var b := BindParameter(ps[|ps| - 1], opts, matches);
        assert forall j :: 0 <= j < |init| ==> init[j] == ps[j];
        if b.Err? {
          assert FirstFailing(ps, opts, matches, |ps| - 1);
        } else {
          var vs := r.value + [b.value];
          assert forall k :: 0 <= k < |init| ==> vs[k] == r.value[k];
        }
      }
    }
  }

  /** Binding succeeds exactly when every parameter binds. */
  lemma BindAllOkIff(ps: seq<Parameter>, opts: Options, matches: RegexEngine)
    ensures BindAll(ps, opts, matches).Ok? <==> forall k :: 0 <= k < |ps| ==> BindParameter(ps[k], opts, matches).Ok?
  {
    BindAllMeaning(ps, opts, matches);
  }

  // ----- runCommand -----

  /** What the model takes for invoking the handler: the selected command and its argument list. */
  datatype Invocation = Invocation(command: Command, arguments: seq<Value>)

  /** The fields after writing the given values to the fields of the first globals, in order. */
  function WriteAll(fields: Fields, gs: seq<GlobalParameter>, vs: seq<Value>): Fields
    requires |vs| <= |gs|
    decreases |vs|
  {
    if vs == [] then fields
    else WriteAll(fields, gs, vs[..|vs| - 1])[gs[|vs| - 1].field := vs[|vs| - 1]]
  }

  /** The outcome of binding the global parameters: the values written, and the failure that stopped it. */
  datatype Binding = Binding(written: seq<Value>, failure: Option<CmdError>)

  /**
   * The loop of `runCommand` over the global parameters: each is resolved and validated as
   * a command parameter is, and anything thrown on the way becomes a `CmdException`.
   */
  function BindGlobals(gs: seq<GlobalParameter>, opts: Options, matches: RegexEngine): (b: Binding)
    ensures |b.written| <= |gs|
    ensures b.failure.None? ==> |b.written| == |gs|
    decreases |gs|
  {
    if gs == [] then Binding([], None)
    else
      var b := BindGlobals(gs[..|gs| - 1], opts, matches);
      if b.failure.Some? then b
      else match BindParameter(gs[|gs| - 1].param, opts, matches)
        case Err(f) => Binding(b.written, Some(AsInvokeError(f)))
        case Ok(v) => Binding(b.written + [v], None)
  }

  /**
   * The globals are bound in declaration order: the values written are those of the first
   * globals, and a failure is that of the global right after them, made a `CmdException`.
   */
  lemma {:induction false} BindGlobalsMeaning(gs: seq<GlobalParameter>, opts: Options, matches: RegexEngine)
    ensures var b := BindGlobals(gs, opts, matches);
      forall k :: 0 <= k < |b.written| ==> BindParameter(gs[k].param, opts, matches) == Ok(b.written[k])
    ensures var b := BindGlobals(gs, opts, matches);
      b.failure.Some? ==> (|b.written| < |gs| &&
        BindParameter(gs[|b.written|].param, opts, matches).Err? &&
        b.failure.value == AsInvokeError(BindParameter(gs[|b.written|].param, opts, matches).error))
    decreases |gs|
  {
    if gs != [] {
      var init := gs[..|gs| - 1];
      BindGlobalsMeaning(init, opts, matches);
      var b := BindGlobals(init, opts, matches);
      var r := BindGlobals(gs, opts, matches);
      assert forall k :: 0 <= k < |init| ==> init[k] == gs[k];
      if b.failure.Some? {
        assert r == b;
      } else {
        var v := BindParameter(gs[|gs| - 1].param, opts, matches);
        if v.Ok? {
          assert r.written == b.written + [v.value] && r.failure.None?;
          forall k | 0 <= k < |r.written|
            ensures BindParameter(gs[k].param, opts, matches) == Ok(r.written[k])
          {
            if k < |b.written| {
              assert r.written[k] == b.written[k];
            }
          }
        } else {
          assert r == Binding(b.written, Some(AsInvokeError(v.error)));
        }
      }
    }
  }

  /**
   * `runCommand(command, arguments, options)`: the help command is given the help text and
   * nothing else happens; otherwise every global parameter is written, then the handler runs.
   * The result holds the fields afterwards: on a failure, the globals bound before it stay written.
   */
  function Run(m: Model, c: Command, arguments: seq<Value>, opts: Options, matches: RegexEngine, fields: Fields)
    : (Fields, Result<Invocation, CmdError>)
  {
    if c.isHelp then (fields, Ok(Invocation(c, [Str(Help(m.globals, m.commands))])))
    else
      var b := BindGlobals(m.globals, opts, matches);
      var after := WriteAll(fields, m.globals, b.written);
      if b.failure.Some? then (after, Err(b.failure.value)) else (after, Ok(Invocation(c, arguments)))
  }

  /** The rest of `dispatch` once the command and options are known and every option is known. */
  function Finish(m: Model, c: Command, opts: Options, matches: RegexEngine, fields: Fields): (Fields, Result<Invocation, Failure>) {
    match BindAll(c.params, opts, matches)
    case Err(f) => (fields, Err(f))
    case Ok(arguments) =>
      var (after, r) := Run(m, c, arguments, opts, matches, fields);
      (after, if r.Ok? then Ok(r.value) else Err(Cmd(r.error)))
  }

  /**
   * The outcomes `dispatch(args)` may have, with the handler object's fields before and after.
   * Which unknown option is reported depends on the iteration order of a hash map, so any
   * one of them may be.
   */
  ghost predicate DispatchAllows(m: Model, matches: RegexEngine, args: seq<string>, fields: Fields,
                                 after: Fields, r: Result<Invocation, Failure>)
  {
    match Front(m, args)
    case Err(e) => after == fields && r == Err(Cmd(e))
    case Ok((c, opts)) =>
      var unknown := UnknownOptions(m.globals, c, opts);
      if unknown != {} then
        after == fields && r.Err? && r.error.Cmd? && r.error.error.argument.Some? &&
        r.error.error.argument.value in unknown && r.error == Cmd(UnknownOption(r.error.error.argument.value))
      else
        (after, r) == Finish(m, c, opts, matches, fields)
  }

  // ----- a failure part-way stops the whole loop -----

  /** One more token scanned. */
  lemma ScanStep(cs: seq<Command>, args: seq<string>, i: nat, st: ScanState)
    requires i < |args| && Scan(cs, args[..i]) == Ok(st)
    ensures Scan(cs, args[..i + 1]) == ScanToken(cs, st, args[i])
  {
    assert args[..i + 1][..i] == args[..i];
  }

  lemma {:induction false} ScanStops(cs: seq<Command>, args: seq<string>, i: nat)
    requires i <= |args| && Scan(cs, args[..i]).Err?
    ensures Scan(cs, args) == Scan(cs, args[..i])
    decreases |args| - i
  {
    if i < |args| {
      assert args[..i + 1][..i] == args[..i];
      ScanStops(cs, args, i + 1);
    } else {
      assert args[..i] == args;
    }
  }

  /** One more parameter bound. */
  lemma BindAllStep(ps: seq<Parameter>, opts: Options, matches: RegexEngine, i: nat, vs: seq<Value>)
    requires i < |ps| && BindAll(ps[..i], opts, matches) == Ok(vs)
    ensures var v := BindParameter(ps[i], opts, matches);
      BindAll(ps[..i + 1], opts, matches) == if v.Ok? then Ok(vs + [v.value]) else Err(v.error)
  {
    assert ps[..i + 1][..i] == ps[..i];
  }

  lemma {:induction false} BindAllStops(ps: seq<Parameter>, opts: Options, matches: RegexEngine, i: nat)
    requires i <= |ps| && BindAll(ps[..i], opts, matches).Err?
    ensures BindAll(ps, opts, matches) == BindAll(ps[..i], opts, matches)
    decreases |ps| - i
  {
    if i < |ps| {
      assert ps[..i + 1][..i] == ps[..i];
      BindAllStops(ps, opts, matches, i + 1);
    } else {
      assert ps[..i] == ps;
    }
  }

  lemma {:induction false} BindGlobalsStops(gs: seq<GlobalParameter>, opts: Options, matches: RegexEngine, i: nat)
    requires i <= |gs| && BindGlobals(gs[..i], opts, matches).failure.Some?
    ensures BindGlobals(gs, opts, matches) == BindGlobals(gs[..i], opts, matches)
    decreases |gs| - i
  {
    if i < |gs| {
      assert gs[..i + 1][..i] == gs[..i];
      BindGlobalsStops(gs, opts, matches, i + 1);
    } else {
      assert gs[..i] == gs;
    }
  }

  /** One more global parameter bound: its value is added, or its failure stops the binding. */
  lemma BindGlobalsStep(gs: seq<GlobalParameter>, opts: Options, matches: RegexEngine, i: nat, written: seq<Value>)
    requires i < |gs| && BindGlobals(gs[..i], opts, matches) == Binding(written, None)
    ensures var v := BindParameter(gs[i].param, opts, matches);
      BindGlobals(gs[..i + 1], opts, matches) ==
        if v.Ok? then Binding(written + [v.value], None) else Binding(written, Some(AsInvokeError(v.error)))
  {
    assert gs[..i + 1][..i] == gs[..i];
  }

  /** One more value written to the field of the next global. */
  lemma WriteAllStep(fields: Fields, gs: seq<GlobalParameter>, vs: seq<Value>, v: Value)
    requires |vs| < |gs|
    ensures WriteAll(fields, gs, vs + [v]) == WriteAll(fields, gs, vs)[gs[|vs|].field := v]
  {
    assert (vs + [v])[..|vs|] == vs;
  }

  // ----- what a parameter resolves to -----

  /** DISPATCH_MISSING_REQUIRED_PARAMETER is reported exactly for a required parameter given under neither name. */
  lemma MissingRequiredIff(p: Parameter, opts: Options)
    ensures (ResolveValue(p, opts).Err? && ResolveValue(p, opts).error.Cmd? &&
             ResolveValue(p, opts).error.error.code == DISPATCH_MISSING_REQUIRED_PARAMETER)
        <==> (p.isRequired && p.name !in opts && p.shortName !in opts)
  {
    var text := if p.name in opts then opts[p.name] else if p.shortName in opts then opts[p.shortName] else p.defaultValue;
    var under := if p.name in opts then p.name else if p.shortName in opts then p.shortName else p.name;
    var c := Coerce(p.ptype, under, text);
    if c.Err? && c.error.Cmd? {
      CoerceErrorCodes(p.ptype, under, text);
    }
  }

  /** An option given under the full name decides the value, whatever is given under the short name. */
  lemma ResolveByFullName(p: Parameter, opts: Options, shortText: Option<string>)
    requires p.name in opts
    ensures ResolveValue(p, opts) == Coerce(p.ptype, p.name, opts[p.name])
    ensures p.shortName != p.name ==> ResolveValue(p, opts[p.shortName := shortText]) == ResolveValue(p, opts)
  {
  }

  /** Without the full name, an option given under the short name decides the value, and is reported under that name. */
  lemma ResolveByShortName(p: Parameter, opts: Options)
    requires p.name !in opts && p.shortName in opts
    ensures ResolveValue(p, opts) == Coerce(p.ptype, p.shortName, opts[p.shortName])
  {
  }

  /** Only the options under the parameter's own two names bear on its value. */
  lemma ResolveLocality(p: Parameter, opts1: Options, opts2: Options)
    requires p.name in opts1 <==> p.name in opts2
    requires p.shortName in opts1 <==> p.shortName in opts2
    requires p.name in opts1 ==> opts1[p.name] == opts2[p.name]
    requires p.shortName in opts1 ==> opts1[p.shortName] == opts2[p.shortName]
    ensures ResolveValue(p, opts1) == ResolveValue(p, opts2)
  {
  }

  /** An optional parameter given under neither name takes its coerced default, or else the zero value of its type. */
  lemma ResolveFallback(p: Parameter, opts: Options)
    requires p.name !in opts && p.shortName !in opts && !p.isRequired
    ensures p.defaultValue.Some? ==> ResolveValue(p, opts) == Coerce(p.ptype, p.name, p.defaultValue)
    ensures p.defaultValue.None? ==> ResolveValue(p, opts) == Ok(ZeroValue(p.ptype))
  {
  }

  /** An absent optional integral parameter whose default is the printed form of an in-range number takes that number. */
  lemma DefaultDecimalResolves(p: Parameter, opts: Options, n: int)
    requires p.name !in opts && p.shortName !in opts && !p.isRequired
    requires IsIntegral(p.ptype) && MinOf(p.ptype) <= n <= MaxOf(p.ptype)
    requires p.defaultValue == Some(DecimalString(n))
    ensures ResolveValue(p, opts) == Ok(Num(n))
  {
    CoerceDecimalRoundTrip(p.ptype, p.name, n);
  }

  /** The failures binding a parameter can report: never an unknown option, command or invocation error. */
  lemma BindParameterCodes(p: Parameter, opts: Options, matches: RegexEngine)
    ensures BindParameter(p, opts, matches).Err? && BindParameter(p, opts, matches).error.Cmd? ==>
      BindParameter(p, opts, matches).error.error.code in
        {DISPATCH_EMPTY_PARAMETER, DISPATCH_UNSUPPORTED_PARAMETER_TYPE,
         DISPATCH_MISSING_REQUIRED_PARAMETER, DISPATCH_VALIDATION_ERROR}
  {
    var text := if p.name in opts then opts[p.name] else if p.shortName in opts then opts[p.shortName] else p.defaultValue;
    var under := if p.name in opts then p.name else if p.shortName in opts then p.shortName else p.name;
    var c := Coerce(p.ptype, under, text);
    if c.Err? && c.error.Cmd? {
      CoerceErrorCodes(p.ptype, under, text);
    }
  }

  /** Once every option is known, the rest of the dispatch never reports an unknown option. */
  lemma FinishNeverUnknown(m: Model, c: Command, opts: Options, matches: RegexEngine, fields: Fields)
    ensures var r := Finish(m, c, opts, matches, fields).1;
      r.Err? && r.error.Cmd? ==> r.error.error.code != DISPATCH_UNKNOWN_PARAMETER
  {
    var bound := BindAll(c.params, opts, matches);
    if bound.Err? {
      BindAllMeaning(c.params, opts, matches);
      var k :| FirstFailing(c.params, opts, matches, k) &&
        BindParameter(c.params[k], opts, matches).error == bound.error;
      BindParameterCodes(c.params[k], opts, matches);
    } else if !c.isHelp {
      var b := BindGlobals(m.globals, opts, matches);
      BindGlobalsMeaning(m.globals, opts, matches);
      if b.failure.Some? {
        BindParameterCodes(m.globals[|b.written|].param, opts, matches);
      }
    }
  }

  // ----- the global fields -----

  /**
   * Writing values to the fields of the globals: a field takes the value of the last global
   * written to it, and every other field is as it was.
   */
  lemma {:induction false} WriteAllMeaning(fields: Fields, gs: seq<GlobalParameter>, vs: seq<Value>)
    requires |vs| <= |gs|
    ensures forall k :: 0 <= k < |vs| && (forall j :: k < j < |vs| ==> gs[j].field != gs[k].field) ==>
      gs[k].field in WriteAll(fields, gs, vs) && WriteAll(fields, gs, vs)[gs[k].field] == vs[k]
    ensures forall f :: (forall k :: 0 <= k < |vs| ==> gs[k].field != f) ==>
      (f in WriteAll(fields, gs, vs) <==> f in fields) &&
      (f in fields ==> WriteAll(fields, gs, vs)[f] == fields[f])
    decreases |vs|
  {
    if vs != [] {
      var init := vs[..|vs| - 1];
      WriteAllMeaning(fields, gs, init);
      forall k | 0 <= k < |vs| && (forall j :: k < j < |vs| ==> gs[j].field != gs[k].field)
        ensures gs[k].field in WriteAll(fields, gs, vs) && WriteAll(fields, gs, vs)[gs[k].field] == vs[k]
      {
        if k < |vs| - 1 {
          assert init[k] == vs[k];
          assert gs[|vs| - 1].field != gs[k].field;
        }
      }
    }
  }

  // ----- what dispatch does -----

  /** The scan inside `Front` finds the map of all options of the command line. */
  lemma FrontOptions(m: Model, args: seq<string>)
    requires Front(m, args).Ok?
    ensures Front(m, args).value.1 == OptionMap(args)
  {
    ScanMeaning(m.commands, args);
  }

  /**
   * The command that runs: a command word that is unknown, or a second command word, stops
   * the dispatch with that error and changes no field; without a command word the default
   * command runs, and without one of those either DISPATCH_NO_COMMAND is reported.
   */
  lemma DispatchCommandChoice(m: Model, matches: RegexEngine, args: seq<string>, fields: Fields,
                              after: Fields, r: Result<Invocation, Failure>)
    requires DispatchAllows(m, matches, args, fields, after, r)
    ensures var named := NamedCommand(m.commands, CommandWords(args));
      named.Err? ==> after == fields && r == Err(Cmd(named.error))
    ensures CommandWords(args) == [] && m.defaultCommand.None? ==>
      after == fields && r == Err(Cmd(CmdError(DISPATCH_NO_COMMAND, None, "No command was specified", None)))
    ensures r.Ok? ==> |CommandWords(args)| <= 1
    ensures r.Ok? && CommandWords(args) == [] ==> Some(r.value.command) == m.defaultCommand
    ensures r.Ok? && CommandWords(args) != [] ==>
      FindCommand(m.commands, ToLowerCase(CommandWords(args)[0])).Some? &&
      r.value.command == m.commands[FindCommand(m.commands, ToLowerCase(CommandWords(args)[0])).value]
  {
    ScanMeaning(m.commands, args);
    match Front(m, args)
    case Err(e) =>
    case Ok((c, opts)) =>
      if UnknownOptions(m.globals, c, opts) == {} {
        var bound := BindAll(c.params, opts, matches);
        if bound.Ok? && !c.isHelp {
          var b := BindGlobals(m.globals, opts, matches);
        }
      }
  }

  /**
   * An option that names no global parameter and no parameter of the command is reported
   * as DISPATCH_UNKNOWN_PARAMETER, and only then: the name reported is that of an option
   * token of the command line, and no field has changed.
   */
  lemma DispatchUnknownOption(m: Model, matches: RegexEngine, args: seq<string>, fields: Fields,
                              after: Fields, r: Result<Invocation, Failure>)
    requires DispatchAllows(m, matches, args, fields, after, r)
    requires Front(m, args).Ok?
    ensures var c := Front(m, args).value.0;
      (r.Err? && r.error.Cmd? && r.error.error.code == DISPATCH_UNKNOWN_PARAMETER) <==>
      (exists n :: n in OptionMap(args) && !Known(m.globals, c, n))
    ensures var c := Front(m, args).value.0;
      r.Err? && r.error.Cmd? && r.error.error.code == DISPATCH_UNKNOWN_PARAMETER ==>
        after == fields && r.error.error.argument.Some? && !Known(m.globals, c, r.error.error.argument.value) &&
        exists i :: 0 <= i < |args| && IsOptionToken(args[i]) && ParseOption(args[i]).name == r.error.error.argument.value
  {
    FrontOptions(m, args);
    OptionMapKeys(args);
    var (c, opts) := Front(m, args).value;
    var unknown := UnknownOptions(m.globals, c, opts);
    if unknown == {} {
      FinishNeverUnknown(m, c, opts, matches, fields);
      assert forall n :: n in opts ==> n !in unknown;
    } else {
      var n :| n in unknown;
      assert n in OptionMap(args) && !Known(m.globals, c, n);
    }
  }

  /**
   * A successful dispatch: every option names a parameter; the help command is given the
   * help text and no field changes; any other command is given the value of each of its
   * parameters in order, after every global parameter was bound and written to its field.
   */
  lemma DispatchSucceeds(m: Model, matches: RegexEngine, args: seq<string>, fields: Fields,
                         after: Fields, r: Result<Invocation, Failure>)
    requires DispatchAllows(m, matches, args, fields, after, r)
    requires r.Ok?
    ensures forall n :: n in OptionMap(args) ==> Known(m.globals, r.value.command, n)
    ensures r.value.command.isHelp ==> after == fields && r.value.arguments == [Str(Help(m.globals, m.commands))]
    ensures var c := r.value.command;
      !c.isHelp ==> (|r.value.arguments| == |c.params| &&
        forall k :: 0 <= k < |c.params| ==> BindParameter(c.params[k], OptionMap(args), matches) == Ok(r.value.arguments[k]))
    ensures var b := BindGlobals(m.globals, OptionMap(args), matches);
      !r.value.command.isHelp ==> (b.failure.None? && |b.written| == |m.globals| &&
        after == WriteAll(fields, m.globals, b.written))
  {
    var (c, opts) := Front(m, args).value;
    FrontOptions(m, args);
    assert UnknownOptions(m.globals, c, opts) == {};
    assert forall n :: n in opts ==> n !in UnknownOptions(m.globals, c, opts);
    BindAllMeaning(c.params, opts, matches);
  }

  /**
   * The only fields a dispatch changes are those of the global parameters, and only when a
   * command other than help runs: then the values of the globals bound before any failure
   * are written, in order, even when a later global fails.
   */
  lemma DispatchFieldWrites(m: Model, matches: RegexEngine, args: seq<string>, fields: Fields,
                            after: Fields, r: Result<Invocation, Failure>)
    requires DispatchAllows(m, matches, args, fields, after, r)
    ensures after == fields ||
      (Front(m, args).Ok? && !Front(m, args).value.0.isHelp &&
       after == WriteAll(fields, m.globals, BindGlobals(m.globals, OptionMap(args), matches).written))
  {
    if Front(m, args).Ok? {
      FrontOptions(m, args);
    }
  }

  /**
   * The ways a dispatch fails once the command is chosen and every option is known: a
   * command parameter that fails stops it with no field changed; the help command cannot
   * fail on a global; a global that fails leaves written the globals bound before it.
   */
  lemma DispatchFails(m: Model, matches: RegexEngine, args: seq<string>, fields: Fields,
                      after: Fields, r: Result<Invocation, Failure>)
    requires DispatchAllows(m, matches, args, fields, after, r)
    requires Front(m, args).Ok?
    requires forall n :: n in OptionMap(args) ==> Known(m.globals, Front(m, args).value.0, n)
    ensures var c := Front(m, args).value.0;
      BindAll(c.params, OptionMap(args), matches).Err? ==>
        r == Err(BindAll(c.params, OptionMap(args), matches).error) && after == fields
    ensures var c := Front(m, args).value.0;
      BindAll(c.params, OptionMap(args), matches).Ok? && c.isHelp ==> r.Ok? && after == fields
    ensures var c := Front(m, args).value.0; var b := BindGlobals(m.globals, OptionMap(args), matches);
      BindAll(c.params, OptionMap(args), matches).Ok? && !c.isHelp && b.failure.Some? ==>
        r == Err(Cmd(b.failure.value)) && after == WriteAll(fields, m.globals, b.written)
  {
    FrontOptions(m, args);
    var (c, opts) := Front(m, args).value;
    assert UnknownOptions(m.globals, c, opts) == {} by {
      forall n | n in opts ensures n !in UnknownOptions(m.globals, c, opts) {
      }
    }
  }

  /**
   * The short form of a parameter's name, as the help text shows it, is read back as an
   * option the dispatch recognises for that command, unless the short name holds a colon
   * or begins with `-` (then `-` and the short name read as something else).
   */
  lemma ShortOptionRecognised(gs: seq<GlobalParameter>, c: Command, k: nat, value: Option<string>)
    requires k < |c.params| && ':' !in c.params[k].shortName
    requires c.params[k].shortName == "" || c.params[k].shortName[0] != '-'
    requires value.Some? ==> c.params[k].shortName != ""
    ensures var token := if value.Some? then "-" + c.params[k].shortName + ":" + value.value else "-" + c.params[k].shortName;
      IsOptionToken(token) && ParseOption(token) == ParsedOption(c.params[k].shortName, value) &&
      Known(gs, c, ParseOption(token).name)
  {
    var name := c.params[k].shortName;
    var token := if value.Some? then "-" + name + ":" + value.value else "-" + name;
    ShortFormRoundTrip(name, value);
    assert token[0] == '-';
    assert ParseOption(token).name == name;
    assert NamesParameter(c.params[k], name);
  }

  /**
   * The long form of a parameter's name, as the help text shows it, is read back as an
   * option the dispatch recognises for that command.
   */
  lemma LongOptionRecognised(gs: seq<GlobalParameter>, c: Command, k: nat, value: Option<string>)
    requires k < |c.params| && ':' !in c.params[k].name
    requires value.Some? ==> c.params[k].name != ""
    ensures var token := if value.Some? then "--" + c.params[k].name + ":" + value.value else "--" + c.params[k].name;
      IsOptionToken(token) && ParseOption(token) == ParsedOption(c.params[k].name, value) &&
      Known(gs, c, ParseOption(token).name)
  {
    var name := c.params[k].name;
    LongFormRoundTrip(name, value);
    if value.Some? {
      assert ("--" + name + ":" + value.value)[0] == '-';
    } else {
      assert ("--" + name)[0] == '-';
    }
  }

  /** The long form of a global parameter's name, as the help text lists it, is read back as a known option. */
  lemma GlobalLongOptionRecognised(gs: seq<GlobalParameter>, c: Command, k: nat, value: Option<string>)
    requires k < |gs| && ':' !in gs[k].param.name
    requires value.Some? ==> gs[k].param.name != ""
    ensures var token := if value.Some? then "--" + gs[k].param.name + ":" + value.value else "--" + gs[k].param.name;
      IsOptionToken(token) && ParseOption(token) == ParsedOption(gs[k].param.name, value) &&
      Known(gs, c, ParseOption(token).name)
  {
    var name := gs[k].param.name;
    var token := if value.Some? then "--" + name + ":" + value.value else "--" + name;
    LongFormRoundTrip(name, value);
    assert token[0] == '-';
    assert NamesParameter(gs[k].param, name);
  }

  /**
   * The short form of a global parameter's name, as the help text lists it, is read back as
   * a known option, unless the short name holds a colon or begins with `-`.
   */
  lemma GlobalShortOptionRecognised(gs: seq<GlobalParameter>, c: Command, k: nat, value: Option<string>)
    requires k < |gs| && ':' !in gs[k].param.shortName
    requires gs[k].param.shortName == "" || gs[k].param.shortName[0] != '-'
    requires value.Some? ==> gs[k].param.shortName != ""
    ensures var token := if value.Some? then "-" + gs[k].param.shortName + ":" + value.value else "-" + gs[k].param.shortName;
      IsOptionToken(token) && ParseOption(token) == ParsedOption(gs[k].param.shortName, value) &&
      Known(gs, c, ParseOption(token).name)
  {
    var name := gs[k].param.shortName;
    var token := if value.Some? then "-" + name + ":" + value.value else "-" + name;
    ShortFormRoundTrip(name, value);
    assert token[0] == '-';
    assert NamesParameter(gs[k].param, name);
  }
}
