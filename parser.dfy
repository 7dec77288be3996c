/**
 * `CmdParser` itself: the parser state the constructor builds from the schema, and the
 * step-by-step code of `dispatch`, `runCommand`, `getHelpText` and the helpers they use,
 * each proved against the function that specifies it.
 */
module Parser {
  import opened Wrappers
  import opened Errors
  import opened JavaText
  import opened Values
  import opened Validators
  import opened Schema
  import opened OptionTokens
  import opened HelpText
  import opened Resolution

  /** `createParameterForCommand(type, annotations)`: one pass over the annotations, each kind setting its own slot. */
  method CreateParameter(pd: ParamDecl) returns (r: Result<Parameter, CmdError>)
    ensures r == ParameterOf(pd)
  {
    var name: Option<NameAnnotation> := None;
    var defaultValue: Option<string> := None;
    var isRequired := false;
    var validator: Option<Validator> := None;
    var i := 0;
    while i < |pd.annotations|
      invariant 0 <= i <= |pd.annotations|
      invariant Draft(name, defaultValue, isRequired, validator) == ReadAnnotations(pd.annotations[..i])
    {
      match pd.annotations[i] {
        case NameAnn(n) => name := Some(n);
        case DefaultValueAnn(v) => defaultValue := Some(v);
        case RequiredAnn => isRequired := true;
        case NonEmptyAnn => validator := Some(NonEmpty);
        case RegexAnn(pattern) => validator := Some(Regex(pattern));
        case LongRangeAnn(min, max) => validator := Some(LongRange(min, max));
        case OtherAnn =>
      }
      assert pd.annotations[..i + 1][..i] == pd.annotations[..i];
      i := i + 1;
    }
    assert pd.annotations[..i] == pd.annotations;
    if name.None? {
      return Err(CmdError(PARSE_PARAM_NAME_UNDEFINED, None, "Parameter name must be defined", None));
    }
    return Ok(Parameter(name.value.name, name.value.shortName, name.value.description,
                        defaultValue, isRequired, pd.ptype, validator));
  }

  /** The parameters of a declared method, created in order; the first failure stops it. */
  method CreateParameters(pds: seq<ParamDecl>) returns (r: Result<seq<Parameter>, CmdError>)
    ensures r == ParametersOf(pds)
  {
    var params: seq<Parameter> := [];
    var i := 0;
    while i < |pds|
      invariant 0 <= i <= |pds|
      invariant ParametersOf(pds[..i]) == Ok(params)
    {
      var p := CreateParameter(pds[i]);
      assert pds[..i + 1][..i] == pds[..i];
      if p.Err? {
        ParametersOfStops(pds, i + 1);
        return Err(p.error);
      }
      params := params + [p.value];
      i := i + 1;
    }
    assert pds[..i] == pds;
    r := Ok(params);
  }

  /** The `while (builder.length() < width)` loop: spaces appended up to the given width. */
  method AppendSpaces(s: string, width: int) returns (r: string)
    ensures r == PadRight(s, width)
  {
    r := s;
    while |r| < width
      invariant |s| <= |r| && r[..|s|] == s
      invariant forall i :: |s| <= i < |r| ==> r[i] == ' '
      invariant |r| <= width || r == s
      decreases width - |r|
    {
      r := r + " ";
    }
    var padded := PadRight(s, width);
    assert |r| == |padded|;
    forall i | 0 <= i < |r| ensures r[i] == padded[i] {
      if i < |s| {
        assert r[..|s|][i] == r[i] && padded[..|s|][i] == padded[i];
      }
    }
  }

  /** `formatParameter(parameter, width)`. */
  method FormatParameter(p: Parameter, width: int) returns (line: string)
    ensures line == ParameterLine(p, width)
  {
    var builder := "";
    if p.name != "" {
      builder := builder + "--" + p.name;
    }
    if p.shortName != "" {
      if |builder| > 0 {
        builder := builder + ", ";
      }
      builder := builder + "-" + p.shortName;
    }
    assert builder == OptionNames(p);
    builder := AppendSpaces(builder, width);
    builder := builder + p.description;
    ghost var named := builder;
    var part := " [" + TypeName(p.ptype);
    ghost var attributes := part;
    builder := builder + part;
    if p.isRequired {
      part := ", Required";
      assert named + attributes + part == named + (attributes + part);
      builder, attributes := builder + part, attributes + part;
    }
    if p.defaultValue.Some? && p.defaultValue.value != "" {
      part := ", Default=" + p.defaultValue.value;
      assert named + attributes + part == named + (attributes + part);
      builder, attributes := builder + part, attributes + part;
    }
    part := "]";
    assert named + attributes + part == named + (attributes + part);
    builder, attributes := builder + part, attributes + part;
    assert attributes == Attributes(p);
    line := builder;
  }

  /** `formatCommand(command)`. */
  method FormatCommand(c: Command) returns (block: string)
    ensures block == CommandBlock(c)
  {
    var builder := "  " + c.name;
    if c.shortName.Some? && c.shortName.value != "" {
      builder := builder + " (" + c.shortName.value + ")";
    }
    assert builder == CommandTitle(c);
    builder := AppendSpaces(builder, CommandWidth);
    builder := builder + DescriptionText(c.description) + NL;
    ghost var head := builder;
    var entries := ParameterEntries(c.params);
    var i := 0;
    while i < |c.params|
      invariant 0 <= i <= |c.params|
      invariant builder == head + Joined(entries[..i])
    {
      var line := FormatParameter(c.params[i], ParameterWidth);
      var entry := "    " + line + NL;
      assert entry == entries[i];
      AppendEntry(head, entries, i);
      builder := builder + entry;
      i := i + 1;
    }
    assert entries[..i] == entries;
    block := builder + NL;
  }

  /** `CmdParser`: the registered commands, the default command and the global parameters. */
  class CmdParser {
    var commands: seq<Command>
    var defaultCommand: Option<Command>
    var globals: seq<GlobalParameter>

    /** The parser state as a value. */
    function State(): Model
      reads this
    {
      Model(commands, defaultCommand, globals)
    }

    /** The lists `new CmdParser(impl)` starts from, before `initParser` fills them. */
    constructor ()
      ensures State() == EmptyModel
    {
      commands := [];
      defaultCommand := None;
      globals := [];
    }

    /** `findCommand(name)`; a null name finds nothing. */
    method FindCommandNamed(name: Option<string>) returns (found: Option<Command>)
      ensures found.Some? <==> name.Some? && FindCommand(commands, name.value).Some?
      ensures found.Some? ==> found.value == commands[FindCommand(commands, name.value).value]
    {
      if name.None? {
        return None;
      }
      var n := name.value;
      var i := 0;
      while i < |commands|
        invariant 0 <= i <= |commands|
        invariant forall j :: 0 <= j < i ==> !Answers(commands[j], n)
      {
        var c := commands[i];
        if c.name == n || c.shortName == Some(n) {
          assert Answers(c, n);
          return Some(c);
        }
        i := i + 1;
      }
      return None;
    }

    /**
     * `addCommandFromMethod(method)`. On DUPLICATE_DEFAULT_COMMAND the command has
     * already been appended to the list; the other failures leave the state unchanged.
     */
    method AddCommand(d: CommandDecl) returns (err: Option<CmdError>)
      modifies this
      ensures var reg := RegisterCommand(old(State()), d);
        (reg.Ok? ==> err.None? && State() == reg.value) &&
        (reg.Err? ==> err == Some(reg.error))
      ensures err.Some? && err.value.code != PARSE_DUPLICATE_DEFAULT_COMMAND ==> State() == old(State())
      ensures err.Some? && err.value.code == PARSE_DUPLICATE_DEFAULT_COMMAND ==>
        CommandOf(d).Ok? && commands == old(commands) + [CommandOf(d).value] &&
        defaultCommand == old(defaultCommand) && globals == old(globals)
    {
      var created := CreateParameters(d.params);
      if created.Err? {
        return Some(created.error);
      }
      var params := created.value;
      var c := Command(ToLowerCase(d.methodName), None, None, params, d.isHelp);
      if d.nameAnnotation.Some? {
        var a := d.nameAnnotation.value;
        c := Command(a.name, Some(a.shortName), Some(a.description), params, d.isHelp);
      }
      assert CommandOf(d) == Ok(c);
      var byName := FindCommandNamed(Some(c.name));
      var byShortName := FindCommandNamed(c.shortName);
      if byName.Some? || byShortName.Some? {
        return Some(Error(PARSE_DUPLICATE_COMMAND_NAME, c.name, "Duplicate command names are not allowed"));
      }
      commands := commands + [c];
      if d.isDefault {
        if defaultCommand.Some? {
          return Some(Error(PARSE_DUPLICATE_DEFAULT_COMMAND, c.name, "Only one default command is allowed"));
        }
        defaultCommand := Some(c);
      }
      return None;
    }

    /** One public field of the handler object registered as a global parameter. */
    method AddGlobal(f: FieldDecl) returns (err: Option<CmdError>)
      modifies this
      ensures var reg := RegisterGlobal(old(State()), f);
        (reg.Ok? ==> err.None? && State() == reg.value) &&
        (reg.Err? ==> err == Some(reg.error) && State() == old(State()))
    {
      var p := CreateParameter(f.decl);
      if p.Err? {
        return Some(p.error);
      }
      globals := globals + [GlobalParameter(f.field, p.value)];
      return None;
    }

    /** `initParser(type)`: every declared method, then every public field. */
    method Init(s: SchemaDecl) returns (err: Option<CmdError>)
      requires State() == EmptyModel
      modifies this
      ensures err.None? <==> BuildSchema(s).Ok?
      ensures err.None? ==> State() == BuildSchema(s).value && WellFormed(State())
      ensures err.Some? ==> err.value == BuildSchema(s).error
    {
      var i := 0;
      while i < |s.methods|
        invariant 0 <= i <= |s.methods|
        invariant RegisterCommands(EmptyModel, s.methods[..i]) == Ok(State())
      {
        RegisterCommandsStep(EmptyModel, s.methods, i, State());
        err := AddCommand(s.methods[i]);
        if err.Some? {
          RegisterCommandsStops(EmptyModel, s.methods, i + 1);
          return;
        }
        i := i + 1;
      }
      assert s.methods[..i] == s.methods;
      ghost var registered := State();
      var j := 0;
      while j < |s.fields|
        invariant 0 <= j <= |s.fields|
        invariant RegisterGlobals(registered, s.fields[..j]) == Ok(State())
      {
        RegisterGlobalsStep(registered, s.fields, j, State());
        err := AddGlobal(s.fields[j]);
        if err.Some? {
          RegisterGlobalsStops(registered, s.fields, j + 1);
          return;
        }
        j := j + 1;
      }
      assert s.fields[..j] == s.fields;
      BuildSchemaGuarantees(s);
      err := None;
    }

    /** Whether a global parameter or a parameter of the command has `n` as its full or short name. */
    method IsKnownOption(c: Command, n: string) returns (found: bool)
      ensures found == Known(globals, c, n)
    {
      var i := 0;
      while i < |globals|
        invariant 0 <= i <= |globals|
        invariant forall k :: 0 <= k < i ==> !NamesParameter(globals[k].param, n)
      {
        if globals[i].param.name == n || globals[i].param.shortName == n {
          return true;
        }
        i := i + 1;
      }
      var j := 0;
      while j < |c.params|
        invariant 0 <= j <= |c.params|
        invariant forall k :: 0 <= k < j ==> !NamesParameter(c.params[k], n)
      {
        if c.params[j].name == n || c.params[j].shortName == n {
          return true;
        }
        j := j + 1;
      }
      return false;
    }

    /** The value of one parameter: looked up by full name, then short name, then required, default, zero; then validated. */
    static method ResolveParameter(p: Parameter, options: Options, matches: RegexEngine) returns (r: Result<Value, Failure>)
      ensures r == BindParameter(p, options, matches)
    {
      var value: Result<Value, Failure>;
      if p.name in options {
        value := Coerce(p.ptype, p.name, options[p.name]);
      } else if p.shortName in options {
        value := Coerce(p.ptype, p.shortName, options[p.shortName]);
      } else if p.isRequired {
        return Err(Cmd(Error(DISPATCH_MISSING_REQUIRED_PARAMETER, p.name, "Missing required parameter")));
      } else if p.defaultValue.Some? {
        value := Coerce(p.ptype, p.name, p.defaultValue);
      } else {
        value := Ok(ZeroValue(p.ptype));
      }
      if value.Err? {
        return value;
      }
      r := CheckValue(p, value.value, matches);
    }

    /** `getHelpText()`. */
    method GetHelpText() returns (text: string)
      ensures text == Help(globals, commands)
    {
      text := Usage + NL + NL + "Global options:" + NL;
      ghost var head := text;
      var lines := GlobalEntries(globals);
      var i := 0;
      while i < |globals|
        invariant 0 <= i <= |globals|
        invariant text == head + Joined(lines[..i])
      {
        var line := FormatParameter(globals[i].param, GlobalWidth);
        var entry := "  " + line + NL;
        assert entry == lines[i];
        AppendEntry(head, lines, i);
        text := text + entry;
        i := i + 1;
      }
      assert lines[..i] == lines;
      text := text + NL + "Commands:" + NL;
      assert text == HelpHead(globals);
      ghost var heading := text;
      var blocks := Blocks(commands);
      var j := 0;
      while j < |commands|
        invariant 0 <= j <= |commands|
        invariant text == heading + Joined(blocks[..j])
      {
        var block := FormatCommand(commands[j]);
        AppendEntry(heading, blocks, j);
        text := text + block;
        j := j + 1;
      }
      assert blocks[..j] == blocks;
    }

    /**
     * The loop of `runCommand` over the global parameters: each one is bound and written to
     * its field before the next is looked at, so the fields written before a failure stay written.
     */
    method SetGlobals(options: Options, matches: RegexEngine, fields: Fields)
      returns (after: Fields, failure: Option<CmdError>)
      ensures var b := BindGlobals(globals, options, matches);
        after == WriteAll(fields, globals, b.written) && failure == b.failure
    {
      after := fields;
      var written: seq<Value> := [];
      var i := 0;
      while i < |globals|
        invariant 0 <= i <= |globals|
        invariant BindGlobals(globals[..i], options, matches) == Binding(written, None)
        invariant |written| == i && after == WriteAll(fields, globals, written)
      {
        var g := globals[i];
        var value := ResolveParameter(g.param, options, matches);
        BindGlobalsStep(globals, options, matches, i, written);
        if value.Err? {
          BindGlobalsStops(globals, options, matches, i + 1);
          return after, Some(AsInvokeError(value.error));
        }
        WriteAllStep(fields, globals, written, value.value);
        written := written + [value.value];
        after := after[g.field := value.value];
        i := i + 1;
      }
      assert globals[..i] == globals;
      failure := None;
    }

    /**
     * `runCommand(command, arguments, options)`: the help command is handed the help text;
     * otherwise the global parameters are set, and then the command is invoked with its arguments.
     */
    method RunCommand(c: Command, arguments: seq<Value>, options: Options, matches: RegexEngine, fields: Fields)
      returns (after: Fields, r: Result<Invocation, CmdError>)
      ensures (after, r) == Run(State(), c, arguments, options, matches, fields)
    {
      if c.isHelp {
        var help := GetHelpText();
        return fields, Ok(Invocation(c, [Str(help)]));
      }
      var failure;
      after, failure := SetGlobals(options, matches, fields);
      if failure.Some? {
        return after, Err(failure.value);
      }
      r := Ok(Invocation(c, arguments));
    }

    /** The first loop of `dispatch`: options into the map, a command word looked up in lower case. */
    method ScanArguments(args: seq<string>) returns (r: Result<ScanState, CmdError>)
      ensures r == Scan(commands, args)
    {
      var command: Option<Command> := None;
      var options: Options := map[];
      var i := 0;
      while i < |args|
        invariant 0 <= i <= |args|
        invariant Scan(commands, args[..i]) == Ok(ScanState(command, options))
      {
        var arg := args[i];
        ScanStep(commands, args, i, ScanState(command, options));
        if IsOptionToken(arg) {
          var option := ParseOption(arg);
          options := options[option.name := option.value];
        } else {
          if command.Some? {
            ScanStops(commands, args, i + 1);
            return Err(Error(DISPATCH_DUPLICATE_COMMAND, arg, "The command line can only have one command"));
          }
          command := FindCommandNamed(Some(ToLowerCase(arg)));
          if command.None? {
            ScanStops(commands, args, i + 1);
            return Err(Error(DISPATCH_UNKNOWN_COMMAND, arg, "Unknown command"));
          }
        }
        i := i + 1;
      }
      assert args[..i] == args;
      r := Ok(ScanState(command, options));
    }

    /** The second loop of `dispatch`: some option that names no parameter, or None when every option does. */
    method FindUnknownOption(c: Command, options: Options) returns (unknown: Option<string>)
      ensures unknown.None? <==> UnknownOptions(globals, c, options) == {}
      ensures unknown.Some? ==> unknown.value in UnknownOptions(globals, c, options)
    {
      var unchecked := options.Keys;
      while unchecked != {}
        invariant unchecked <= options.Keys
        invariant forall n :: n in options && n !in unchecked ==> Known(globals, c, n)
        decreases unchecked
      {
        var n :| n in unchecked;
        var found := IsKnownOption(c, n);
        if !found {
          assert n in UnknownOptions(globals, c, options);
          return Some(n);
        }
        unchecked := unchecked - {n};
      }
      assert forall n :: n in options ==> n !in UnknownOptions(globals, c, options);
      return None;
    }

    /** The third loop of `dispatch`: the command's argument list, one value per parameter in order. */
    static method BindArguments(ps: seq<Parameter>, options: Options, matches: RegexEngine)
      returns (r: Result<seq<Value>, Failure>)
      ensures r == BindAll(ps, options, matches)
    {
      var arguments: seq<Value> := [];
      var k := 0;
      while k < |ps|
        invariant 0 <= k <= |ps|
        invariant BindAll(ps[..k], options, matches) == Ok(arguments)
      {
        var value := ResolveParameter(ps[k], options, matches);
        BindAllStep(ps, options, matches, k, arguments);
        if value.Err? {
          BindAllStops(ps, options, matches, k + 1);
          return Err(value.error);
        }
        arguments := arguments + [value.value];
        k := k + 1;
      }
      assert ps[..k] == ps;
      r := Ok(arguments);
    }

    /**
     * `dispatch(args)`: the token scan, the choice of command, the unknown-option check and
     * the binding of the command's parameters, then `runCommand`. The handler object's
     * fields go in and come out; the outcome is one that `DispatchAllows` describes.
     */
    method Dispatch(args: seq<string>, matches: RegexEngine, fields: Fields)
      returns (after: Fields, r: Result<Invocation, Failure>)
      ensures DispatchAllows(State(), matches, args, fields, after, r)
    {
      after := fields;
      var scanned := ScanArguments(args);
      if scanned.Err? {
        return fields, Err(Cmd(scanned.error));
      }
      var command := scanned.value.command;
      var options := scanned.value.options;
      if command.None? && defaultCommand.None? {
        return fields, Err(Cmd(CmdError(DISPATCH_NO_COMMAND, None, "No command was specified", None)));
      } else if command.None? {
        command := defaultCommand;
      }
      var c := command.value;
      assert Front(State(), args) == Ok((c, options));

      var unknown := FindUnknownOption(c, options);
      if unknown.Some? {
        return fields, Err(Cmd(UnknownOption(unknown.value)));
      }

      var arguments := BindArguments(c.params, options, matches);
      if arguments.Err? {
        return fields, Err(arguments.error);
      }

      var result: Result<Invocation, CmdError>;
      after, result := RunCommand(c, arguments.value, options, matches, fields);
      r := if result.Ok? then Ok(result.value) else Err(Cmd(result.error));
    }
  }

  /** `new CmdParser(impl)`: the parser built from the handler's schema, or the error that stopped it. */
  method NewParser(s: SchemaDecl) returns (parser: CmdParser, err: Option<CmdError>)
    ensures fresh(parser)
    ensures err.None? <==> BuildSchema(s).Ok?
    ensures err.None? ==> parser.State() == BuildSchema(s).value && WellFormed(parser.State())
    ensures err.Some? ==> err.value == BuildSchema(s).error
  {
    parser := new CmdParser();
    err := parser.Init(s);
  }
}
