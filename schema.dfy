/**
 * The schema model and its builder. The annotations the parser reads by reflection
 * are given here as explicit descriptors: one `CommandDecl` per declared method, one
 * `FieldDecl` per public field (a global parameter), each parameter a type tag and its
 * annotations in declaration order. `BuildSchema` is the constructor's `initParser`.
 */
module Schema {
  import opened Wrappers
  import opened Errors
  import opened JavaText
  import opened Values
  import opened Validators

  /** `@Name(name, shortName, description)`. */
  datatype NameAnnotation = NameAnnotation(name: string, shortName: string, description: string)

  /** The annotations `createParameterForCommand` reads; `OtherAnn` is any other one, which it skips. */
  datatype ParamAnnotation =
    | NameAnn(n: NameAnnotation)
    | DefaultValueAnn(value: string)
    | RequiredAnn
    | NonEmptyAnn
    | RegexAnn(pattern: string)
    | LongRangeAnn(min: Long, max: Long)
    | OtherAnn

  /** A method parameter or a public field: its declared type and its annotations. */
  datatype ParamDecl = ParamDecl(ptype: ParamType, annotations: seq<ParamAnnotation>)

  /** A declared method: its identifier, its `@Name`, whether it has `@Help` and `@DefaultCommand`, its parameters. */
  datatype CommandDecl = CommandDecl(
    methodName: string,
    nameAnnotation: Option<NameAnnotation>,
    isHelp: bool,
    isDefault: bool,
    params: seq<ParamDecl>)

  /** A public field of the handler object: its name and its declaration. */
  datatype FieldDecl = FieldDecl(field: string, decl: ParamDecl)

  /** The whole declarative schema: declared methods, then public fields, in reflection order. */
  datatype SchemaDecl = SchemaDecl(methods: seq<CommandDecl>, fields: seq<FieldDecl>)

  /** `CmdParser.Parameter`. A built parameter always has a name. */
  datatype Parameter = Parameter(
    name: string,
    shortName: string,
    description: string,
    defaultValue: Option<string>,
    isRequired: bool,
    ptype: ParamType,
    validator: Option<Validator>)

  /** `CmdParser.Command`; short name and description are null without `@Name`. */
  datatype Command = Command(
    name: string,
    shortName: Option<string>,
    description: Option<string>,
    params: seq<Parameter>,
    isHelp: bool)

  /** `CmdParser.GlobalParameter`: a parameter bound to a field of the handler object. */
  datatype GlobalParameter = GlobalParameter(field: string, param: Parameter)

  /** The parser's state once built: `_commands`, `_defaultCommand`, `_globalParameters`. */
  datatype Model = Model(commands: seq<Command>, defaultCommand: Option<Command>, globals: seq<GlobalParameter>)

  const EmptyModel := Model([], None, [])

  // ----- createParameterForCommand -----

  /** The parameter being built while its annotations are scanned. */
  datatype Draft = Draft(
    name: Option<NameAnnotation>,
    defaultValue: Option<string>,
    isRequired: bool,
    validator: Option<Validator>)

  const Unannotated := Draft(None, None, false, None)

  /** The validator an annotation installs, if it is a validator annotation. */
  function ValidatorOf(a: ParamAnnotation): Option<Validator> {
    match a
    case NonEmptyAnn => Some(NonEmpty)
    case RegexAnn(p) => Some(Regex(p))
    case LongRangeAnn(min, max) => Some(LongRange(min, max))
    case _ => None
  }

  /** One step of the annotation scan: each kind of annotation overwrites its own slot. */
  function Apply(d: Draft, a: ParamAnnotation): Draft {
    match a
    case NameAnn(n) => d.(name := Some(n))
    case DefaultValueAnn(v) => d.(defaultValue := Some(v))
    case RequiredAnn => d.(isRequired := true)
    case OtherAnn => d
    case _ => d.(validator := ValidatorOf(a))
  }

  /** The draft after scanning the annotations in order. */
  function ReadAnnotations(anns: seq<ParamAnnotation>): Draft
    decreases |anns|
  {
    if anns == [] then Unannotated else Apply(ReadAnnotations(anns[..|anns| - 1]), anns[|anns| - 1])
  }

  /** `createParameterForCommand(type, annotations)`. */
  function ParameterOf(pd: ParamDecl): Result<Parameter, CmdError> {
    var d := ReadAnnotations(pd.annotations);
    if d.name.None? then
      Err(CmdError(PARSE_PARAM_NAME_UNDEFINED, None, "Parameter name must be defined", None))
    else
      Ok(Parameter(d.name.value.name, d.name.value.shortName, d.name.value.description,
                   d.defaultValue, d.isRequired, pd.ptype, d.validator))
  }

  /** Among several validator annotations the last one scanned is kept. */
  lemma {:induction false} ValidatorLastWins(anns: seq<ParamAnnotation>, i: nat)
    requires i < |anns| && ValidatorOf(anns[i]).Some?
    requires forall j :: i < j < |anns| ==> ValidatorOf(anns[j]).None?
    ensures ReadAnnotations(anns).validator == ValidatorOf(anns[i])
    decreases |anns|
  {
    if i < |anns| - 1 {
      ValidatorLastWins(anns[..|anns| - 1], i);
    }
  }

  /** Without any validator annotation the parameter has no validator. */
  lemma {:induction false} NoValidatorAnnotation(anns: seq<ParamAnnotation>)
    requires forall j :: 0 <= j < |anns| ==> ValidatorOf(anns[j]).None?
    ensures ReadAnnotations(anns).validator.None?
    decreases |anns|
  {
    if anns != [] {
      NoValidatorAnnotation(anns[..|anns| - 1]);
    }
  }

  /** There is no name exactly when no annotation is `@Name`. */
  lemma {:induction false} NameAbsentIff(anns: seq<ParamAnnotation>)
    ensures ReadAnnotations(anns).name.None? <==> forall j :: 0 <= j < |anns| ==> !anns[j].NameAnn?
    decreases |anns|
  {
    if anns != [] {
      NameAbsentIff(anns[..|anns| - 1]);
      if !anns[|anns| - 1].NameAnn? && ReadAnnotations(anns[..|anns| - 1]).name.Some? {
        var j :| 0 <= j < |anns| - 1 && anns[..|anns| - 1][j].NameAnn?;
        assert anns[j].NameAnn?;
      }
    }
  }

  /** Name, short name and description come from the last `@Name` scanned. */
  lemma {:induction false} NameLastWins(anns: seq<ParamAnnotation>, i: nat)
    requires i < |anns| && anns[i].NameAnn?
    requires forall j :: i < j < |anns| ==> !anns[j].NameAnn?
    ensures ReadAnnotations(anns).name == Some(anns[i].n)
    decreases |anns|
  {
    if i < |anns| - 1 {
      NameLastWins(anns[..|anns| - 1], i);
    }
  }

  /** A parameter is required exactly when some annotation is `@Required`. */
  lemma {:induction false} RequiredIffAnnotated(anns: seq<ParamAnnotation>)
    ensures ReadAnnotations(anns).isRequired <==> exists j :: 0 <= j < |anns| && anns[j] == RequiredAnn
    decreases |anns|
  {
    if anns != [] {
      RequiredIffAnnotated(anns[..|anns| - 1]);
      if ReadAnnotations(anns[..|anns| - 1]).isRequired {
        var j :| 0 <= j < |anns| - 1 && anns[..|anns| - 1][j] == RequiredAnn;
        assert anns[j] == RequiredAnn;
      }
    }
  }

  /** Building a parameter fails with PARSE_PARAM_NAME_UNDEFINED exactly when it carries no `@Name`. */
  lemma ParameterNameUndefinedIff(pd: ParamDecl)
    ensures ParameterOf(pd).Err? <==> forall j :: 0 <= j < |pd.annotations| ==> !pd.annotations[j].NameAnn?
    ensures ParameterOf(pd).Err? ==> ParameterOf(pd).error.code == PARSE_PARAM_NAME_UNDEFINED
  {
    NameAbsentIff(pd.annotations);
  }

  // ----- findCommand -----

  /** Whether a command answers to a name, by its full or its short name. */
  predicate Answers(c: Command, n: string) {
    c.name == n || c.shortName == Some(n)
  }

  /** `findCommand(name)`: the index of the first registered command answering to `name`. */
  function FindCommand(cs: seq<Command>, n: string): (r: Option<nat>)
    ensures r.Some? ==> r.value < |cs| && Answers(cs[r.value], n)
    ensures r.Some? ==> forall j :: 0 <= j < r.value ==> !Answers(cs[j], n)
    ensures r.None? <==> forall j :: 0 <= j < |cs| ==> !Answers(cs[j], n)
  {
    if cs == [] then None
    else if Answers(cs[0], n) then Some(0)
    else match FindCommand(cs[1..], n)
      case None => None
      case Some(k) => Some(k + 1)
  }

  // ----- addCommandFromMethod -----

  /** The parameters of a method, built in order; the first one without a name stops the build. */
  function ParametersOf(pds: seq<ParamDecl>): (r: Result<seq<Parameter>, CmdError>)
    ensures r.Ok? ==> |r.value| == |pds| && forall k :: 0 <= k < |pds| ==> ParameterOf(pds[k]) == Ok(r.value[k])
    ensures r.Err? ==> exists k :: 0 <= k < |pds| && ParameterOf(pds[k]) == Err(r.error)
    decreases |pds|
  {
    if pds == [] then Ok([])
    else match ParametersOf(pds[..|pds| - 1])
      case Err(e) => Err(e)
      case Ok(ps) =>
        match ParameterOf(pds[|pds| - 1])
        case Err(e) => Err(e)
        case Ok(p) => Ok(ps + [p])
  }

  /** The command a method declares: its lower-cased identifier unless `@Name` gives a name. */
  function CommandOf(d: CommandDecl): Result<Command, CmdError> {
    match ParametersOf(d.params)
    case Err(e) => Err(e)
    case Ok(ps) =>
      match d.nameAnnotation
      case None => Ok(Command(ToLowerCase(d.methodName), None, None, ps, d.isHelp))
      case Some(a) => Ok(Command(a.name, Some(a.shortName), Some(a.description), ps, d.isHelp))
  }

  /** A new command collides when a registered command answers to its name or to its short name. */
  predicate Collides(cs: seq<Command>, c: Command) {
    FindCommand(cs, c.name).Some? || (c.shortName.Some? && FindCommand(cs, c.shortName.value).Some?)
  }

  /** `addCommandFromMethod`: the duplicate-name check comes before the default-command check. */
  function RegisterCommand(m: Model, d: CommandDecl): Result<Model, CmdError> {
    match CommandOf(d)
    case Err(e) => Err(e)
    case Ok(c) =>
      if Collides(m.commands, c) then
        Err(Error(PARSE_DUPLICATE_COMMAND_NAME, c.name, "Duplicate command names are not allowed"))
      else if d.isDefault && m.defaultCommand.Some? then
        Err(Error(PARSE_DUPLICATE_DEFAULT_COMMAND, c.name, "Only one default command is allowed"))
      else
        Ok(m.(commands := m.commands + [c], defaultCommand := if d.isDefault then Some(c) else m.defaultCommand))
  }

  function RegisterCommands(m: Model, ds: seq<CommandDecl>): Result<Model, CmdError>
    decreases |ds|
  {
    if ds == [] then Ok(m)
    else match RegisterCommands(m, ds[..|ds| - 1])
      case Err(e) => Err(e)
      case Ok(m') => RegisterCommand(m', ds[|ds| - 1])
  }

  /** A public field becomes a global parameter. */
  function RegisterGlobal(m: Model, f: FieldDecl): Result<Model, CmdError> {
    match ParameterOf(f.decl)
    case Err(e) => Err(e)
    case Ok(p) => Ok(m.(globals := m.globals + [GlobalParameter(f.field, p)]))
  }

  function RegisterGlobals(m: Model, fs: seq<FieldDecl>): Result<Model, CmdError>
    decreases |fs|
  {
    if fs == [] then Ok(m)
    else match RegisterGlobals(m, fs[..|fs| - 1])
      case Err(e) => Err(e)
      case Ok(m') => RegisterGlobal(m', fs[|fs| - 1])
  }

  /** `initParser`: every declared method, then every public field. */
  function BuildSchema(s: SchemaDecl): Result<Model, CmdError> {
    match RegisterCommands(EmptyModel, s.methods)
    case Err(e) => Err(e)
    case Ok(m) => RegisterGlobals(m, s.fields)
  }

  // ----- a failure part-way stops the whole build -----

  lemma {:induction false} ParametersOfStops(pds: seq<ParamDecl>, i: nat)
    requires i <= |pds| && ParametersOf(pds[..i]).Err?
    ensures ParametersOf(pds) == ParametersOf(pds[..i])
    decreases |pds| - i
  {
    if i < |pds| {
      assert pds[..i + 1][..i] == pds[..i];
      ParametersOfStops(pds, i + 1);
    } else {
      assert pds[..i] == pds;
    }
  }

  /** One more declared method registered. */
  lemma RegisterCommandsStep(m: Model, ds: seq<CommandDecl>, i: nat, m': Model)
    requires i < |ds| && RegisterCommands(m, ds[..i]) == Ok(m')
    ensures RegisterCommands(m, ds[..i + 1]) == RegisterCommand(m', ds[i])
  {
    assert ds[..i + 1][..i] == ds[..i];
  }

  /** One more public field registered. */
  lemma RegisterGlobalsStep(m: Model, fs: seq<FieldDecl>, i: nat, m': Model)
    requires i < |fs| && RegisterGlobals(m, fs[..i]) == Ok(m')
    ensures RegisterGlobals(m, fs[..i + 1]) == RegisterGlobal(m', fs[i])
  {
    assert fs[..i + 1][..i] == fs[..i];
  }

  lemma {:induction false} RegisterCommandsStops(m: Model, ds: seq<CommandDecl>, i: nat)
    requires i <= |ds| && RegisterCommands(m, ds[..i]).Err?
    ensures RegisterCommands(m, ds) == RegisterCommands(m, ds[..i])
    decreases |ds| - i
  {
    if i < |ds| {
      assert ds[..i + 1][..i] == ds[..i];
      RegisterCommandsStops(m, ds, i + 1);
    } else {
      assert ds[..i] == ds;
    }
  }

  lemma {:induction false} RegisterGlobalsStops(m: Model, fs: seq<FieldDecl>, i: nat)
    requires i <= |fs| && RegisterGlobals(m, fs[..i]).Err?
    ensures RegisterGlobals(m, fs) == RegisterGlobals(m, fs[..i])
    decreases |fs| - i
  {
    if i < |fs| {
      assert fs[..i + 1][..i] == fs[..i];
      RegisterGlobalsStops(m, fs, i + 1);
    } else {
      assert fs[..i] == fs;
    }
  }

  // ----- what a successful build guarantees -----

  /** Two commands share a name: the full or short name of one is a name the other answers to. */
  predicate Clash(a: Command, b: Command) {
    Answers(a, b.name) || (b.shortName.Some? && Answers(a, b.shortName.value))
  }

  /** No two registered commands share a full or short name. */
  predicate DistinctNames(cs: seq<Command>) {
    forall i, j :: 0 <= i < j < |cs| ==> !Clash(cs[i], cs[j])
  }

  /** The parser state the builder maintains: distinct names, and the default command is registered. */
  predicate WellFormed(m: Model) {
    DistinctNames(m.commands) && (m.defaultCommand.Some? ==> m.defaultCommand.value in m.commands)
  }

  /** Registering a command keeps the state well formed. */
  lemma RegisterCommandKeepsWellFormed(m: Model, d: CommandDecl)
    requires WellFormed(m) && RegisterCommand(m, d).Ok?
    ensures WellFormed(RegisterCommand(m, d).value)
  {
    var c := CommandOf(d).value;
    var cs := m.commands + [c];
    forall i, j | 0 <= i < j < |cs| ensures !Clash(cs[i], cs[j]) {
      if j == |cs| - 1 {
        assert !Answers(m.commands[i], c.name);
        assert c.shortName.Some? ==> !Answers(m.commands[i], c.shortName.value);
      }
    }
  }

  lemma {:induction false} RegisterCommandsKeepsWellFormed(m: Model, ds: seq<CommandDecl>)
    requires WellFormed(m) && RegisterCommands(m, ds).Ok?
    ensures WellFormed(RegisterCommands(m, ds).value)
    decreases |ds|
  {
    if ds != [] {
      RegisterCommandsKeepsWellFormed(m, ds[..|ds| - 1]);
      RegisterCommandKeepsWellFormed(RegisterCommands(m, ds[..|ds| - 1]).value, ds[|ds| - 1]);
    }
  }

  /** Registering commands keeps them in declaration order, one per declared method. */
  lemma {:induction false} RegisterCommandsOrder(m: Model, ds: seq<CommandDecl>)
    requires RegisterCommands(m, ds).Ok?
    ensures var m' := RegisterCommands(m, ds).value;
      m'.globals == m.globals &&
      |m'.commands| == |m.commands| + |ds| && m'.commands[..|m.commands|] == m.commands &&
      forall k :: 0 <= k < |ds| ==> CommandOf(ds[k]) == Ok(m'.commands[|m.commands| + k])
    decreases |ds|
  {
    if ds != [] {
      var init, last := ds[..|ds| - 1], ds[|ds| - 1];
      RegisterCommandsOrder(m, init);
      var m1 := RegisterCommands(m, init).value;
      var c := CommandOf(last).value;
      var m' := RegisterCommands(m, ds).value;
      assert m' == RegisterCommand(m1, last).value;
      assert m'.commands == m1.commands + [c] && m'.globals == m1.globals;
      forall k | 0 <= k < |ds|
        ensures CommandOf(ds[k]) == Ok(m'.commands[|m.commands| + k])
      {
        if k < |ds| - 1 {
          assert ds[k] == init[k];
        }
      }
    }
  }

  /** The default command: registered when some method is marked default; two marked methods fail the build. */
  lemma {:induction false} RegisterCommandsDefault(m: Model, ds: seq<CommandDecl>)
    requires m.defaultCommand.None? && RegisterCommands(m, ds).Ok?
    ensures RegisterCommands(m, ds).value.defaultCommand.Some? <==> exists k :: 0 <= k < |ds| && ds[k].isDefault
    ensures forall i, j :: 0 <= i < j < |ds| ==> !(ds[i].isDefault && ds[j].isDefault)
    decreases |ds|
  {
    if ds != [] {
      var init := ds[..|ds| - 1];
      RegisterCommandsDefault(m, init);
      assert forall k :: 0 <= k < |init| ==> init[k] == ds[k];
      var m' := RegisterCommands(m, init).value;
      if ds[|ds| - 1].isDefault {
        assert m'.defaultCommand.None?;
      }
    }
  }

  /** The default command is the command of the method marked default. */
  lemma {:induction false} RegisterCommandsDefaultIs(m: Model, ds: seq<CommandDecl>, k: nat)
    requires m.defaultCommand.None? && RegisterCommands(m, ds).Ok?
    requires k < |ds| && ds[k].isDefault
    ensures CommandOf(ds[k]).Ok? && RegisterCommands(m, ds).value.defaultCommand == Some(CommandOf(ds[k]).value)
    decreases |ds|
  {
    var init, last := ds[..|ds| - 1], ds[|ds| - 1];
    var m' := RegisterCommands(m, init).value;
    RegisterCommandsDefault(m, ds);
    if k < |ds| - 1 {
      assert init[k] == ds[k];
      RegisterCommandsDefaultIs(m, init, k);
      assert !last.isDefault;
    }
  }

  /**
   * Why registering the methods fails: a parameter without a name gives
   * PARSE_PARAM_NAME_UNDEFINED; a method whose command clashes with an earlier one gives
   * PARSE_DUPLICATE_COMMAND_NAME; a second method marked default gives
   * PARSE_DUPLICATE_DEFAULT_COMMAND.
   */
  lemma {:induction false} RegisterCommandsErrorCause(ds: seq<CommandDecl>)
    requires RegisterCommands(EmptyModel, ds).Err?
    ensures var e := RegisterCommands(EmptyModel, ds).error;
      (e.code == PARSE_PARAM_NAME_UNDEFINED && exists k :: 0 <= k < |ds| && CommandOf(ds[k]).Err?) ||
      (e.code == PARSE_DUPLICATE_COMMAND_NAME &&
         exists i, j :: 0 <= i < j < |ds| && CommandOf(ds[i]).Ok? && CommandOf(ds[j]).Ok? &&
           Clash(CommandOf(ds[i]).value, CommandOf(ds[j]).value)) ||
      (e.code == PARSE_DUPLICATE_DEFAULT_COMMAND &&
         exists i, j :: 0 <= i < j < |ds| && ds[i].isDefault && ds[j].isDefault)
    decreases |ds|
  {
    var init, last := ds[..|ds| - 1], ds[|ds| - 1];
    assert forall k :: 0 <= k < |init| ==> init[k] == ds[k];
    if RegisterCommands(EmptyModel, init).Err? {
      RegisterCommandsErrorCause(init);
    } else {
      var m' := RegisterCommands(EmptyModel, init).value;
      RegisterCommandsOrder(EmptyModel, init);
      RegisterCommandsDefault(EmptyModel, init);
      match CommandOf(last)
      case Err(e) =>
        var k :| 0 <= k < |last.params| && ParameterOf(last.params[k]) == Err(e);
        assert CommandOf(ds[|ds| - 1]).Err?;
      case Ok(c) =>
        if Collides(m'.commands, c) {
          var i := if FindCommand(m'.commands, c.name).Some? then FindCommand(m'.commands, c.name).value
                   else FindCommand(m'.commands, c.shortName.value).value;
          assert Clash(m'.commands[i], c);
          assert CommandOf(ds[i]) == Ok(m'.commands[i]);
        } else if last.isDefault && m'.defaultCommand.Some? {
          var i :| 0 <= i < |init| && init[i].isDefault;
          assert ds[i].isDefault && ds[|ds| - 1].isDefault;
        }
    }
  }

  /** Registering the fields fails only on a field without a name, with PARSE_PARAM_NAME_UNDEFINED. */
  lemma {:induction false} RegisterGlobalsErrorCause(m: Model, fs: seq<FieldDecl>)
    requires RegisterGlobals(m, fs).Err?
    ensures RegisterGlobals(m, fs).error.code == PARSE_PARAM_NAME_UNDEFINED
    ensures exists k :: 0 <= k < |fs| && ParameterOf(fs[k].decl).Err?
    decreases |fs|
  {
    var init := fs[..|fs| - 1];
    if RegisterGlobals(m, init).Err? {
      RegisterGlobalsErrorCause(m, init);
      var k :| 0 <= k < |init| && ParameterOf(init[k].decl).Err?;
      assert fs[k] == init[k];
    } else {
      assert ParameterOf(fs[|fs| - 1].decl).Err?;
    }
  }

  lemma {:induction false} RegisterGlobalsKeepsCommands(m: Model, fs: seq<FieldDecl>)
    requires RegisterGlobals(m, fs).Ok?
    ensures var m' := RegisterGlobals(m, fs).value;
      m'.commands == m.commands && m'.defaultCommand == m.defaultCommand &&
      |m'.globals| == |m.globals| + |fs| &&
      forall k :: 0 <= k < |fs| ==>
        (m'.globals[|m.globals| + k].field == fs[k].field &&
         ParameterOf(fs[k].decl) == Ok(m'.globals[|m.globals| + k].param))
    decreases |fs|
  {
    if fs != [] {
      RegisterGlobalsKeepsCommands(m, fs[..|fs| - 1]);
    }
  }

  /**
   * A successful build registers every declared method as a command and every field as a
   * global parameter, in order; no two commands share a name; at most one method is marked
   * default, and the default command is the registered one of that method.
   */
  lemma BuildSchemaGuarantees(s: SchemaDecl)
    requires BuildSchema(s).Ok?
    ensures WellFormed(BuildSchema(s).value)
    ensures |BuildSchema(s).value.commands| == |s.methods| && |BuildSchema(s).value.globals| == |s.fields|
    ensures forall k :: 0 <= k < |s.methods| ==> CommandOf(s.methods[k]) == Ok(BuildSchema(s).value.commands[k])
    ensures BuildSchema(s).value.defaultCommand.Some? <==> exists k :: 0 <= k < |s.methods| && s.methods[k].isDefault
    ensures forall i, j :: 0 <= i < j < |s.methods| ==> !(s.methods[i].isDefault && s.methods[j].isDefault)
    ensures forall k :: 0 <= k < |s.methods| && s.methods[k].isDefault ==>
      BuildSchema(s).value.defaultCommand == Some(BuildSchema(s).value.commands[k])
    ensures forall k :: 0 <= k < |s.fields| ==> (ParameterOf(s.fields[k].decl).Ok? &&
      BuildSchema(s).value.globals[k] == GlobalParameter(s.fields[k].field, ParameterOf(s.fields[k].decl).value))
  {
    var m := RegisterCommands(EmptyModel, s.methods).value;
    var built := BuildSchema(s).value;
    assert m.globals == [] && |m.commands| == |s.methods| &&
           forall k :: 0 <= k < |s.methods| ==> CommandOf(s.methods[k]) == Ok(m.commands[k]) by {
      RegisterCommandsOrder(EmptyModel, s.methods);
    }
    assert built.commands == m.commands && built.defaultCommand == m.defaultCommand &&
           |built.globals| == |s.fields| &&
           (forall k :: 0 <= k < |s.fields| ==> (ParameterOf(s.fields[k].decl).Ok? &&
             built.globals[k] == GlobalParameter(s.fields[k].field, ParameterOf(s.fields[k].decl).value))) by {
      RegisterGlobalsKeepsCommands(m, s.fields);
    }
    assert WellFormed(m) by {
      RegisterCommandsKeepsWellFormed(EmptyModel, s.methods);
    }
    RegisterCommandsDefault(EmptyModel, s.methods);
    forall k | 0 <= k < |s.methods| && s.methods[k].isDefault
      ensures built.defaultCommand == Some(built.commands[k])
    {
      RegisterCommandsDefaultIs(EmptyModel, s.methods, k);
    }
  }

  /**
   * A build fails with one of the three schema errors, each with its cause: a method
   * parameter or a field without a name, a command clashing with an earlier one, or a
   * second method marked default.
   */
  lemma BuildSchemaErrors(s: SchemaDecl)
    requires BuildSchema(s).Err?
    ensures var e := BuildSchema(s).error;
      (e.code == PARSE_PARAM_NAME_UNDEFINED &&
         ((exists k :: 0 <= k < |s.methods| && CommandOf(s.methods[k]).Err?) ||
          (exists k :: 0 <= k < |s.fields| && ParameterOf(s.fields[k].decl).Err?))) ||
      (e.code == PARSE_DUPLICATE_COMMAND_NAME &&
         exists i, j :: 0 <= i < j < |s.methods| && CommandOf(s.methods[i]).Ok? && CommandOf(s.methods[j]).Ok? &&
           Clash(CommandOf(s.methods[i]).value, CommandOf(s.methods[j]).value)) ||
      (e.code == PARSE_DUPLICATE_DEFAULT_COMMAND &&
         exists i, j :: 0 <= i < j < |s.methods| && s.methods[i].isDefault && s.methods[j].isDefault)
  {
    if RegisterCommands(EmptyModel, s.methods).Err? {
      RegisterCommandsErrorCause(s.methods);
    } else {
      RegisterGlobalsErrorCause(RegisterCommands(EmptyModel, s.methods).value, s.fields);
    }
  }

  /** Methods that all build, with no clashing names, and two of them marked default: PARSE_DUPLICATE_DEFAULT_COMMAND. */
  lemma BuildDuplicateDefault(s: SchemaDecl, i: nat, j: nat)
    requires forall k :: 0 <= k < |s.methods| ==> CommandOf(s.methods[k]).Ok?
    requires forall a, b :: 0 <= a < b < |s.methods| ==> !Clash(CommandOf(s.methods[a]).value, CommandOf(s.methods[b]).value)
    requires i < j < |s.methods| && s.methods[i].isDefault && s.methods[j].isDefault
    ensures BuildSchema(s).Err? && BuildSchema(s).error.code == PARSE_DUPLICATE_DEFAULT_COMMAND
  {
    if RegisterCommands(EmptyModel, s.methods).Ok? {
      RegisterCommandsDefault(EmptyModel, s.methods);
      assert false;
    }
    RegisterCommandsErrorCause(s.methods);
  }

  /** Methods that all build, at most one marked default, two of them clashing: PARSE_DUPLICATE_COMMAND_NAME. */
  lemma BuildDuplicateName(s: SchemaDecl, i: nat, j: nat)
    requires forall k :: 0 <= k < |s.methods| ==> CommandOf(s.methods[k]).Ok?
    requires forall a, b :: 0 <= a < b < |s.methods| ==> !(s.methods[a].isDefault && s.methods[b].isDefault)
    requires i < j < |s.methods| && Clash(CommandOf(s.methods[i]).value, CommandOf(s.methods[j]).value)
    ensures BuildSchema(s).Err? && BuildSchema(s).error.code == PARSE_DUPLICATE_COMMAND_NAME
  {
    if RegisterCommands(EmptyModel, s.methods).Ok? {
      var m := RegisterCommands(EmptyModel, s.methods).value;
      RegisterCommandsOrder(EmptyModel, s.methods);
      RegisterCommandsKeepsWellFormed(EmptyModel, s.methods);
      assert false;
    }
    RegisterCommandsErrorCause(s.methods);
  }

  /** Distinct names make the command lookup unambiguous: the first match is the only one. */
  lemma {:induction false} FindCommandUnique(cs: seq<Command>, n: string, i: nat)
    requires DistinctNames(cs) && i < |cs| && Answers(cs[i], n)
    ensures FindCommand(cs, n) == Some(i)
  {
    var r := FindCommand(cs, n);
    assert r.Some?;
    if r.value != i {
      assert Clash(cs[r.value], cs[i]);
    }
  }
}
