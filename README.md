# java-cmd-parser, modelled in Dafny

This project models `CmdParser`, the core of java-cmd-parser, together with its
`LongValidator` and `NonEmptyValidator`. `CmdParser` is an annotation-driven
command-line parser. When it is constructed, it reads a handler object's schema:
- every declared method becomes a *command*, with annotated parameters;
- every public field becomes a *global parameter*.

`dispatch(args)` then handles one command line in this order:
1. It scans the tokens: an option is `-name`, `-name:value`, `--name` or `--name:value`; a command word is looked up in lower case.
2. It chooses the command, falling back to the default command.
3. It rejects options that name no parameter.
4. It resolves every parameter. The order of precedence is: the full name, then the short name, then required, then the default value, then the zero value of the type. Each value is coerced to the declared type and passed to the parameter's validator.
5. `runCommand` writes every global parameter to its field and invokes the handler. The help command instead gets the rendered help text.

Files:
- **`wrappers.dfy`**: `Option` and `Result`.
- **`errors.dfy`**: the codes of `CmdException`, and the unchecked Java exceptions the parser lets through.
- **`java_text.dfy`**: the parts of `String`, `Long` and `Integer` the parser uses: lower-casing, `trim`, `indexOf`, and decimal printing and parsing with per-width bounds.
- **`values.dfy`**: `getParameterValue` and `getDefaultValue`.
- **`validators.dfy`**: the validators.
- **`schema.dfy`**: the reflected schema as explicit descriptors, plus the schema builder (`initParser`, `addCommandFromMethod`, `createParameterForCommand`, `findCommand`).
- **`option_tokens.dfy`**: `parseOption`.
- **`help_text.dfy`**: the help text (`getHelpText`, `formatCommand`, `formatParameter`) as functions.
- **`resolution.dfy`**: what `dispatch` and `runCommand` compute, as functions, with reference definitions and the properties of a dispatch.
- **`parser.dfy`**: the class `CmdParser`. Its fields are the state the Java class mutates: the command list, the default command and the list of global parameters. Its methods are the step-by-step code. Most are proved equal to the function that specifies them. `FindUnknownOption` is proved to return a member of the set of unknown options. `Dispatch` is proved to reach an outcome that the relation `DispatchAllows` allows.

Three behaviours of the code worth noting:
- The help command is handed the help text without any global parameter being resolved or written (`runCommand` returns before its globals loop).
- A `String` option given without a value (`-name`) is `DISPATCH_EMPTY_PARAMETER`. Only a `boolean` takes a missing value, which means true.
- Global parameters are written to their fields one at a time. When a later global fails, the fields already written stay written.

## Model

| member | source | states |
|---|---|---|
| Errors.AsInvokeError | src/acc/common/cmdline/CmdParser.java:382-386 | inside `runCommand`, a `CmdException` is re-thrown unchanged; any other exception becomes DISPATCH_INVOKE_ERROR with that exception as its cause |
| JavaText.ToLowerCase | src/acc/common/cmdline/CmdParser.java:203 | the result has the same length, and each character is lower-cased at its position |
| JavaText.IndexOf | src/acc/common/cmdline/CmdParser.java:287 | the result is the first index holding the character, or -1 exactly when the character is absent |
| JavaText.TrimEmptyIffBlank | src/acc/common/cmdline/NonEmptyValidator.java:15 | `trim()` leaves nothing exactly when every character is at or below U+0020 |
| JavaText.ParseInteger | src/acc/common/cmdline/CmdParser.java:498-505 | a text parses only when it is digits, or a sign followed by at least one digit, and the number it spells (negated after `-`) lies in the width's range; the result is that number; conversely every such text parses |
| JavaText.ParsePlusSign | src/acc/common/cmdline/CmdParser.java:498-505 | a `+` in front of the digits parses the same as the digits alone |
| JavaText.ParseLeadingZero | src/acc/common/cmdline/CmdParser.java:498-505 | a leading zero after the optional sign does not change what is parsed; with `DecimalRoundTrip`, this fixes the value of every accepted text |
| JavaText.DecimalRoundTrip | src/acc/common/cmdline/LongValidator.java:34 | printing an integer in decimal and parsing it back gives the same integer |
| Values.ZeroValue | src/acc/common/cmdline/CmdParser.java:520-538 | false for boolean, 0 for every integral type, null for every other type |
| Values.Coerce | src/acc/common/cmdline/CmdParser.java:486-513 | `getParameterValue`: the value of an option's text under the declared type, or the failure; its cases are stated in `CoerceCases` |
| Values.CoerceCases | src/acc/common/cmdline/CmdParser.java:486-513 | each outcome of `getParameterValue`: a String is taken as given; a missing boolean value is true; other text is true only for "true" in any case; any other type with no value is DISPATCH_EMPTY_PARAMETER; an integral type parses within its width or throws NumberFormatException; an unlisted type is DISPATCH_UNSUPPORTED_PARAMETER_TYPE |
| Values.BooleanNeverFails | src/acc/common/cmdline/CmdParser.java:489-495 | coercing a boolean never fails, and any text other than "true" gives false |
| Values.CoercedIntegralInRange | src/acc/common/cmdline/CmdParser.java:498-505 | a coerced byte, short, int or long value lies within its type's range |
| Values.CoerceErrorCodes | src/acc/common/cmdline/CmdParser.java:486-513 | the only parser errors coercion raises are DISPATCH_EMPTY_PARAMETER and DISPATCH_UNSUPPORTED_PARAMETER_TYPE |
| Values.CoerceDecimalRoundTrip | src/acc/common/cmdline/CmdParser.java:498-505 | coercing the printed form of an in-range integer gives that integer back |
| Validators.ValidateNonEmpty | src/acc/common/cmdline/NonEmptyValidator.java:13-21 | null is refused; a String passes exactly when it has a character above U+0020; any other value throws ClassCastException |
| Validators.ValidateRegex | src/acc/common/cmdline/RegexValidator.java:26-37 | null gets its own message; a String passes exactly when the engine matches the whole text, and otherwise the message ends with the pattern; any other value throws ClassCastException |
| Validators.ValidateLong | src/acc/common/cmdline/LongValidator.java:33-41 | null throws NullPointerException; the only rejection message names both bounds |
| Validators.LongValidatorRange | src/acc/common/cmdline/LongValidator.java:33-41 | an integer passes exactly when min <= n <= max; otherwise the message is "The value must be between min and max" |
| Validators.LongValidatorText | src/acc/common/cmdline/LongValidator.java:34-38 | a String is judged by the long its text spells; text that is not a long throws NumberFormatException |
| Validators.LongValidatorBoolean | src/acc/common/cmdline/LongValidator.java:34 | a Boolean value makes the validator throw NumberFormatException |
| Validators.ValidateValue | src/acc/common/cmdline/IValidator.java:6-14 | `validateValue` of whichever validator the parameter carries: a message when the value is rejected, none when it passes |
| Schema.ValidatorLastWins | src/acc/common/cmdline/CmdParser.java:143-153 | among several validator annotations, the last one scanned is installed |
| Schema.NoValidatorAnnotation | src/acc/common/cmdline/CmdParser.java:129-158 | without a validator annotation the parameter has no validator |
| Schema.NameAbsentIff | src/acc/common/cmdline/CmdParser.java:130-135 | a parameter has no name exactly when none of its annotations is `@Name` |
| Schema.NameLastWins | src/acc/common/cmdline/CmdParser.java:130-135 | the name, short name and description come from the last `@Name` |
| Schema.RequiredIffAnnotated | src/acc/common/cmdline/CmdParser.java:140-142 | a parameter is required exactly when it carries `@Required` |
| Schema.ParameterNameUndefinedIff | src/acc/common/cmdline/CmdParser.java:160-162 | building a parameter fails, with PARSE_PARAM_NAME_UNDEFINED, exactly when it has no `@Name` |
| Schema.ParameterOf | src/acc/common/cmdline/CmdParser.java:126-165 | `createParameterForCommand`: the annotations scanned in order, then PARSE_PARAM_NAME_UNDEFINED when no name was set; stated in `NameAbsentIff`, `NameLastWins`, `ValidatorLastWins`, `RequiredIffAnnotated` and `ParameterNameUndefinedIff` |
| Schema.FindCommand | src/acc/common/cmdline/CmdParser.java:310-321 | the result is the first command whose full or short name equals the given name, and None exactly when no command does |
| Schema.ParametersOf | src/acc/common/cmdline/CmdParser.java:97-103 | on success there is one parameter per declaration, each built from its own declaration in order; a failure is the failure of some declaration |
| Schema.RegisterCommand | src/acc/common/cmdline/CmdParser.java:77-117 | `addCommandFromMethod`: the command is built, checked for a clashing name, then for a second default command; stated in `RegisterCommandKeepsWellFormed` and `RegisterCommandsErrorCause` |
| Schema.RegisterCommandKeepsWellFormed | src/acc/common/cmdline/CmdParser.java:105-116 | adding a command keeps all full and short names distinct, and the default command among the registered ones |
| Schema.RegisterCommandsKeepsWellFormed | src/acc/common/cmdline/CmdParser.java:59-70 | the same holds for every method registered in turn |
| Schema.RegisterCommandsOrder | src/acc/common/cmdline/CmdParser.java:59-70 | commands are registered one per method, in declaration order; the global parameters are untouched |
| Schema.RegisterCommandsDefault | src/acc/common/cmdline/CmdParser.java:110-116 | a default command exists exactly when some method is marked default; two marked methods never build |
| Schema.RegisterCommandsDefaultIs | src/acc/common/cmdline/CmdParser.java:110-116 | the default command is the command built from the method marked default |
| Schema.RegisterCommandsErrorCause | src/acc/common/cmdline/CmdParser.java:97-116 | registering the methods fails only with PARSE_PARAM_NAME_UNDEFINED for a method whose command does not build, PARSE_DUPLICATE_COMMAND_NAME for a command clashing with an earlier one, or PARSE_DUPLICATE_DEFAULT_COMMAND for a second method marked default |
| Schema.RegisterGlobalsKeepsCommands | src/acc/common/cmdline/CmdParser.java:66-69 | registering the fields adds one global per field, in order, each built from its field's declaration, and leaves the commands and the default command alone |
| Schema.RegisterGlobalsErrorCause | src/acc/common/cmdline/CmdParser.java:66-69 | registering the fields fails only with PARSE_PARAM_NAME_UNDEFINED, for a field without a name |
| Schema.BuildSchema | src/acc/common/cmdline/CmdParser.java:59-70 | `initParser`: every declared method registered as a command, then every public field as a global parameter; stated in `BuildSchemaGuarantees` and `BuildSchemaErrors` |
| Schema.BuildSchemaGuarantees | src/acc/common/cmdline/CmdParser.java:59-70 | a built parser has one command per method and one global per field, in order; its names are distinct; it has a default command exactly when one method is marked default, and that default is the command of that method |
| Schema.BuildSchemaErrors | src/acc/common/cmdline/CmdParser.java:59-165 | a failed build reports one of the three schema errors, each with its cause: a parameter or field without a name, a command clashing with an earlier one, or a second method marked default |
| Schema.BuildDuplicateDefault | src/acc/common/cmdline/CmdParser.java:110-114 | methods that all build, with no clashing names and two marked default, fail with PARSE_DUPLICATE_DEFAULT_COMMAND |
| Schema.BuildDuplicateName | src/acc/common/cmdline/CmdParser.java:105-107 | methods that all build, at most one marked default and two clashing, fail with PARSE_DUPLICATE_COMMAND_NAME |
| Schema.FindCommandUnique | src/acc/common/cmdline/CmdParser.java:310-321 | in a well-formed parser, the command a name finds is the only one answering to it |
| OptionTokens.StripDashes | src/acc/common/cmdline/CmdParser.java:280-285 | removes `--` when present, otherwise one `-` |
| OptionTokens.ParseOption | src/acc/common/cmdline/CmdParser.java:279-303 | `parseOption`: the dashes stripped, then the rest split; stated in `ParseOptionShape`, `OptionValueIff` and the two round trips |
| OptionTokens.SplitOption | src/acc/common/cmdline/CmdParser.java:287-300 | the split at the first colon when it is past index 0; stated in `SplitOptionShape` and `SplitNameValue` |
| OptionTokens.SplitOptionShape | src/acc/common/cmdline/CmdParser.java:287-300 | without a colon past the first character the whole text is the name; otherwise the text is a non-empty colon-free name, a colon, then the value |
| OptionTokens.ParseOptionShape | src/acc/common/cmdline/CmdParser.java:279-303 | the same shape, for a whole token with its dashes removed |
| OptionTokens.OptionValueIff | src/acc/common/cmdline/CmdParser.java:287-300 | an option has a value exactly when its text has a colon that is not the first character |
| OptionTokens.SplitNameValue | src/acc/common/cmdline/CmdParser.java:287-300 | `name:value` with a non-empty, colon-free name splits back into that name and value |
| OptionTokens.LongFormRoundTrip | src/acc/common/cmdline/CmdParser.java:279-303 | `--name` and `--name:value` parse back to that name and value, for a name without a colon |
| OptionTokens.ShortFormRoundTrip | src/acc/common/cmdline/CmdParser.java:279-303 | `-s` and `-s:value` parse back to that name and value, for a name without a colon that does not start with `-` |
| OptionTokens.SplitAtFirstColon | src/acc/common/cmdline/CmdParser.java:287-300 | splitting a text at a colon absent from the left part can happen in only one way |
| HelpText.PadRight | src/acc/common/cmdline/CmdParser.java:427-429 | the result keeps the text and adds spaces up to the width, and is unchanged when the text is already that long |
| HelpText.JoinedAppend | src/acc/common/cmdline/CmdParser.java:393-411 | rendering two lists one after the other is rendering their concatenation |
| HelpText.Help | src/acc/common/cmdline/CmdParser.java:393-411 | `getHelpText`: the usage line, the global options in order, then every command block in order; stated in `GlobalLinesInOrder` and `CommandBlocksInOrder` |
| HelpText.CommandBlock | src/acc/common/cmdline/CmdParser.java:418-440 | `formatCommand`: the title padded to column 20, the description, then one indented line per parameter; stated in `CommandBlockColumns` |
| HelpText.ParameterLine | src/acc/common/cmdline/CmdParser.java:448-476 | `formatParameter`: the option names padded to the width, the description, then the bracketed attributes; stated in `ParameterLineColumns` |
| HelpText.CommandBlocksInOrder | src/acc/common/cmdline/CmdParser.java:406-409 | the help text's command section is the blocks before command i, then command i's block, then the blocks after it |
| HelpText.GlobalLinesInOrder | src/acc/common/cmdline/CmdParser.java:398-403 | the global-options section is the lines before global i, then global i's line, then the lines after it |
| HelpText.CommandBlockColumns | src/acc/common/cmdline/CmdParser.java:418-431 | a command's block opens with its title, padded with spaces to column 20, followed by its description |
| HelpText.ParameterLineColumns | src/acc/common/cmdline/CmdParser.java:448-464 | a parameter line opens with its option names, padded with spaces to the given width, followed by its description |
| Resolution.OptionsOf | src/acc/common/cmdline/CmdParser.java:191-196 | each token is read as an option exactly when it starts with `-` |
| Resolution.ScanToken | src/acc/common/cmdline/CmdParser.java:192-208 | one step of the scan: an option goes into the map; a second command word, or an unknown one, is an error |
| Resolution.Scan | src/acc/common/cmdline/CmdParser.java:189-209 | the scan of every token in order, stopping at the first error; stated against the reference definitions in `ScanMeaning` |
| Resolution.ScanMeaning | src/acc/common/cmdline/CmdParser.java:189-209 | the scan fails exactly as the command words dictate (an unknown first word, or a second word); on success it holds the named command and the map of every option |
| Resolution.ScanCommand | src/acc/common/cmdline/CmdParser.java:197-208 | the command-word part of the scan agrees with the reference choice of command |
| Resolution.ScanOptions | src/acc/common/cmdline/CmdParser.java:192-196 | a successful scan holds exactly the map of all option tokens |
| Resolution.CollectLastWins | src/acc/common/cmdline/CmdParser.java:195 | a later option of the same name replaces an earlier one |
| Resolution.CollectKeys | src/acc/common/cmdline/CmdParser.java:195 | the map's keys are exactly the names of the parsed options |
| Resolution.OptionMapLastWins | src/acc/common/cmdline/CmdParser.java:192-196 | for each option name, the value of its last token on the command line is the one kept |
| Resolution.OptionMapKeys | src/acc/common/cmdline/CmdParser.java:192-196 | the option names are exactly the names of the option tokens |
| Resolution.SelectCommand | src/acc/common/cmdline/CmdParser.java:211-216 | the named command, else the default command, else DISPATCH_NO_COMMAND; stated in `DispatchCommandChoice` |
| Resolution.CheckValue | src/acc/common/cmdline/CmdParser.java:329-336 | validation never alters a value; without a validator it passes; with one, no message passes, a message m is DISPATCH_VALIDATION_ERROR with the parameter's name and m, and an unchecked exception of the validator escapes |
| Resolution.ResolveValue | src/acc/common/cmdline/CmdParser.java:244-264 | a parameter's value by precedence: full name, short name, required, default, zero value; stated in the four `Resolve` lemmas and `MissingRequiredIff` |
| Resolution.ResolveByFullName | src/acc/common/cmdline/CmdParser.java:244-248 | an option under the full name gives the coercion of its text under that name, whatever is given under the short name |
| Resolution.ResolveByShortName | src/acc/common/cmdline/CmdParser.java:249-253 | without the full name, an option under the short name gives the coercion of its text, reported under the short name |
| Resolution.ResolveLocality | src/acc/common/cmdline/CmdParser.java:244-264 | only the options under the parameter's two names bear on its value |
| Resolution.ResolveFallback | src/acc/common/cmdline/CmdParser.java:258-264 | an optional parameter given under neither name gets its coerced default, or the zero value of its type without one |
| Resolution.BindParameter | src/acc/common/cmdline/CmdParser.java:242-267 | one parameter resolved, then validated; stated by the `Resolve` lemmas and `CheckValue` |
| Resolution.BindAll | src/acc/common/cmdline/CmdParser.java:241-269 | a successful binding gives one value per parameter |
| Resolution.BindAllMeaning | src/acc/common/cmdline/CmdParser.java:241-269 | the argument list holds each parameter's resolved and validated value in order; a failure is that of the first parameter that fails |
| Resolution.BindAllOkIff | src/acc/common/cmdline/CmdParser.java:241-269 | binding succeeds exactly when every parameter binds |
| Resolution.BindGlobals | src/acc/common/cmdline/CmdParser.java:352-379 | no more values are written than there are globals, and all of them when nothing fails |
| Resolution.BindGlobalsMeaning | src/acc/common/cmdline/CmdParser.java:352-386 | the values written are those of the first globals, in order; a failure is that of the next global, made a CmdException |
| Resolution.Run | src/acc/common/cmdline/CmdParser.java:345-387 | `runCommand`: the help command gets the help text and nothing else happens; otherwise the globals are bound and written in order, and the handler runs only when all were bound; stated in `DispatchSucceeds`, `DispatchFails` and `DispatchFieldWrites` |
| Resolution.MissingRequiredIff | src/acc/common/cmdline/CmdParser.java:244-257 | DISPATCH_MISSING_REQUIRED_PARAMETER is reported exactly for a required parameter given under neither name |
| Resolution.DefaultDecimalResolves | src/acc/common/cmdline/CmdParser.java:258-262 | an absent optional integral parameter whose default is a printed in-range number takes that number |
| Resolution.BindParameterCodes | src/acc/common/cmdline/CmdParser.java:241-269 | binding a parameter reports only empty, unsupported-type, missing-required or validation errors |
| Resolution.FinishNeverUnknown | src/acc/common/cmdline/CmdParser.java:241-271 | once every option is known, the rest of the dispatch never reports an unknown option |
| Resolution.Finish | src/acc/common/cmdline/CmdParser.java:241-271 | the rest of `dispatch` after the unknown-option check: the argument list, then `runCommand`; stated in `DispatchSucceeds` and `DispatchFails` |
| Resolution.WriteAllMeaning | src/acc/common/cmdline/CmdParser.java:352-379 | a field holds the value of the last global written to it; every other field is as it was |
| Resolution.FrontOptions | src/acc/common/cmdline/CmdParser.java:189-216 | the scan before the command choice finds the map of all options |
| Resolution.DispatchAllows | src/acc/common/cmdline/CmdParser.java:187-272 | the outcomes `dispatch` may have, with the fields before and after; any one of several unknown options may be reported; stated in the `Dispatch` lemmas |
| Resolution.DispatchCommandChoice | src/acc/common/cmdline/CmdParser.java:197-216 | an unknown or second command word stops the dispatch with that error and no field changes; without a command word the default command runs, and with neither DISPATCH_NO_COMMAND is reported; a command that runs is the one the first word finds |
| Resolution.DispatchUnknownOption | src/acc/common/cmdline/CmdParser.java:218-239 | DISPATCH_UNKNOWN_PARAMETER is reported exactly when some option names no global and no parameter of the command; the name reported is such an option token's name, and no field has changed |
| Resolution.DispatchSucceeds | src/acc/common/cmdline/CmdParser.java:187-272 | on success every option is known; the help command gets the help text and no field changes; any other command gets each parameter's value in order, after every global was bound and written |
| Resolution.DispatchFails | src/acc/common/cmdline/CmdParser.java:241-387 | once every option is known: a failing command parameter is reported with no field changed; the help command cannot fail; a failing global is reported as a CmdException, and the globals bound before it stay written |
| Resolution.DispatchFieldWrites | src/acc/common/cmdline/CmdParser.java:352-379 | only global fields change, and only when a command other than help runs; the fields then hold the values the globals were bound to |
| Resolution.LongOptionRecognised | src/acc/common/cmdline/CmdParser.java:218-239 | the `--name` form of a command parameter, as the help text shows it, is read back as an option the dispatch accepts, unless the name holds a colon |
| Resolution.ShortOptionRecognised | src/acc/common/cmdline/CmdParser.java:218-239 | the `-short` form of a command parameter, as the help text shows it, is read back as an option the dispatch accepts, unless the short name holds a colon or begins with `-` |
| Resolution.GlobalLongOptionRecognised | src/acc/common/cmdline/CmdParser.java:218-239 | the `--name` form of a global parameter, as the help text lists it, is read back as an option the dispatch accepts for any command, unless the name holds a colon |
| Resolution.GlobalShortOptionRecognised | src/acc/common/cmdline/CmdParser.java:218-239 | the `-short` form of a global parameter, as the help text lists it, is read back as an option the dispatch accepts for any command, unless the short name holds a colon or begins with `-` |
| Parser.CreateParameter | src/acc/common/cmdline/CmdParser.java:126-165 | the annotation loop builds exactly the parameter the annotations specify, or PARSE_PARAM_NAME_UNDEFINED |
| Parser.CreateParameters | src/acc/common/cmdline/CmdParser.java:97-103 | the parameter loop builds each parameter in order and stops at the first failure |
| Parser.AppendSpaces | src/acc/common/cmdline/CmdParser.java:461-463 | the padding loop yields the text padded with spaces to the width |
| Parser.FormatParameter | src/acc/common/cmdline/CmdParser.java:448-476 | the builder yields the option names, padding, description and the ` [Type, Required, Default=x]` attributes |
| Parser.FormatCommand | src/acc/common/cmdline/CmdParser.java:418-440 | the builder yields the padded title and description, then one indented line per parameter |
| Parser.CmdParser.constructor | src/acc/common/cmdline/CmdParser.java:47-52 | a new parser starts with no commands, no default command and no globals |
| Parser.CmdParser.FindCommandNamed | src/acc/common/cmdline/CmdParser.java:310-321 | finds the first command with the given full or short name; a null name finds nothing |
| Parser.CmdParser.AddCommand | src/acc/common/cmdline/CmdParser.java:77-117 | on success the state is the registered one. On DUPLICATE_DEFAULT the command has already been appended. Every other failure leaves the state unchanged |
| Parser.CmdParser.AddGlobal | src/acc/common/cmdline/CmdParser.java:66-69 | appends the field's global parameter, or fails with the state unchanged |
| Parser.CmdParser.Init | src/acc/common/cmdline/CmdParser.java:59-70 | the state is the built schema, which is well formed, or the error is the build's first error |
| Parser.CmdParser.IsKnownOption | src/acc/common/cmdline/CmdParser.java:219-233 | true exactly when a global or a command parameter has the name as its full or short name |
| Parser.CmdParser.ResolveParameter | src/acc/common/cmdline/CmdParser.java:242-268 | the loop body's value equals `BindParameter`: the precedence stated in `ResolveByFullName`, `ResolveByShortName`, `MissingRequiredIff` and `ResolveFallback`, then validation as stated in `CheckValue` |
| Parser.CmdParser.GetHelpText | src/acc/common/cmdline/CmdParser.java:393-411 | the builder yields the usage line, the global options and every command block in order |
| Parser.CmdParser.SetGlobals | src/acc/common/cmdline/CmdParser.java:352-379 | the fields afterwards hold the values of the globals bound before any failure, and the failure is reported |
| Parser.CmdParser.RunCommand | src/acc/common/cmdline/CmdParser.java:345-387 | the outcome and the fields match the specification of `runCommand` |
| Parser.CmdParser.ScanArguments | src/acc/common/cmdline/CmdParser.java:189-209 | the scan loop computes the specified scan, stopping at the first error |
| Parser.CmdParser.FindUnknownOption | src/acc/common/cmdline/CmdParser.java:218-239 | finds nothing exactly when every option is known; otherwise returns an option that is unknown |
| Parser.CmdParser.BindArguments | src/acc/common/cmdline/CmdParser.java:241-269 | the argument loop computes the specified argument list, stopping at the first failure |
| Parser.CmdParser.Dispatch | src/acc/common/cmdline/CmdParser.java:187-272 | every outcome is one that the dispatch specification allows, so all the Dispatch lemmas apply to it |
| Parser.NewParser | src/acc/common/cmdline/CmdParser.java:47-52 | a fresh parser holds the built schema, or the build's error is returned |

## Left out

- Reflection is not modelled. Methods, fields, parameter types and annotations are given as explicit descriptors, in the order `getDeclaredMethods` and `getFields` return them. That order is unspecified in Java, and the model takes it as given.
- The handler is not actually invoked (`Method.invoke`). A successful dispatch yields the command and its argument list, so exceptions the handler throws are not modelled.
- Writing a global parameter to its public field goes through a map from field names to values, not a reflected `Field.set`. Access errors from `Field.set` are not modelled. Two public fields of the same name, one hiding the other in a subclass, are two slots in the code but one entry of the map in the model.
- `Resolution.Run`: a global parameter, or a command parameter, of a primitive type the coercion does not list (such as `char`) that is absent, optional and has no default resolves to the null of `getDefaultValue`. In the code, `Field.set` or `Method.invoke` then throws IllegalArgumentException for that null, and `runCommand` reports DISPATCH_INVOKE_ERROR. The model writes `Null` to the field, or passes it as the argument, and succeeds.
- `float`/`double` parameters, `@DoubleRange` and `DoubleValidator` are left out, because floating point is not modelled. A `@DoubleRange` annotation is read as an annotation the scan skips, whereas the code installs a `DoubleValidator` in its place. A type the coercion does not list still gets DISPATCH_UNSUPPORTED_PARAMETER_TYPE.
- `String.matches`: the regular-expression engine is a parameter of the model, not an implementation.
- Strings are sequences of characters. Lower-casing covers the ASCII letters only.
- The platform's `line.separator` is fixed to "\n".
- `JavaText.ParseInteger` accepts the ASCII digits `0`-`9` only. `Byte.parseByte`, `Short.parseShort`, `Integer.parseInt` and `Long.parseLong` accept any Unicode decimal digit, so `--value1:٥٠` is 50 in the code and a NumberFormatException in the model.
- `Resolution.LongOptionRecognised`, `Resolution.ShortOptionRecognised` and their global counterparts do not cover a name that holds a colon, nor a short name that begins with `-`. The code itself does not read those back. `@Name` accepts any string, and the help text shows `--` followed by the name, or `-` followed by the short name. `parseOption` splits `--a:b` into the option `a` with value `b`, and it reads `-` + `-x` as the long form of `x`.
- The `@Name` annotation's source file (Name.java) is not part of this model. It is taken to have string members `name`, `shortName` and `description`.
- The unknown-option check walks a `HashMap`, whose iteration order is unspecified. When several options are unknown, `Dispatch` may report any one of them, and `DispatchAllows` allows each.
- The loops of `dispatch` and `runCommand` are separate methods (`ScanArguments`, `FindUnknownOption`, `BindArguments`, `SetGlobals`), called in the Java order.
- `Parser.CmdParser.Dispatch`: its contract is the relation `DispatchAllows`, not a function, because of the hash-map order above.
- `Resolution.BindAll` and `Resolution.BindGlobals`: their own contracts state only lengths. Their meaning is proved in `BindAllMeaning` and `BindGlobalsMeaning`.
- `dispatchArgs`, console output, the sample program and the exception's `toString` are outside the modelled core.
