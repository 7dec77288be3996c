/**
 * The help text `getHelpText` renders from the parser state: a usage line, the global
 * options, then every command with its parameters, one line each, in registration order.
 */
module HelpText {
  import opened Wrappers
  import opened Values
  import opened Schema

  /** The line separator; the platform's `line.separator` property is taken to be "\n". */
  const NL := "\n"
  const Usage := "Usage: java MainClass <command> [options...]"
  /** Column at which a command's description starts. */
  const CommandWidth := 20
  /** Width of the option-name block of a command parameter line and of a global option line. */
  const ParameterWidth := 20
  const GlobalWidth := 18

  /** `s` followed by spaces up to `width` characters; unchanged when already that long. */
  function PadRight(s: string, width: int): (r: string)
    ensures |r| == if |s| < width then width else |s|
    ensures r[..|s|] == s
    ensures forall i :: |s| <= i < |r| ==> r[i] == ' '
  {
    if |s| < width then s + seq(width - |s|, _ => ' ') else s
  }

  /** `--name`, then `-short` (after ", " when a name came first); an empty name or short name is left out. */
  function OptionNames(p: Parameter): string {
    var long := if p.name != "" then "--" + p.name else "";
    if p.shortName != "" then (if long != "" then long + ", " else long) + "-" + p.shortName else long
  }

  /** `formatParameter(parameter, width)`. */
  function ParameterLine(p: Parameter, width: int): string {
    PadRight(OptionNames(p), width) + p.description + Attributes(p)
  }

  /** ` [Type, Required, Default=x]`; the last two only when required, and when the default is non-empty. */
  function Attributes(p: Parameter): string {
    " [" + TypeName(p.ptype)
      + (if p.isRequired then ", Required" else "")
      + (if p.defaultValue.Some? && p.defaultValue.value != "" then ", Default=" + p.defaultValue.value else "")
      + "]"
  }

  /** `  name (short)`; the short name is shown only when present and non-empty. */
  function CommandTitle(c: Command): string {
    "  " + c.name + (if c.shortName.Some? && c.shortName.value != "" then " (" + c.shortName.value + ")" else "")
  }

  /** A null description is appended as the text "null", as `StringBuilder.append` does. */
  function DescriptionText(d: Option<string>): string {
    match d
    case None => "null"
    case Some(s) => s
  }

  /** The strings of a list written one after the other. */
  function Joined(ss: seq<string>): string
    decreases |ss|
  {
    if ss == [] then "" else Joined(ss[..|ss| - 1]) + ss[|ss| - 1]
  }

  /** The list is joined one element at a time. */
  lemma JoinedStep(ss: seq<string>, i: nat)
    requires i < |ss|
    ensures Joined(ss[..i + 1]) == Joined(ss[..i]) + ss[i]
  {
    assert ss[..i + 1][..i] == ss[..i];
  }

  /** Appending the next element to text that ends with the joined prefix of a list. */
  lemma AppendEntry(head: string, ss: seq<string>, i: nat)
    requires i < |ss|
    ensures head + Joined(ss[..i]) + ss[i] == head + Joined(ss[..i + 1])
  {
    JoinedStep(ss, i);
  }

  /** `    ` + `formatParameter(p, 20)` + line separator, one line per parameter. */
  function ParameterLines(ps: seq<Parameter>): string {
    Joined(ParameterEntries(ps))
  }

  function ParameterEntries(ps: seq<Parameter>): (ls: seq<string>)
    ensures |ls| == |ps| && forall k :: 0 <= k < |ps| ==> ls[k] == "    " + ParameterLine(ps[k], ParameterWidth) + NL
  {
    seq(|ps|, k requires 0 <= k < |ps| => "    " + ParameterLine(ps[k], ParameterWidth) + NL)
  }

  /** `formatCommand(command)`. */
  function CommandBlock(c: Command): string {
    CommandHead(c) + NL + ParameterLines(c.params) + NL
  }

  /** The first line of a command's block: its title padded to 20 columns, then its description. */
  function CommandHead(c: Command): string {
    PadRight(CommandTitle(c), CommandWidth) + DescriptionText(c.description)
  }

  /** `  ` + `formatParameter(g, 18)` + line separator, one line per global option. */
  function GlobalLines(gs: seq<GlobalParameter>): string {
    Joined(GlobalEntries(gs))
  }

  function GlobalLine(g: GlobalParameter): string {
    "  " + ParameterLine(g.param, GlobalWidth) + NL
  }

  function GlobalEntries(gs: seq<GlobalParameter>): (ls: seq<string>)
    ensures |ls| == |gs| && forall k :: 0 <= k < |gs| ==> ls[k] == GlobalLine(gs[k])
  {
    seq(|gs|, k requires 0 <= k < |gs| => GlobalLine(gs[k]))
  }

  /** The blocks of the commands, in registration order. */
  function CommandBlocks(cs: seq<Command>): string {
    Joined(Blocks(cs))
  }

  function Blocks(cs: seq<Command>): (bs: seq<string>)
    ensures |bs| == |cs| && forall k :: 0 <= k < |cs| ==> bs[k] == CommandBlock(cs[k])
  {
    seq(|cs|, k requires 0 <= k < |cs| => CommandBlock(cs[k]))
  }

  /** `getHelpText()`. */
  function Help(gs: seq<GlobalParameter>, cs: seq<Command>): string {
    HelpHead(gs) + CommandBlocks(cs)
  }

  /** Everything before the first command block: usage line, global options, "Commands:" heading. */
  function HelpHead(gs: seq<GlobalParameter>): string {
    Usage + NL + NL + "Global options:" + NL + GlobalLines(gs) + NL + "Commands:" + NL
  }

  /** Joining a list is joining its parts, in the same order. */
  lemma {:induction false} JoinedAppend(a: seq<string>, b: seq<string>)
    ensures Joined(a + b) == Joined(a) + Joined(b)
    decreases |b|
  {
    if b == [] {
      assert a + b == a;
    } else {
      var init, last := b[..|b| - 1], b[|b| - 1];
      assert (a + b)[..|a + b| - 1] == a + init;
      calc {
        Joined(a + b);
        Joined(a + init) + last;
        { JoinedAppend(a, init); }
        Joined(a) + Joined(init) + last;
        Joined(a) + (Joined(init) + last);
      }
    }
  }

  /** A list joined is its part before element i, element i, and its part after. */
  lemma JoinedAround(ss: seq<string>, i: nat)
    requires i < |ss|
    ensures Joined(ss) == Joined(ss[..i]) + ss[i] + Joined(ss[i + 1..])
  {
    assert ss == ss[..i + 1] + ss[i + 1..];
    JoinedAppend(ss[..i + 1], ss[i + 1..]);
    JoinedStep(ss, i);
  }

  /** The help text lists the commands in registration order: every command's block follows those registered before it. */
  lemma CommandBlocksInOrder(cs: seq<Command>, i: nat)
    requires i < |cs|
    ensures CommandBlocks(cs) == CommandBlocks(cs[..i]) + CommandBlock(cs[i]) + CommandBlocks(cs[i + 1..])
  {
    assert Blocks(cs)[..i] == Blocks(cs[..i]);
    assert Blocks(cs)[i + 1..] == Blocks(cs[i + 1..]);
    JoinedAround(Blocks(cs), i);
  }

  /** The help text lists the global options in declaration order, one line each. */
  lemma GlobalLinesInOrder(gs: seq<GlobalParameter>, i: nat)
    requires i < |gs|
    ensures GlobalLines(gs) == GlobalLines(gs[..i]) + GlobalLine(gs[i]) + GlobalLines(gs[i + 1..])
  {
    assert GlobalEntries(gs)[..i] == GlobalEntries(gs[..i]);
    assert GlobalEntries(gs)[i + 1..] == GlobalEntries(gs[i + 1..]);
    JoinedAround(GlobalEntries(gs), i);
  }

  /** Text padded to `width` columns, then `d`: the text fills the first columns, spaces the rest, and `d` starts at column `width`. */
  lemma PaddedColumns(t: string, width: nat, d: string, rest: string)
    requires |t| <= width
    ensures var line := PadRight(t, width) + d + rest;
      |line| == width + |d| + |rest| && line[..|t|] == t &&
      (forall i :: |t| <= i < width ==> line[i] == ' ') &&
      line[width..width + |d|] == d
  {
    var pad := PadRight(t, width);
    var line := pad + d + rest;
    assert line == pad + (d + rest);
    assert line[..|pad|] == pad;
    assert line[width..width + |d|] == (d + rest)[..|d|];
  }

  /**
   * A command's block opens with its head line: the title fills the first 20 columns (spaces after it)
   * and the description starts at column 20.
   */
  lemma CommandBlockColumns(c: Command)
    requires |CommandTitle(c)| <= CommandWidth
    ensures var block, head, title := CommandBlock(c), CommandHead(c), CommandTitle(c);
      block[..|head|] == head && |head| >= CommandWidth && head[..|title|] == title &&
      (forall i :: |title| <= i < CommandWidth ==> head[i] == ' ') &&
      head[CommandWidth..] == DescriptionText(c.description)
  {
    var head := CommandHead(c);
    PaddedColumns(CommandTitle(c), CommandWidth, DescriptionText(c.description), []);
    assert head + [] == head;
    assert CommandBlock(c) == head + (NL + ParameterLines(c.params) + NL);
  }

  /** The option names fill the first `width` columns of a line, and the description starts right after them. */
  lemma ParameterLineColumns(p: Parameter, width: nat)
    requires |OptionNames(p)| <= width
    ensures var line := ParameterLine(p, width);
      |line| > width && line[..|OptionNames(p)|] == OptionNames(p) &&
      (forall i :: |OptionNames(p)| <= i < width ==> line[i] == ' ') &&
      line[width..width + |p.description|] == p.description
  {
    PaddedColumns(OptionNames(p), width, p.description, Attributes(p));
  }
}
