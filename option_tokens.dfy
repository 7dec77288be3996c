/**
 * `parseOption`: the reading of one `-name`, `-name:value`, `--name` or `--name:value`
 * token into an option name and an optional value.
 */
module OptionTokens {
  import opened Wrappers
  import opened JavaText

  /** `CmdParser.Option`; `value` is None (null) when the token has no usable colon. */
  datatype ParsedOption = ParsedOption(name: string, value: Option<string>)

  /** Whether `dispatch` treats a token as an option rather than a command word. */
  predicate IsOptionToken(token: string) {
    StartsWith(token, "-")
  }

  /** The token without its leading `--`, or else without its leading `-`. */
  function StripDashes(token: string): (rest: string)
    ensures StartsWith(token, "--") ==> token == "--" + rest
    ensures !StartsWith(token, "--") && StartsWith(token, "-") ==> token == "-" + rest
    ensures !StartsWith(token, "-") ==> rest == token
  {
    if StartsWith(token, "--") then token[2..]
    else if StartsWith(token, "-") then token[1..]
    else token
  }

  /** `parseOption(token)`: splits the text after the dashes at its first colon, unless that colon comes first. */
  function ParseOption(token: string): ParsedOption {
    SplitOption(StripDashes(token))
  }

  function SplitOption(rest: string): ParsedOption {
    var separator := IndexOf(rest, ':');
    if separator > 0 then ParsedOption(rest[..separator], Some(rest[separator + 1..]))
    else ParsedOption(rest, None)
  }

  /** Without a usable colon the whole text is the name; otherwise name, colon and value make up the text. */
  lemma SplitOptionShape(rest: string)
    ensures var o := SplitOption(rest);
      (o.value.None? ==> o.name == rest && (':' !in rest || rest[0] == ':')) &&
      (o.value.Some? ==> o.name != "" && ':' !in o.name && rest == o.name + ":" + o.value.value)
  {
    var separator := IndexOf(rest, ':');
    if separator > 0 {
      assert rest == rest[..separator] + ":" + rest[separator + 1..];
    }
  }

  /** The same, for the token with its dashes removed. */
  lemma ParseOptionShape(token: string)
    ensures var rest := StripDashes(token); var o := ParseOption(token);
      (o.value.None? ==> o.name == rest && (':' !in rest || rest[0] == ':')) &&
      (o.value.Some? ==> o.name != "" && ':' !in o.name && rest == o.name + ":" + o.value.value)
  {
    SplitOptionShape(StripDashes(token));
  }

  /** An option carries a value exactly when its text has a colon that is not its first character. */
  lemma OptionValueIff(token: string)
    ensures var rest := StripDashes(token);
      ParseOption(token).value.Some? <==> (':' in rest && rest[0] != ':')
  {
    ParseOptionShape(token);
  }

  /** Text of the form `name:value` with a colon-free, non-empty name splits back into that name and value. */
  lemma SplitNameValue(name: string, value: string)
    requires ':' !in name && name != ""
    ensures SplitOption(name + ":" + value) == ParsedOption(name, Some(value))
  {
    var rest := name + ":" + value;
    assert rest[|name|] == ':';
    var o := SplitOption(rest);
    SplitOptionShape(rest);
    SplitAtFirstColon(name, value, o.name, o.value.value);
  }

  /** The long form a help line shows, `--name` or `--name:value`, reads back as that name and value. */
  lemma LongFormRoundTrip(name: string, value: Option<string>)
    requires ':' !in name
    requires value.Some? ==> name != ""
    ensures value.None? ==> ParseOption("--" + name) == ParsedOption(name, None)
    ensures value.Some? ==> ParseOption("--" + name + ":" + value.value) == ParsedOption(name, value)
  {
    if value.Some? {
      var token := "--" + name + ":" + value.value;
      assert StartsWith(token, "--") && token[2..] == name + ":" + value.value;
      SplitNameValue(name, value.value);
    } else {
      assert StartsWith("--" + name, "--") && ("--" + name)[2..] == name;
    }
  }

  /** The short form `-s` or `-s:value` reads back as that name and value, unless the name itself begins with `-`. */
  lemma ShortFormRoundTrip(name: string, value: Option<string>)
    requires ':' !in name
    requires value.Some? ==> name != ""
    requires name == "" || name[0] != '-'
    ensures value.None? ==> ParseOption("-" + name) == ParsedOption(name, None)
    ensures value.Some? ==> ParseOption("-" + name + ":" + value.value) == ParsedOption(name, value)
  {
    if value.Some? {
      var token := "-" + name + ":" + value.value;
      assert token[1] == name[0] && !StartsWith(token, "--");
      assert StartsWith(token, "-") && token[1..] == name + ":" + value.value;
      SplitNameValue(name, value.value);
    } else {
      var token := "-" + name;
      assert !StartsWith(token, "--") by {
        if |token| >= 2 { assert token[1] == name[0]; }
      }
      assert StartsWith(token, "-") && token[1..] == name;
    }
  }

  /** Two splittings of one text at a colon that is absent from both left parts are the same splitting. */
  lemma SplitAtFirstColon(a: string, b: string, c: string, d: string)
    requires ':' !in a && ':' !in c
    requires a + ":" + b == c + ":" + d
    ensures a == c && b == d
  {
    var s := a + ":" + b;
    assert s[|a|] == ':' && s[|c|] == ':';
    assert forall k :: 0 <= k < |a| ==> s[k] == a[k];
    assert forall k :: 0 <= k < |c| ==> s[k] == c[k];
    assert |a| == |c|;
    assert a == s[..|a|] && c == s[..|c|];
    assert b == s[|a| + 1..] && d == s[|c| + 1..];
  }
}
