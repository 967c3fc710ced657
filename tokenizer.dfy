/** The option tokenizer and the table update loop: the raw
    `custom_csp_options` text has its spaces removed and is cut into lines;
    every non-empty line is split on `=` and written into the option table,
    so a later line for the same option overrides an earlier one. */
module Tokenizer {
  import opened Text
  import opened Options

  /** The lines the loop visits: spaces removed, then split on newlines. */
  function Lines(config: string): (lines: seq<string>)
    ensures |lines| >= 1
    ensures forall l :: l in lines ==> ' ' !in l && '\n' !in l
  {
    var stripped := StripSpaces(config);
    var lines := Split(stripped, '\n');
    assert forall l :: l in lines ==> ' ' !in l by {
      forall l, c | l in lines && c in l ensures c != ' ' {
        StripSpacesChars(config, c);
      }
    }
    lines
  }

  /** A text without spaces is cut into lines directly. */
  lemma LinesWithoutSpaces(config: string)
    requires ' ' !in config
    ensures Lines(config) == Split(config, '\n')
  {
    StripSpacesNoSpaces(config);
  }

  /** The entry one non-empty line writes: with exactly two `=`-pieces the
      option named by the first piece gets the second as a string, otherwise
      the option named by the first piece becomes `True`. */
  function ParseLine(item: string): (entry: (string, FlagValue))
  {
    var option := Split(item, '=');
    if |option| == 2 then (option[0], Str(option[1])) else (option[0], Enabled)
  }

  /** A line without `=` sets the whole line, as an option name, to `True`. */
  lemma ParseBareName(item: string)
    requires '=' !in item
    ensures ParseLine(item) == (item, Enabled)
  {
    SplitNoSep(item, '=');
  }

  /** `key=value` with one `=` sets `key` to the string `value` (which may be empty). */
  lemma ParseKeyValue(key: string, value: string)
    requires '=' !in key && '=' !in value
    ensures ParseLine(key + "=" + value) == (key, Str(value))
  {
    SplitAtFirst(key, '=', value);
    SplitNoSep(value, '=');
  }

  /** A line with two or more `=` is not rejected: the text before the first
      `=` names the option, which becomes `True`, and the rest is dropped. */
  lemma ParseSeveralEquals(key: string, rest: string)
    requires '=' !in key && '=' in rest
    ensures ParseLine(key + "=" + rest) == (key, Enabled)
  {
    SplitAtFirst(key, '=', rest);
    JoinSplit(rest, '=');
  }

  /** One iteration of the loop: an empty line leaves the table as it is,
      any other line writes the entry it parses to. */
  function ApplyLine(t: Table, item: string): (updated: Table)
  {
    if item == "" then t
    else
      var (key, value) := ParseLine(item);
      t[key := value]
  }

  /** The table after the loop has visited `lines` in order, starting from `t`. */
  function ApplyAll(t: Table, lines: seq<string>): (updated: Table)
    decreases |lines|
  {
    if lines == [] then t
    else ApplyLine(ApplyAll(t, lines[..|lines| - 1]), lines[|lines| - 1])
  }

  /** The option table the script holds after tokenizing `config`; every
      declared option is still in it. */
  function ResolveOptions(config: string): (t: Table)
    ensures Complete(t)
  {
    ApplyAllKeys(Defaults, Lines(config));
    ApplyAll(Defaults, Lines(config))
  }

  /** Keys named by the non-empty lines. */
  function NamedKeys(lines: seq<string>): (keys: set<string>)
  {
    set l | l in lines && l != "" :: ParseLine(l).0
  }

  /** The loop never removes an option: the final table holds the starting
      keys plus exactly the keys the non-empty lines name, known or not. */
  lemma {:induction false} ApplyAllKeys(t: Table, lines: seq<string>)
    ensures ApplyAll(t, lines).Keys == t.Keys + NamedKeys(lines)
    decreases |lines|
  {
    if lines != [] {
      var init := lines[..|lines| - 1];
      var last := lines[|lines| - 1];
      ApplyAllKeys(t, init);
      assert lines == init + [last];
      assert NamedKeys(lines) == NamedKeys(init) + (if last == "" then {} else {ParseLine(last).0});
    }
  }

  /** The last non-empty line naming `key` decides its value. */
  lemma {:induction false} LastLineWins(t: Table, lines: seq<string>, i: nat, key: string)
    requires i < |lines| && lines[i] != "" && ParseLine(lines[i]).0 == key
    requires forall j :: i < j < |lines| && lines[j] != "" ==> ParseLine(lines[j]).0 != key
    ensures key in ApplyAll(t, lines) && ApplyAll(t, lines)[key] == ParseLine(lines[i]).1
    decreases |lines|
  {
    if i < |lines| - 1 {
      var init := lines[..|lines| - 1];
      LastLineWins(t, init, i, key);
    }
  }

  /** An option no non-empty line names keeps the value it started with. */
  lemma {:induction false} UnnamedKeepsValue(t: Table, lines: seq<string>, key: string)
    requires forall j :: 0 <= j < |lines| && lines[j] != "" ==> ParseLine(lines[j]).0 != key
    ensures key in ApplyAll(t, lines) <==> key in t
    ensures key in t ==> ApplyAll(t, lines)[key] == t[key]
    decreases |lines|
  {
    if lines != [] {
      UnnamedKeepsValue(t, lines[..|lines| - 1], key);
    }
  }

  /** A declared option that no line of the text names stays `False`. */
  lemma UnnamedOptionUnset(config: string, key: string)
    requires key in OptionNames
    requires forall l :: l in Lines(config) && l != "" ==> ParseLine(l).0 != key
    ensures ResolveOptions(config)[key] == Absent
  {
    var lines := Lines(config);
    forall j | 0 <= j < |lines| && lines[j] != "" ensures ParseLine(lines[j]).0 != key {
      assert lines[j] in lines;
    }
    UnnamedKeepsValue(Defaults, lines, key);
  }

  /** The non-empty lines, in order. */
  function NonEmpty(lines: seq<string>): (r: seq<string>)
    ensures forall l :: l in r ==> l in lines && l != ""
    decreases |lines|
  {
    if lines == [] then []
    else
      var init := lines[..|lines| - 1];
      var last := lines[|lines| - 1];
      NonEmpty(init) + (if last == "" then [] else [last])
  }

  /** Empty lines contribute nothing: applying only the non-empty lines gives the same table. */
  lemma {:induction false} EmptyLinesIgnored(t: Table, lines: seq<string>)
    ensures ApplyAll(t, NonEmpty(lines)) == ApplyAll(t, lines)
    decreases |lines|
  {
    if lines != [] {
      var init := lines[..|lines| - 1];
      var last := lines[|lines| - 1];
      EmptyLinesIgnored(t, init);
      if last != "" {
        var ne := NonEmpty(init) + [last];
        assert ne[..|ne| - 1] == NonEmpty(init);
      } else {
        assert NonEmpty(lines) == NonEmpty(init) + [] == NonEmpty(init);
        assert ApplyAll(t, lines) == ApplyLine(ApplyAll(t, init), "") == ApplyAll(t, init);
      }
    }
  }

  /** Text made only of spaces and newlines (the empty text included) leaves
      every option at its default. */
  lemma BlankConfigIsDefault(config: string)
    requires forall i :: 0 <= i < |config| ==> config[i] == ' ' || config[i] == '\n'
    ensures ResolveOptions(config) == Defaults
  {
    var lines := Lines(config);
    var stripped := StripSpaces(config);
    forall j | 0 <= j < |lines| ensures lines[j] == "" {
      if lines[j] != "" {
        var c := lines[j][0];
        assert c in lines[j];
        assert lines[j] in lines;
        assert c in stripped;
        StripSpacesChars(config, c);
      }
    }
    UnnamedKeepsValue(Defaults, lines, "");
    AllEmptyLines(Defaults, lines);
  }

  /** Lines that are all empty leave the table untouched. */
  lemma {:induction false} AllEmptyLines(t: Table, lines: seq<string>)
    requires forall j :: 0 <= j < |lines| ==> lines[j] == ""
    ensures ApplyAll(t, lines) == t
    decreases |lines|
  {
    if lines != [] {
      AllEmptyLines(t, lines[..|lines| - 1]);
    }
  }

  /** The script's tokenize-and-update loop: the table starts as the
      defaults and each non-empty line writes its entry in place. */
  method ApplyOptions(config: string) returns (options: Table)
    ensures options == ResolveOptions(config)
    ensures Complete(options)
  {
    options := Defaults;
    var csp := StripSpaces(config);
    var items := Split(csp, '\n');
    var i := 0;
    while i < |items|
      invariant 0 <= i <= |items|
      invariant options == ApplyAll(Defaults, items[..i])
    {
      var item := items[i];
      if item != "" {
        var option := Split(item, '=');
        if |option| == 2 {
          options := options[option[0] := Str(option[1])];
        } else {
          options := options[option[0] := Enabled];
        }
      }
      assert items[..i + 1][..i] == items[..i];
      i := i + 1;
    }
    assert items[..i] == items;
  }
}
