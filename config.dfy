/** The whole build hook: tokenize the environment's `custom_csp_options`
    text, validate the three enumerated options, then derive the source
    filter, the link libraries and the extra compile flags. */
module Config {
  import opened Outcomes
  import opened Text
  import opened Options
  import opened Tokenizer
  import opened Validator
  import opened Composer

  /** What the hook hands back to the build: the source filter, the link
      libraries, and the compile flags the script computes for Windows. */
  datatype Artifacts = Artifacts(srcFilter: seq<string>, libs: seq<string>, cFlags: seq<string>)

  /** Validation, then the artifacts, for a tokenized table. */
  function Compose(t: Table): (r: Result<Artifacts, ConfigError>)
    requires Complete(t)
  {
    match Validate(t)
    case Some(e) => Err(e)
    case None =>
      var link := LinkSettings(t["with-os"]);
      Ok(Artifacts(SrcFilter(t), link.libs, link.cFlags))
  }

  /** The hook's outcome for one environment's option text. */
  function Resolve(config: string): (r: Result<Artifacts, ConfigError>)
  {
    Compose(ResolveOptions(config))
  }

  /** The script run top to bottom on one environment's option text. */
  method Configure(config: string) returns (r: Result<Artifacts, ConfigError>)
    ensures r == Resolve(config)
  {
    var options := ApplyOptions(config);
    var failure := Validate(options);
    if failure.Some? {
      return Err(failure.value);
    }
    var srcFilter := BuildSrcFilter(options);
    var link := LinkSettings(options["with-os"]);
    r := Ok(Artifacts(srcFilter, link.libs, link.cFlags));
  }

  /** A successful run always yields the six base globs, then the subtree of
      the chosen OS and the file of the chosen routing table; the libraries
      and compile flags depend on the OS alone. */
  lemma ResolveSuccess(config: string)
    ensures Resolve(config).Ok? ==>
      var t := ResolveOptions(config);
      var a := Resolve(config).value;
      Validate(t).None?
      && |a.srcFilter| >= 8
      && a.srcFilter[..6] == BaseFilter
      && a.srcFilter[6] == "+<arch/" + t["with-os"].s + "/**/*.c>"
      && a.srcFilter[7] == "+<rtable/csp_rtable_" + t["with-rtable"].s + ".c>"
      && a.libs == LinkSettings(t["with-os"]).libs
      && a.cFlags == LinkSettings(t["with-os"]).cFlags
  {
    if Resolve(config).Ok? {
      ValidatedFilterLayout(ResolveOptions(config));
    }
  }

  /** A run fails exactly when the checks fail, with the first failing check's error. */
  lemma ResolveFailure(config: string)
    ensures Resolve(config).Err? <==> Validate(ResolveOptions(config)).Some?
    ensures Resolve(config).Err? ==> Resolve(config).error == Validate(ResolveOptions(config)).value
  {
  }

  /** Spaces never matter, wherever they stand: the text with its spaces
      removed resolves to the same table. */
  lemma {:induction false} SpacesIgnored(config: string)
    ensures ResolveOptions(StripSpaces(config)) == ResolveOptions(config)
  {
    StripSpacesNoSpaces(StripSpaces(config));
  }

  /** An empty (or blank) option text never builds: `with-os` is unset and
      is the first check to fail. */
  lemma BlankConfigAborts(config: string)
    requires forall i :: 0 <= i < |config| ==> config[i] == ' ' || config[i] == '\n'
    ensures Resolve(config) == Err(InvalidOption("with-os", ValidOs))
  {
    BlankConfigIsDefault(config);
    assert "with-os" in OptionNames;
  }

  /** Text made of the given lines (none holding a space or a newline)
      resolves through exactly those lines. */
  lemma ResolveLines(config: string, lines: seq<string>)
    requires |lines| >= 1 && config == Join(lines, '\n')
    requires forall l :: l in lines ==> ' ' !in l && '\n' !in l
    ensures ResolveOptions(config) == ApplyAll(Defaults, lines)
  {
    JoinNoSpaces(lines);
    LinesWithoutSpaces(config);
    SplitJoin(lines, '\n');
  }




  /** A plain option value: no `=`, space or newline. */
  predicate Plain(v: string) {
    '=' !in v && ' ' !in v && '\n' !in v
  }

  /** After the checks' three options (and no SocketCAN switch), the outcome
      is the first failing check, or the base globs, the chosen OS subtree
      and routing-table file, the USART files if a driver is set, and the
      OS's link settings. */
  lemma ComposeEnum(t: Table, os: string, loglevel: string, rtable: string)
    requires Complete(t)
    requires t["with-os"] == Str(os) && t["with-loglevel"] == Str(loglevel) && t["with-rtable"] == Str(rtable)
    requires t["enable-can-socketcan"] == Absent
    ensures Compose(t)
      == if os !in ValidOs then Err(InvalidOption("with-os", ValidOs))
         else if loglevel !in ValidLoglevel then Err(InvalidOption("with-loglevel", ValidLoglevel))
         else if rtable !in ValidRtable then Err(InvalidOption("with-rtable", ValidRtable))
         else Ok(Artifacts(
           BaseFilter + ["+<arch/" + os + "/**/*.c>", "+<rtable/csp_rtable_" + rtable + ".c>"]
             + UsartEntries(t["with-driver-usart"]),
           LinkSettings(Str(os)).libs,
           LinkSettings(Str(os)).cFlags))
  {
    if os in ValidOs && loglevel in ValidLoglevel && rtable in ValidRtable {
      assert os != "" && rtable != "";
      assert Validate(t).None?;
      assert OsEntries(t["with-os"]) == ["+<arch/" + os + "/**/*.c>"];
      assert RtableEntries(t["with-rtable"]) == ["+<rtable/csp_rtable_" + rtable + ".c>"];
      assert CanEntries(t["enable-can-socketcan"]) == [];
      assert SrcFilter(t) == BaseFilter + ["+<arch/" + os + "/**/*.c>", "+<rtable/csp_rtable_" + rtable + ".c>"]
        + UsartEntries(t["with-driver-usart"]);
    }
  }

  /** Three lines `a=x`, `b=y`, `c=z` write their three strings in order. */
  lemma ThreeSettings(k0: string, v0: string, k1: string, v1: string, k2: string, v2: string)
    requires '=' !in k0 && '=' !in v0 && '=' !in k1 && '=' !in v1 && '=' !in k2 && '=' !in v2
    ensures ApplyAll(Defaults, [k0 + "=" + v0, k1 + "=" + v1, k2 + "=" + v2])
      == Defaults[k0 := Str(v0)][k1 := Str(v1)][k2 := Str(v2)]
  {
    var l0, l1, l2 := k0 + "=" + v0, k1 + "=" + v1, k2 + "=" + v2;
    ParseKeyValue(k0, v0);
    ParseKeyValue(k1, v1);
    ParseKeyValue(k2, v2);
    assert l0[|k0|] == '=' && l1[|k1|] == '=' && l2[|k2|] == '=';
    assert [l0, l1, l2][..2] == [l0, l1];
    assert [l0, l1][..1] == [l0];
    var none: seq<string> := [];
    assert [l0][..0] == none;
    assert ApplyAll(Defaults, [l0]) == Defaults[k0 := Str(v0)];
    assert ApplyAll(Defaults, [l0, l1]) == Defaults[k0 := Str(v0)][k1 := Str(v1)];
  }

  /** The three mandatory options and nothing else, one per line. */
  function EnumOnlyText(os: string, loglevel: string, rtable: string): (config: string) {
    "with-os" + "=" + os + "\n" + "with-loglevel" + "=" + loglevel + "\n" + "with-rtable" + "=" + rtable
  }

  /** The three `key=value` lines of the enum-only text. */
  function EnumOnlyLines(os: string, loglevel: string, rtable: string): (lines: seq<string>) {
    ["with-os" + "=" + os, "with-loglevel" + "=" + loglevel, "with-rtable" + "=" + rtable]
  }

  /** The enum-only text is its three lines joined by newlines. */
  lemma EnumOnlyJoin(os: string, loglevel: string, rtable: string)
    ensures Join(EnumOnlyLines(os, loglevel, rtable), '\n') == EnumOnlyText(os, loglevel, rtable)
  {
    var l0, l1, l2 := "with-os" + "=" + os, "with-loglevel" + "=" + loglevel, "with-rtable" + "=" + rtable;
    assert Join([l2], '\n') == l2;
    assert Join([l1, l2], '\n') == l1 + "\n" + l2;
    assert Join([l0, l1, l2], '\n') == l0 + "\n" + (l1 + "\n" + l2);
  }

  /** None of the three lines holds a space or a newline. */
  lemma EnumOnlyLinesPlain(os: string, loglevel: string, rtable: string)
    requires Plain(os) && Plain(loglevel) && Plain(rtable)
    ensures forall l :: l in EnumOnlyLines(os, loglevel, rtable) ==> ' ' !in l && '\n' !in l
  {
    assert ' ' !in "with-os=" && ' ' !in "with-loglevel=" && ' ' !in "with-rtable=";
    assert '\n' !in "with-os=" && '\n' !in "with-loglevel=" && '\n' !in "with-rtable=";
  }

  /** Setting only the three mandatory options gives a table with exactly
      those three strings over the defaults. */
  lemma EnumOnlyOptions(os: string, loglevel: string, rtable: string)
    requires Plain(os) && Plain(loglevel) && Plain(rtable)
    ensures ResolveOptions(EnumOnlyText(os, loglevel, rtable))
      == Defaults["with-os" := Str(os)]["with-loglevel" := Str(loglevel)]["with-rtable" := Str(rtable)]
  {
    var lines := EnumOnlyLines(os, loglevel, rtable);
    EnumOnlyJoin(os, loglevel, rtable);
    EnumOnlyLinesPlain(os, loglevel, rtable);
    ResolveLines(EnumOnlyText(os, loglevel, rtable), lines);
    ThreeSettings("with-os", os, "with-loglevel", loglevel, "with-rtable", rtable);
  }

  /** With only the three mandatory options set, the run fails on the first
      value outside its list, and otherwise yields the base globs, the chosen
      OS subtree and routing-table file, and the OS's link settings. */
  lemma EnumOnlyResolve(os: string, loglevel: string, rtable: string)
    requires Plain(os) && Plain(loglevel) && Plain(rtable)
    ensures Resolve(EnumOnlyText(os, loglevel, rtable))
      == if os !in ValidOs then Err(InvalidOption("with-os", ValidOs))
         else if loglevel !in ValidLoglevel then Err(InvalidOption("with-loglevel", ValidLoglevel))
         else if rtable !in ValidRtable then Err(InvalidOption("with-rtable", ValidRtable))
         else Ok(Artifacts(
           BaseFilter + ["+<arch/" + os + "/**/*.c>", "+<rtable/csp_rtable_" + rtable + ".c>"],
           LinkSettings(Str(os)).libs,
           LinkSettings(Str(os)).cFlags))
  {
    EnumOnlyOptions(os, loglevel, rtable);
    var t := Defaults["with-os" := Str(os)]["with-loglevel" := Str(loglevel)]["with-rtable" := Str(rtable)];
    assert "enable-can-socketcan" in OptionNames && "with-driver-usart" in OptionNames;
    assert t["enable-can-socketcan"] == Absent && t["with-driver-usart"] == Absent;
    assert Resolve(EnumOnlyText(os, loglevel, rtable)) == Compose(t);
    ComposeEnum(t, os, loglevel, rtable);
    var chosen := ["+<arch/" + os + "/**/*.c>", "+<rtable/csp_rtable_" + rtable + ".c>"];
    assert UsartEntries(t["with-driver-usart"]) == [];
    assert BaseFilter + chosen + UsartEntries(t["with-driver-usart"]) == BaseFilter + chosen;
  }

  /** A single bare line sets that option to `True`; the name is not checked
      against the declared options, so an unknown one is added to the table. */
  lemma BareOption(name: string)
    requires Plain(name) && name != ""
    ensures ResolveOptions(name) == Defaults[name := Enabled]
    ensures name !in OptionNames ==> name !in Defaults && name in ResolveOptions(name)
  {
    ResolveLines(name, [name]);
    ParseBareName(name);
    var none: seq<string> := [];
    assert [name][..0] == none;
  }

  /** A POSIX build with debug logging and the static routing table: the POSIX
      subtree and the static table file follow the base globs; rt, pthread
      and util are linked; no compile flag is added. */
  lemma PosixExample(os: string, loglevel: string, rtable: string)
    requires os == "posix" && loglevel == "debug" && rtable == "static"
    ensures Resolve(EnumOnlyText(os, loglevel, rtable)) == Ok(Artifacts(
      BaseFilter + ["+<arch/" + os + "/**/*.c>", "+<rtable/csp_rtable_" + rtable + ".c>"],
      ["-lrt", "-lpthread", "-lutil"],
      []))
  {
    EnumOnlyResolve(os, loglevel, rtable);
    LinkSettingsPerOs(Str(os));
  }

  /** An operating system outside the allowed list aborts with the OS error,
      whatever the other two options say. */
  lemma UnknownOsExample(os: string, loglevel: string, rtable: string)
    requires os == "bsd" && loglevel == "info" && rtable == "static"
    ensures Resolve(EnumOnlyText(os, loglevel, rtable)) == Err(InvalidOption("with-os", ValidOs))
  {
    EnumOnlyResolve(os, loglevel, rtable);
  }

  /** The three mandatory options followed by a USART driver line. */
  function EnumUsartText(os: string, loglevel: string, rtable: string, driver: string): (config: string) {
    EnumOnlyText(os, loglevel, rtable) + "\n" + "with-driver-usart" + "=" + driver
  }

  /** The four lines of the mandatory options and a USART driver. */
  function EnumUsartLines(os: string, loglevel: string, rtable: string, driver: string): (lines: seq<string>) {
    EnumOnlyLines(os, loglevel, rtable) + ["with-driver-usart" + "=" + driver]
  }

  /** The text with a USART driver is its four lines joined by newlines, none
      of them holding a space or a newline. */
  lemma EnumUsartJoin(os: string, loglevel: string, rtable: string, driver: string)
    requires Plain(os) && Plain(loglevel) && Plain(rtable) && Plain(driver)
    ensures Join(EnumUsartLines(os, loglevel, rtable, driver), '\n') == EnumUsartText(os, loglevel, rtable, driver)
    ensures forall l :: l in EnumUsartLines(os, loglevel, rtable, driver) ==> ' ' !in l && '\n' !in l
  {
    EnumOnlyJoin(os, loglevel, rtable);
    JoinAppend(EnumOnlyLines(os, loglevel, rtable), '\n', "with-driver-usart" + "=" + driver);
    EnumOnlyLinesPlain(os, loglevel, rtable);
    assert ' ' !in "with-driver-usart=" && '\n' !in "with-driver-usart=";
  }

  /** The mandatory options and a USART driver give the defaults with those four strings. */
  lemma EnumUsartOptions(os: string, loglevel: string, rtable: string, driver: string)
    requires Plain(os) && Plain(loglevel) && Plain(rtable) && Plain(driver)
    ensures ResolveOptions(EnumUsartText(os, loglevel, rtable, driver))
      == Defaults["with-os" := Str(os)]["with-loglevel" := Str(loglevel)]["with-rtable" := Str(rtable)]
           ["with-driver-usart" := Str(driver)]
  {
    var first := EnumOnlyLines(os, loglevel, rtable);
    var l3 := "with-driver-usart" + "=" + driver;
    var lines := EnumUsartLines(os, loglevel, rtable, driver);
    EnumUsartJoin(os, loglevel, rtable, driver);
    ResolveLines(EnumUsartText(os, loglevel, rtable, driver), lines);
    ThreeSettings("with-os", os, "with-loglevel", loglevel, "with-rtable", rtable);
    ParseKeyValue("with-driver-usart", driver);
    assert l3[|"with-driver-usart"|] == '=';
    assert lines[..|lines| - 1] == first;
  }

  /** With the mandatory options and a USART driver, a valid run ends its
      filter with the KISS driver and the named driver file (none for an
      empty name); the checks and link settings are as without the driver. */
  lemma EnumUsartResolve(os: string, loglevel: string, rtable: string, driver: string)
    requires Plain(os) && Plain(loglevel) && Plain(rtable) && Plain(driver)
    ensures Resolve(EnumUsartText(os, loglevel, rtable, driver))
      == if os !in ValidOs then Err(InvalidOption("with-os", ValidOs))
         else if loglevel !in ValidLoglevel then Err(InvalidOption("with-loglevel", ValidLoglevel))
         else if rtable !in ValidRtable then Err(InvalidOption("with-rtable", ValidRtable))
         else Ok(Artifacts(
           BaseFilter + ["+<arch/" + os + "/**/*.c>", "+<rtable/csp_rtable_" + rtable + ".c>"]
             + (if driver == "" then [] else [UsartKissSource, "+<drivers/usart/usart_" + driver + ".c>"]),
           LinkSettings(Str(os)).libs,
           LinkSettings(Str(os)).cFlags))
  {
    EnumUsartOptions(os, loglevel, rtable, driver);
    var t := Defaults["with-os" := Str(os)]["with-loglevel" := Str(loglevel)]["with-rtable" := Str(rtable)]
      ["with-driver-usart" := Str(driver)];
    assert "enable-can-socketcan" in OptionNames;
    assert t["enable-can-socketcan"] == Absent && t["with-driver-usart"] == Str(driver);
    ComposeEnum(t, os, loglevel, rtable);
  }

  /** A Windows build with the Linux USART driver: the Windows subtree, the
      CIDR table file, then the KISS driver and `usart_linux.c`; nothing is
      linked and the Windows-version flag is the one compile flag. */
  lemma WindowsExample(os: string, loglevel: string, rtable: string, driver: string)
    requires os == "windows" && loglevel == "error" && rtable == "cidr" && driver == "linux"
    ensures Resolve(EnumUsartText(os, loglevel, rtable, driver)) == Ok(Artifacts(
      BaseFilter + ["+<arch/" + os + "/**/*.c>", "+<rtable/csp_rtable_" + rtable + ".c>",
                    "+<drivers/usart/usart_kiss.c>", "+<drivers/usart/usart_" + driver + ".c>"],
      [],
      ["-D_WIN32_WINNT=0x0600"]))
  {
    assert os in ValidOs && loglevel in ValidLoglevel && rtable in ValidRtable && driver != "";
    EnumUsartResolve(os, loglevel, rtable, driver);
    LinkSettingsPerOs(Str(os));
    assert LinkSettings(Str(os)) == Linkage([], [WindowsVersionFlag]);
    assert WindowsVersionFlag == "-D_WIN32_WINNT=0x0600";
    var chosen := ["+<arch/" + os + "/**/*.c>", "+<rtable/csp_rtable_" + rtable + ".c>"];
    var usart := [UsartKissSource, "+<drivers/usart/usart_" + driver + ".c>"];
    assert UsartKissSource == "+<drivers/usart/usart_kiss.c>";
    assert chosen + usart == ["+<arch/" + os + "/**/*.c>", "+<rtable/csp_rtable_" + rtable + ".c>",
                              "+<drivers/usart/usart_kiss.c>", "+<drivers/usart/usart_" + driver + ".c>"];
    assert BaseFilter + chosen + usart == BaseFilter + (chosen + usart);
  }
}
