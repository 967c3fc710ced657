/** The two build artifacts derived from the option table: the source filter
    (which files PlatformIO compiles) and the link settings chosen by the
    operating system. */
module Composer {
  import opened Options
  import opened Validator

  /** The six globs every build compiles, in the script's order. */
  const BaseFilter: seq<string> := [
    "+<*.c>",
    "+<transport/**/*.c>",
    "+<crypto/**/*.c>",
    "+<interfaces/**/*.c>",
    "+<arch/*.c>",
    "+<rtable/csp_rtable.c>"
  ]

  const CanSocketcanSource: string := "+<drivers/can/can_socketcan.c>"
  const UsartKissSource: string := "+<drivers/usart/usart_kiss.c>"
  const WindowsVersionFlag: string := "-D_WIN32_WINNT=0x0600"

  /** The operating-system abstraction subtree for `with-os`. */
  function OsSource(os: FlagValue): (entry: string) {
    "+<arch/" + Format(os) + "/**/*.c>"
  }

  /** The routing-table backend file for `with-rtable`. */
  function RtableSource(rtable: FlagValue): (entry: string) {
    "+<rtable/csp_rtable_" + Format(rtable) + ".c>"
  }

  /** The USART driver file for `with-driver-usart`. */
  function UsartSource(driver: FlagValue): (entry: string) {
    "+<drivers/usart/usart_" + Format(driver) + ".c>"
  }

  /** The conditional entries, each list empty when its option is falsy. */
  function OsEntries(os: FlagValue): (entries: seq<string>) {
    if Truthy(os) then [OsSource(os)] else []
  }

  function RtableEntries(rtable: FlagValue): (entries: seq<string>) {
    if Truthy(rtable) then [RtableSource(rtable)] else []
  }

  function CanEntries(socketcan: FlagValue): (entries: seq<string>) {
    if Truthy(socketcan) then [CanSocketcanSource] else []
  }

  function UsartEntries(driver: FlagValue): (entries: seq<string>) {
    if Truthy(driver) then [UsartKissSource, UsartSource(driver)] else []
  }

  /** The source filter as a value: the base globs followed by the
      conditional entries in the order the script appends them. */
  function SrcFilter(t: Table): (filter: seq<string>)
    requires Complete(t)
  {
    assert "with-os" in OptionNames && "with-rtable" in OptionNames;
    assert "enable-can-socketcan" in OptionNames && "with-driver-usart" in OptionNames;
    BaseFilter
    + OsEntries(t["with-os"])
    + RtableEntries(t["with-rtable"])
    + CanEntries(t["enable-can-socketcan"])
    + UsartEntries(t["with-driver-usart"])
  }

  /** How many conditional entries the filter receives. */
  function AddedEntries(t: Table): (count: nat)
    requires Complete(t)
  {
    assert "with-os" in OptionNames && "with-rtable" in OptionNames;
    assert "enable-can-socketcan" in OptionNames && "with-driver-usart" in OptionNames;
    (if Truthy(t["with-os"]) then 1 else 0)
    + (if Truthy(t["with-rtable"]) then 1 else 0)
    + (if Truthy(t["enable-can-socketcan"]) then 1 else 0)
    + (if Truthy(t["with-driver-usart"]) then 2 else 0)
  }

  /** The script's filter construction: start from the base list and append
      the conditional entries one by one. */
  method BuildSrcFilter(t: Table) returns (filter: seq<string>)
    requires Complete(t)
    ensures filter == SrcFilter(t)
    ensures filter[..6] == BaseFilter
    ensures |filter| == 6 + AddedEntries(t)
  {
    assert "with-os" in OptionNames && "with-rtable" in OptionNames;
    assert "enable-can-socketcan" in OptionNames && "with-driver-usart" in OptionNames;
    var os, rtable := t["with-os"], t["with-rtable"];
    var socketcan, driver := t["enable-can-socketcan"], t["with-driver-usart"];
    filter := BaseFilter;
    if Truthy(os) {
      filter := filter + [OsSource(os)];
    }
    assert filter == BaseFilter + OsEntries(os);
    if Truthy(rtable) {
      filter := filter + [RtableSource(rtable)];
    }
    assert filter == BaseFilter + OsEntries(os) + RtableEntries(rtable);
    if Truthy(socketcan) {
      filter := filter + [CanSocketcanSource];
    }
    assert filter == BaseFilter + OsEntries(os) + RtableEntries(rtable) + CanEntries(socketcan);
    if Truthy(driver) {
      filter := filter + [UsartKissSource];
      filter := filter + [UsartSource(driver)];
    }
    assert filter == SrcFilter(t);
    assert |OsEntries(os)| + |RtableEntries(rtable)| + |CanEntries(socketcan)| + |UsartEntries(driver)|
      == AddedEntries(t);
  }

  /** After the checks pass, the OS subtree and the routing-table file always
      follow the base globs, at positions 6 and 7, named by the chosen values;
      the SocketCAN file, if any, comes next; the two USART files, if any, end
      the list, the KISS driver first. */
  lemma ValidatedFilterLayout(t: Table)
    requires Complete(t) && Validate(t).None?
    ensures var f := SrcFilter(t);
      |f| == 8 + (if Truthy(t["enable-can-socketcan"]) then 1 else 0)
               + (if Truthy(t["with-driver-usart"]) then 2 else 0)
      && f[..6] == BaseFilter
      && f[6] == "+<arch/" + t["with-os"].s + "/**/*.c>"
      && f[7] == "+<rtable/csp_rtable_" + t["with-rtable"].s + ".c>"
      && (Truthy(t["enable-can-socketcan"]) ==> f[8] == CanSocketcanSource)
      && (Truthy(t["with-driver-usart"]) ==>
            f[|f| - 2..] == [UsartKissSource, "+<drivers/usart/usart_" + Format(t["with-driver-usart"]) + ".c>"])
  {
    var os := t["with-os"];
    var rtable := t["with-rtable"];
    assert os.s != "" by { assert os.s in ValidOs; }
    assert rtable.s != "" by { assert rtable.s in ValidRtable; }
  }

  /** Every allowed OS and routing-table name is a non-empty string, so
      their two entries are always appended once the checks pass. */
  lemma ValidatedEntriesPresent(t: Table)
    requires Complete(t) && Validate(t).None?
    ensures Truthy(t["with-os"]) && Truthy(t["with-rtable"])
    ensures AddedEntries(t) >= 2
  {
    assert t["with-os"].s in ValidOs;
    assert t["with-rtable"].s in ValidRtable;
  }

  /** The entries the script builds are told apart by their directory, so
      none of them coincides with the SocketCAN or the KISS file by accident. */
  lemma EntriesDistinct(os: FlagValue, rtable: FlagValue, driver: FlagValue)
    ensures OsSource(os) != CanSocketcanSource && OsSource(os) != UsartKissSource
    ensures RtableSource(rtable) != CanSocketcanSource && RtableSource(rtable) != UsartKissSource
    ensures UsartSource(driver) != CanSocketcanSource && UsartKissSource != CanSocketcanSource
    ensures CanSocketcanSource !in BaseFilter && UsartKissSource !in BaseFilter
  {
    assert OsSource(os)[2] == 'a';
    assert RtableSource(rtable)[2] == 'r';
    assert UsartSource(driver)[10] == 'u';
    assert CanSocketcanSource[2] == 'd' && CanSocketcanSource[10] == 'c';
    assert UsartKissSource[2] == 'd' && UsartKissSource[10] == 'u';
  }

  /** An element missing from every part but one occurs in the whole as
      often as in that part. */
  lemma CountInMiddle(a: seq<string>, b: seq<string>, c: seq<string>, d: seq<string>, e: seq<string>, x: string)
    requires x !in a && x !in b && x !in c && x !in e
    ensures multiset(a + b + c + d + e)[x] == multiset(d)[x]
  {
    assert multiset(a)[x] == 0 && multiset(b)[x] == 0 && multiset(c)[x] == 0 && multiset(e)[x] == 0;
  }

  /** Occurrences of the SocketCAN file among the parts of a filter. */
  lemma SocketcanCount(os: FlagValue, rtable: FlagValue, socketcan: FlagValue, driver: FlagValue)
    ensures multiset(BaseFilter + OsEntries(os) + RtableEntries(rtable) + CanEntries(socketcan)
                     + UsartEntries(driver))[CanSocketcanSource]
      == if Truthy(socketcan) then 1 else 0
  {
    EntriesDistinct(os, rtable, driver);
    CountInMiddle(BaseFilter, OsEntries(os), RtableEntries(rtable), CanEntries(socketcan),
                  UsartEntries(driver), CanSocketcanSource);
  }

  /** Only the SocketCAN switch can put the SocketCAN file in the filter, and
      then exactly once. */
  lemma SocketcanOnce(t: Table)
    requires Complete(t)
    ensures multiset(SrcFilter(t))[CanSocketcanSource]
      == if Truthy(t["enable-can-socketcan"]) then 1 else 0
  {
    assert "with-os" in OptionNames && "with-rtable" in OptionNames;
    assert "enable-can-socketcan" in OptionNames && "with-driver-usart" in OptionNames;
    SocketcanCount(t["with-os"], t["with-rtable"], t["enable-can-socketcan"], t["with-driver-usart"]);
  }

  /** A bare `with-driver-usart` line stores `True`, and the f-string turns it
      into the file name `usart_True.c`. */
  lemma BareUsartDriver(t: Table)
    requires Complete(t) && t["with-driver-usart"] == Enabled
    ensures SrcFilter(t)[|SrcFilter(t)| - 1] == "+<drivers/usart/usart_True.c>"
  {
  }

  /** A USART driver entry (a `+<d…` name with `u` at index 10) is never
      among the entries that precede the USART pair. */
  lemma UsartNotBefore(os: FlagValue, rtable: FlagValue, socketcan: FlagValue, x: string)
    requires |x| > 10 && x[2] == 'd' && x[10] == 'u'
    ensures x !in BaseFilter + OsEntries(os) + RtableEntries(rtable) + CanEntries(socketcan)
  {
    assert OsSource(os)[2] == 'a' && RtableSource(rtable)[2] == 'r';
    assert CanSocketcanSource[10] == 'c';
    assert x !in BaseFilter by {
      forall i | 0 <= i < |BaseFilter| ensures BaseFilter[i] != x {
        assert BaseFilter[i][2] != 'd';
      }
    }
  }

  /** The USART files among the parts of a filter depend on the driver alone. */
  lemma UsartEntriesOnly(os: FlagValue, rtable: FlagValue, socketcan: FlagValue, driver: FlagValue)
    ensures var f := BaseFilter + OsEntries(os) + RtableEntries(rtable) + CanEntries(socketcan)
                     + UsartEntries(driver);
      (UsartKissSource in f <==> Truthy(driver))
      && (!Truthy(driver) ==> UsartSource(driver) !in f)
  {
    var prefix := BaseFilter + OsEntries(os) + RtableEntries(rtable) + CanEntries(socketcan);
    UsartNotBefore(os, rtable, socketcan, UsartKissSource);
    var u := UsartSource(driver);
    assert u[2] == 'd' && u[10] == 'u';
    UsartNotBefore(os, rtable, socketcan, u);
    if Truthy(driver) {
      assert UsartKissSource in UsartEntries(driver);
    } else {
      assert prefix + UsartEntries(driver) == prefix;
    }
  }

  /** The KISS driver file is compiled exactly when the USART driver is
      truthy; an unset or empty driver adds no USART file at all. */
  lemma UsartEntriesPresence(t: Table)
    requires Complete(t)
    ensures UsartKissSource in SrcFilter(t) <==> Truthy(t["with-driver-usart"])
    ensures !Truthy(t["with-driver-usart"]) ==> UsartSource(t["with-driver-usart"]) !in SrcFilter(t)
  {
    assert "with-os" in OptionNames && "with-rtable" in OptionNames;
    assert "enable-can-socketcan" in OptionNames && "with-driver-usart" in OptionNames;
    UsartEntriesOnly(t["with-os"], t["with-rtable"], t["enable-can-socketcan"], t["with-driver-usart"]);
  }

  /** Link libraries and the extra compile flag chosen by `with-os`. */
  datatype Linkage = Linkage(libs: seq<string>, cFlags: seq<string>)

  /** The script's `c_libs`/`c_flags` selection: only a truthy OS is looked at,
      and only `posix`, `macosx` and `windows` produce anything. */
  function LinkSettings(os: FlagValue): (link: Linkage)
  {
    if Truthy(os) then
      if os == Str("posix") then Linkage(["-lrt", "-lpthread", "-lutil"], [])
      else if os == Str("macosx") then Linkage(["-lpthread"], [])
      else if os == Str("windows") then Linkage([], [WindowsVersionFlag])
      else Linkage([], [])
    else Linkage([], [])
  }

  /** For each allowed operating system the link settings are fixed:
      POSIX links rt, pthread and util; macOS links pthread; Windows links
      nothing and gets the Windows-version compile flag; FreeRTOS gets neither. */
  lemma LinkSettingsPerOs(os: FlagValue)
    requires OneOf(os, ValidOs)
    ensures os.s == "posix" ==> LinkSettings(os) == Linkage(["-lrt", "-lpthread", "-lutil"], [])
    ensures os.s == "macosx" ==> LinkSettings(os) == Linkage(["-lpthread"], [])
    ensures os.s == "windows" ==> LinkSettings(os) == Linkage([], [WindowsVersionFlag])
    ensures os.s == "freertos" ==> LinkSettings(os) == Linkage([], [])
  {
  }

  /** Whatever the value, the compile flag appears only for Windows and
      libraries only for POSIX and macOS. */
  lemma LinkSettingsChannels(os: FlagValue)
    ensures LinkSettings(os).cFlags != [] <==> os == Str("windows")
    ensures LinkSettings(os).libs != [] <==> os == Str("posix") || os == Str("macosx")
  {
  }
}
