/** The three enumerated options and the checks that abort the build when one
    of them holds anything but an allowed name. The checks run in the order
    `with-os`, `with-loglevel`, `with-rtable`; the first failure is raised. */
module Validator {
  import opened Outcomes
  import opened Options

  const ValidOs: seq<string> := ["posix", "windows", "freertos", "macosx"]
  const ValidLoglevel: seq<string> := ["error", "warn", "info", "debug"]
  const ValidRtable: seq<string> := ["static", "cidr"]

  /** The exception raised for an enumerated option: its name and the allowed values. */
  datatype ConfigError = InvalidOption(key: string, allowed: seq<string>)

  /** Python `v in allowed` for a list of strings: only a string equal to one
      of the names matches, never `False` or `True`. */
  predicate OneOf(v: FlagValue, allowed: seq<string>) {
    v.Str? && v.s in allowed
  }

  /** The three membership checks in the script's order. None means the
      table passed all three. */
  function Validate(t: Table): (r: Option<ConfigError>)
    requires Complete(t)
    ensures r.None? <==>
      OneOf(t["with-os"], ValidOs) &&
      OneOf(t["with-loglevel"], ValidLoglevel) &&
      OneOf(t["with-rtable"], ValidRtable)
    ensures r.Some? ==> r.value.key in t && !OneOf(t[r.value.key], r.value.allowed)
  {
    assert "with-os" in OptionNames && "with-loglevel" in OptionNames && "with-rtable" in OptionNames;
    if !OneOf(t["with-os"], ValidOs) then Some(InvalidOption("with-os", ValidOs))
    else if !OneOf(t["with-loglevel"], ValidLoglevel) then Some(InvalidOption("with-loglevel", ValidLoglevel))
    else if !OneOf(t["with-rtable"], ValidRtable) then Some(InvalidOption("with-rtable", ValidRtable))
    else None
  }

  /** The reported failure is the first failing check: an operating-system
      error whenever the OS is invalid, a log-level error only when the OS is
      valid, a routing-table error only when both earlier checks pass. */
  lemma ValidateReportsFirstFailure(t: Table)
    requires Complete(t)
    ensures Validate(t) == Some(InvalidOption("with-os", ValidOs))
      <==> !OneOf(t["with-os"], ValidOs)
    ensures Validate(t) == Some(InvalidOption("with-loglevel", ValidLoglevel))
      <==> OneOf(t["with-os"], ValidOs) && !OneOf(t["with-loglevel"], ValidLoglevel)
    ensures Validate(t) == Some(InvalidOption("with-rtable", ValidRtable))
      <==> OneOf(t["with-os"], ValidOs) && OneOf(t["with-loglevel"], ValidLoglevel)
           && !OneOf(t["with-rtable"], ValidRtable)
  {
  }

  /** The three options are mandatory: one left at its default `False`, or
      given bare (so `True`), always fails the checks. */
  lemma UnsetEnumOptionRejected(t: Table, key: string)
    requires Complete(t)
    requires key == "with-os" || key == "with-loglevel" || key == "with-rtable"
    requires t[key] == Absent || t[key] == Enabled
    ensures Validate(t).Some?
  {
  }
}
