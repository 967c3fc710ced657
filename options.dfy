/** The Option and Result datatypes the resolver returns. */
module Outcomes {

  datatype Option<+T> = None | Some(value: T)

  datatype Result<+R, +E> = Ok(value: R) | Err(error: E)
}

/** The CSP option table: the values an option can hold, the seventeen
    recognised option names and their defaults, and how Python reads a value
    in a condition (`if csp_options[k]:`) or an f-string (`f"...{v}..."`). */
module Options {

  /** A table entry. The script stores Python `False` for an option never
      mentioned, `True` for a bare option, and the text after `=` otherwise. */
  datatype FlagValue = Absent | Enabled | Str(s: string)

  /** The option table (`csp_options`), keyed by option name. */
  type Table = map<string, FlagValue>

  /** The seventeen options the script declares. */
  const OptionNames: seq<string> := [
    "disable-output",
    "enable-rdp",
    "enable-rdp-fast-close",
    "enable-qos",
    "enable-promisc",
    "enable-crc32",
    "enable-hmac",
    "enable-xtea",
    "enable-dedup",
    "enable-external-debug",
    "enable-debug-timestamp",
    "enable-if-zmqhub",
    "enable-can-socketcan",
    "with-loglevel",
    "with-driver-usart",
    "with-os",
    "with-rtable"
  ]

  /** The table before any option line is applied: every declared option is `False`. */
  const Defaults: Table := map k | k in OptionNames :: Absent

  /** A table that still holds every declared option, as every table the script builds does. */
  predicate Complete(t: Table) {
    Defaults.Keys <= t.Keys
  }

  /** Python truthiness of a stored value: `False` is false, `True` is true,
      and a string is true exactly when it is not empty. */
  predicate Truthy(v: FlagValue) {
    match v
    case Absent => false
    case Enabled => true
    case Str(s) => s != ""
  }

  /** Python `str(v)`, the text an f-string substitutes for a stored value. */
  function Format(v: FlagValue): (text: string) {
    match v
    case Absent => "False"
    case Enabled => "True"
    case Str(s) => s
  }

  /** Every declared option is in the default table, holding `False`, which no
      condition of the script treats as set. */
  lemma DefaultsUnset(k: string)
    requires k in OptionNames
    ensures k in Defaults && Defaults[k] == Absent && !Truthy(Defaults[k])
  {
  }
}
