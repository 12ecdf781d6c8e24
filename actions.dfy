/** The recorded action (`iAction`) as far as the modelled code reads or
    writes it: its type, its optional selector and the free-form `meta` map
    of its payload. */
module Actions {
  import opened Wrappers

  /** Action types. Only RUN_AFTER_TEST is distinguished by the modelled
      code; every other type is carried by name. `Other` never carries the
      RUN_AFTER_TEST type's own name: an action of that type is always
      `RunAfterTest`. */
  datatype ActionType = RunAfterTest | Other(name: string)

  /** A value stored in `payload.meta`: a string, a number or `null`. */
  datatype MetaValue = Str(s: string) | Num(n: int) | Null

  datatype Action = Action(actionType: ActionType, selector: Option<string>, meta: map<string, MetaValue>)

  predicate IsRunAfterTest(a: Action) {
    a.actionType == RunAfterTest
  }

  /** `payload.meta[key]`, `None` standing for `undefined`. */
  function MetaField(a: Action, key: string): Option<MetaValue> {
    if key in a.meta then Some(a.meta[key]) else None
  }

  /** The text a JavaScript template literal gives a meta value:
      `undefined` and `null` become those words, strings stay as they are,
      integers their decimal form with a leading "-" when negative. */
  function TemplateText(v: Option<MetaValue>): (r: string)
    ensures v.None? ==> r == "undefined"
    ensures v == Some(Null) ==> r == "null"
    ensures v.Some? && v.value.Str? ==> r == v.value.s
    ensures v.Some? && v.value.Num? && v.value.n >= 0 ==> IsDecimal(r) && DecimalValue(r) == v.value.n
    ensures v.Some? && v.value.Num? && v.value.n < 0 ==>
              |r| >= 2 && r[0] == '-' && IsDecimal(r[1..]) && DecimalValue(r[1..]) == -v.value.n
  {
    match v
    case None => "undefined"
    case Some(Null) => "null"
    case Some(Str(s)) => s
    case Some(Num(n)) =>
      if n < 0 then
        assert ("-" + Decimal(-n))[1..] == Decimal(-n);
        "-" + Decimal(-n)
      else Decimal(n)
  }

  /** A canonical decimal numeral: at least one digit, and no leading zero
      unless it is "0" itself. */
  predicate IsDecimal(s: string) {
    |s| >= 1 && (forall i :: 0 <= i < |s| ==> '0' <= s[i] <= '9') && (s[0] == '0' ==> |s| == 1)
  }

  /** The number a string of digits denotes. */
  function DecimalValue(s: string): int
    decreases |s|
  {
    if s == [] then 0 else DecimalValue(s[..|s| - 1]) * 10 + (s[|s| - 1] as int - '0' as int)
  }

  /** The decimal numeral of `n`, most significant digit first. */
  function Decimal(n: nat): (r: string)
    ensures IsDecimal(r) && DecimalValue(r) == n
    decreases n
  {
    if n < 10 then [DigitChar(n)]
    else
      var prefix := Decimal(n / 10);
      var r := prefix + [DigitChar(n % 10)];
      assert r[..|r| - 1] == prefix;
      r
  }

  function DigitChar(d: nat): (c: char)
    requires d < 10
    ensures '0' <= c <= '9' && c as int - '0' as int == d
  {
    ('0' as int + d) as char
  }
}
