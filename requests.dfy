/**
 * Reading untyped request bodies and query strings the way the routes' zod
 * schemas and JavaScript coercions do.
 */
module Requests {
  import opened Common
  import opened Text

  /** The fields of a JSON object; any other value has none. */
  function FieldsOf(body: Json): map<string, Json> {
    if body.JObject? then body.fields else map[]
  }

  /** `z.string().min(minLen)`: a string field of at least `minLen` characters. */
  function StringField(fields: map<string, Json>, name: string, minLen: nat): (r: Option<string>)
    ensures r.Some? <==> name in fields && fields[name].JStr? && |fields[name].s| >= minLen
    ensures r.Some? ==> fields[name] == JStr(r.value)
  {
    if name in fields && fields[name].JStr? && |fields[name].s| >= minLen then Some(fields[name].s) else None
  }

  /**
   * `z.string().optional()`: Some(None) when the field is absent, Some(Some(s))
   * for a string, None (a schema error) for any other value, `null` included.
   */
  function OptionalString(fields: map<string, Json>, name: string): (r: Option<Option<string>>)
    ensures r == Some(None) <==> name !in fields
    ensures r.Some? && r.value.Some? <==> name in fields && fields[name].JStr?
  {
    if name !in fields then Some(None)
    else if fields[name].JStr? then Some(Some(fields[name].s))
    else None
  }

  /** `z.number().int().min(0)`: a whole, non-negative number. */
  function IndexField(fields: map<string, Json>, name: string): (r: Option<nat>)
    ensures r.Some? <==> name in fields && fields[name].JNum? && IsIndex(fields[name].n)
    ensures r.Some? ==> fields[name].n == r.value as real
  {
    if name in fields && fields[name].JNum? && IsIndex(fields[name].n) then Some(fields[name].n.Floor as nat) else None
  }

  /** `z.number().min(lo).max(hi)`. */
  function BoundedNumber(fields: map<string, Json>, name: string, lo: real, hi: real): (r: Option<real>)
    ensures r.Some? <==> name in fields && fields[name].JNum? && lo <= fields[name].n <= hi
    ensures r.Some? ==> fields[name] == JNum(r.value)
  {
    if name in fields && fields[name].JNum? && lo <= fields[name].n <= hi then Some(fields[name].n) else None
  }

  /**
   * `Number(s)` for a query value, for the numerals modelled: `null` and a
   * blank string are 0; otherwise surrounding white space, an optional sign
   * and at least one decimal digit. None for everything else.
   */
  function CoerceNumber(s: Option<string>): Option<int> {
    if s.None? then Some(0)
    else
      var t := Trim(s.value);
      if t == [] then Some(0)
      else
        var unsigned := if t[0] == '+' || t[0] == '-' then t[1..] else t;
        if unsigned == [] || !IsDigits(unsigned, 10) then None
        else
          var v: int := DigitsValue(unsigned, 10);
          Some(if t[0] == '-' then -v else v)
  }

  /** `z.coerce.number().int().min(0)` on a query value. */
  function CoerceIndex(s: Option<string>): (r: Option<nat>)
    ensures r.Some? <==> CoerceNumber(s).Some? && CoerceNumber(s).value >= 0
  {
    var n := CoerceNumber(s);
    if n.Some? && n.value >= 0 then Some(n.value) else None
  }

  /** A missing query value coerces to episode 0, as does a blank one. */
  lemma MissingIsZero(s: Option<string>)
    requires s.None? || Blank(s.value)
    ensures CoerceIndex(s) == Some(0)
  {
  }

  /** A plain decimal numeral coerces to its value. */
  lemma DecimalCoerces(n: nat)
    ensures CoerceIndex(Some(NatToDigits(n, 10))) == Some(n)
  {
    var d := NatToDigits(n, 10);
    DigitsWellFormed(n, 10);
    DigitsRoundTrip(n, 10);
    forall i | 0 <= i < |d|
      ensures !IsJsSpace(d[i]) && d[i] != '+' && d[i] != '-'
    {
      assert DigitOf(d[i]) < 10;
    }
    TrimWithoutSpaces(d);
  }
}
