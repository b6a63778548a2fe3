/**
 * The value that `response.json()` hands to the bot: a decoded JSON document,
 * together with the text Python's `str()` gives a scalar of it (which is what an
 * f-string placeholder inserts).
 */
module JsonValue {

  /** A decoded JSON value. Objects are Python dicts, arrays Python lists. */
  datatype Json =
    | JNull
    | JBool(b: bool)
    | JNumber(n: int)
    | JString(s: string)
    | JArray(items: seq<Json>)
    | JObject(fields: map<string, Json>)

  /** True for the values Python can hash: a list or a dict used as a key raises TypeError. */
  predicate Hashable(j: Json) {
    !j.JArray? && !j.JObject?
  }

  function DigitChar(d: nat): (c: char)
    requires d < 10
    ensures '0' <= c <= '9'
  {
    "0123456789"[d]
  }

  function DigitValue(c: char): (d: nat)
    requires '0' <= c <= '9'
    ensures d < 10 && DigitChar(d) == c
  {
    (c as int - '0' as int) as nat
  }

  /** Decimal digits of `n`, most significant first, without leading zeros. */
  function Digits(n: nat): (s: string)
    ensures 1 <= |s|
    ensures forall i :: 0 <= i < |s| ==> '0' <= s[i] <= '9'
    ensures n >= 10 ==> s[0] != '0'
    decreases n
  {
    if n < 10 then [DigitChar(n)] else Digits(n / 10) + [DigitChar(n % 10)]
  }

  /** The number a string of decimal digits denotes. */
  function DecimalValue(s: string): nat
    requires forall i :: 0 <= i < |s| ==> '0' <= s[i] <= '9'
  {
    if s == [] then 0 else DecimalValue(s[..|s| - 1]) * 10 + DigitValue(s[|s| - 1])
  }

  /** Reading the digits back gives the number: `Digits` loses nothing. */
  lemma {:induction false} DigitsRoundTrip(n: nat)
    ensures DecimalValue(Digits(n)) == n
    decreases n
  {
    if n >= 10 {
      var s := Digits(n);
      assert s[..|s| - 1] == Digits(n / 10);
      DigitsRoundTrip(n / 10);
      assert DigitValue(s[|s| - 1]) == n % 10;
    }
  }

  /**
   * `str(j)` for the scalars: a string is inserted as it is, `None`, `True`,
   * `False` and integers as Python spells them. Lists and dicts stand for
   * Python's repr of them, which this model does not spell out.
   */
  function Render(j: Json): (r: string)
    ensures j.JString? ==> r == j.s
    ensures j == JNull ==> r == "None"
    ensures j == JBool(true) ==> r == "True"
    ensures j == JBool(false) ==> r == "False"
    ensures j.JNumber? ==> r == if j.n < 0 then "-" + Digits(-j.n) else Digits(j.n)
  {
    match j
    case JNull => "None"
    case JBool(b) => if b then "True" else "False"
    case JNumber(n) => if n < 0 then "-" + Digits(-n) else Digits(n)
    case JString(s) => s
    case JArray(_) => "[...]"
    case JObject(_) => "{...}"
  }

  /** An integer is rendered as its decimal digits, after a `-` when negative, and they read back as its magnitude. */
  lemma RenderIntRoundTrip(n: int)
    ensures var r := Render(JNumber(n));
      var sign := if n < 0 then 1 else 0;
      && |r| > sign
      && (n < 0 ==> r[0] == '-')
      && (forall i :: sign <= i < |r| ==> '0' <= r[i] <= '9')
      && DecimalValue(r[sign..]) == if n < 0 then -n else n
  {
    var r := Render(JNumber(n));
    if n >= 0 {
      assert r[0..] == r == Digits(n);
      DigitsRoundTrip(n);
    } else {
      var d := Digits(-n);
      assert r == "-" + d;
      assert r[1..] == d;
      DigitsRoundTrip(-n);
    }
  }
}
