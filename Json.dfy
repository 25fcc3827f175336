/**
 * Parsed JSON objects and the org.json accessors the session engine reads
 * replies with (JSONObject.has, optInt, getInt, getBoolean, optString).
 * Turning text into objects is left to the JSON library: the model starts
 * from the parsed object.
 */
module Json {
  import opened Wrappers
  import opened Bytes

  datatype JsonValue =
    | JString(s: string)
    | JNumber(n: int)            // an integral JSON number
    | JBool(b: bool)
    | JNull
    | JCompound(text: string)    // an array or nested object, kept as its JSON text

  type JsonObject = map<string, JsonValue>

  // ---------------------------------------------------------------------
  // Decimal text of integers, used where a number is read as a string or
  // a string as a number.

  function DigitChar(d: int): (c: char)
    requires 0 <= d < 10
    ensures '0' <= c <= '9'
  {
    ('0' as int + d) as char
  }

  function DigitValue(c: char): (d: int)
    requires '0' <= c <= '9'
    ensures 0 <= d < 10
  {
    c as int - '0' as int
  }

  predicate AllDigits(s: string) {
    forall i :: 0 <= i < |s| ==> '0' <= s[i] <= '9'
  }

  /** Decimal digits of n without leading zeros. */
  function NatText(n: nat): (s: string)
    ensures |s| > 0 && AllDigits(s)
    decreases n
  {
    if n < 10 then [DigitChar(n)] else NatText(n / 10) + [DigitChar(n % 10)]
  }

  /** Java's Integer.toString / Long.toString of an integer. */
  function IntText(n: int): (s: string)
    ensures |s| > 0
  {
    if n < 0 then "-" + NatText(-n) else NatText(n)
  }

  function DigitsValue(s: string): (n: nat)
    requires AllDigits(s)
    decreases |s|
  {
    if s == [] then 0 else DigitsValue(s[..|s| - 1]) * 10 + DigitValue(s[|s| - 1])
  }

  /** An optional minus sign followed by one or more decimal digits, read as an integer. */
  function ParseInteger(s: string): (r: Option<int>)
    ensures r.Some? ==> |s| > 0
  {
    if |s| > 1 && s[0] == '-' && AllDigits(s[1..]) then
      var magnitude: int := DigitsValue(s[1..]);
      Some(-magnitude)
    else if |s| > 0 && AllDigits(s) then Some(DigitsValue(s) as int)
    else None
  }

  lemma {:induction false} DigitsValueOfNatText(n: nat)
    ensures DigitsValue(NatText(n)) == n
    decreases n
  {
    if n >= 10 {
      DigitsValueOfNatText(n / 10);
      var s := NatText(n);
      assert s[..|s| - 1] == NatText(n / 10);
    }
  }

  /** A minus sign followed by digits reads as the negated digit value. */
  lemma ParseNegative(digits: string)
    requires |digits| > 0 && AllDigits(digits)
    ensures ParseInteger("-" + digits) == Some(-(DigitsValue(digits) as int))
  {
    var s := "-" + digits;
    assert s[0] == '-' && s[1..] == digits;
  }

  /** Digits alone read as their value. */
  lemma ParseNonNegative(digits: string)
    requires |digits| > 0 && AllDigits(digits)
    ensures ParseInteger(digits) == Some(DigitsValue(digits) as int)
  {
    assert '0' <= digits[0] <= '9';
  }

  /** Reading back the decimal text of an integer gives the integer. */
  lemma ParseIntegerOfIntText(n: int)
    ensures ParseInteger(IntText(n)) == Some(n)
  {
    if n < 0 {
      DigitsValueOfNatText(-n);
      ParseNegative(NatText(-n));
    } else {
      DigitsValueOfNatText(n);
      ParseNonNegative(NatText(n));
    }
  }

  /** A leading '+' is also accepted; otherwise as ParseInteger. */
  function ParseSigned(s: string): Option<int> {
    if |s| > 1 && s[0] == '+' && AllDigits(s[1..]) then Some(DigitsValue(s[1..]) as int)
    else ParseInteger(s)
  }

  /**
   * Integer.parseInt over ASCII digits: an optionally signed decimal that
   * must fit in an int; any other ASCII text throws (None). Java also reads
   * the other Unicode decimal digits; those are not part of this model.
   */
  function ParseJavaInt(s: string): Option<Int32> {
    match ParseSigned(s)
    case Some(n) => if INT_MIN <= n <= INT_MAX then Some(n) else None
    case None => None
  }

  /** Integer.parseInt of an integer's decimal text gives it back when it fits in an int, and throws otherwise. */
  lemma ParseJavaIntOfIntText(n: int)
    ensures ParseJavaInt(IntText(n)) == if INT_MIN <= n <= INT_MAX then Some(n) else None
  {
    var s := IntText(n);
    if n >= 0 {
      assert s == NatText(n) && '0' <= s[0] <= '9';
    }
    ParseIntegerOfIntText(n);
  }

  /** Integer.parseInt also reads a number written with a '+' sign. */
  lemma ParseJavaIntAcceptsPlus(n: nat)
    ensures ParseJavaInt("+" + NatText(n)) == if n <= INT_MAX then Some(n) else None
  {
    var digits := NatText(n);
    var s := "+" + digits;
    assert s[0] == '+' && s[1..] == digits;
    DigitsValueOfNatText(n);
  }

  function BoolText(b: bool): string {
    if b then "true" else "false"
  }

  // ---------------------------------------------------------------------
  // Case folding, as String.equalsIgnoreCase does it when one side is the
  // lower-case word "true" or "false": ASCII letters match in either case,
  // and U+017F LATIN SMALL LETTER LONG S, whose upper case is 'S', matches
  // 's'. No other character upper-cases or lower-cases onto a letter of
  // those two words.

  function FoldCase(c: char): char {
    if 'A' <= c <= 'Z' then (c as int + 32) as char
    else if c == 0x17F as char then 's'
    else c
  }

  predicate EqualsIgnoreCase(s: string, word: string) {
    |s| == |word| && forall i :: 0 <= i < |s| ==> FoldCase(s[i]) == FoldCase(word[i])
  }

  // ---------------------------------------------------------------------
  // org.json accessors.

  /** JSONObject.has: the key is present, even with a JSON null value. */
  predicate Has(o: JsonObject, key: string) {
    key in o
  }

  /** The number a value stands for, as org.json's optNumber sees it. */
  function NumberOf(v: JsonValue): Option<int> {
    match v
    case JNumber(n) => Some(n)
    case JString(s) => ParseInteger(s)
    case _ => None
  }

  /** JSONObject.optInt(key, default): the number narrowed to an int, or the default. */
  function OptInt(o: JsonObject, key: string, default: Int32): (r: Int32)
    ensures key !in o ==> r == default
    ensures key in o && o[key].JNumber? ==> r == Wrap32(o[key].n)
    ensures key in o && NumberOf(o[key]).None? ==> r == default
  {
    if key in o && NumberOf(o[key]).Some? then Wrap32(NumberOf(o[key]).value) else default
  }

  /**
   * JSONObject.getInt(key): a number is narrowed to an int (Number.intValue);
   * any other value goes through Integer.parseInt of its text, so only a
   * string can succeed. None stands for the JSONException it throws.
   */
  function GetInt(o: JsonObject, key: string): (r: Option<Int32>)
    ensures key !in o ==> r.None?
    ensures key in o && o[key].JNumber? ==> r == Some(Wrap32(o[key].n))
    ensures key in o && o[key].JString? ==> r == ParseJavaInt(o[key].s)
    ensures r.Some? ==> key in o && (o[key].JNumber? || o[key].JString?)
  {
    if key !in o then None
    else match o[key]
      case JNumber(n) => Some(Wrap32(n))
      case JString(s) => ParseJavaInt(s)
      case _ => None
  }

  /** JSONObject.getBoolean(key): a boolean, or the string "true"/"false" in any case; None is the JSONException. */
  function GetBoolean(o: JsonObject, key: string): (r: Option<bool>)
    ensures key !in o ==> r.None?
    ensures key in o && o[key].JBool? ==> r == Some(o[key].b)
    ensures key in o && (o[key].JNumber? || o[key].JNull? || o[key].JCompound?) ==> r.None?
  {
    if key !in o then None
    else match o[key]
      case JBool(b) => Some(b)
      case JString(s) =>
        if EqualsIgnoreCase(s, "false") then Some(false)
        else if EqualsIgnoreCase(s, "true") then Some(true)
        else None
      case _ => None
  }

  /** JSONObject.optString(key, default): the value's text, or the default when absent or null. */
  function OptString(o: JsonObject, key: string, default: string): (r: string)
    ensures key !in o || o[key].JNull? ==> r == default
    ensures key in o && o[key].JString? ==> r == o[key].s
  {
    if key !in o then default
    else match o[key]
      case JString(s) => s
      case JNumber(n) => IntText(n)
      case JBool(b) => BoolText(b)
      case JNull => default
      case JCompound(text) => text
  }

  /**
   * A number written as a JSON string: getInt reads it only when it fits
   * in an int, while optInt narrows it like a number.
   */
  lemma GetIntOfNumericString(o: JsonObject, key: string, n: int)
    requires key in o && o[key] == JString(IntText(n))
    ensures GetInt(o, key) == if INT_MIN <= n <= INT_MAX then Some(n) else None
    ensures OptInt(o, key, -1) == Wrap32(n)
  {
    ParseIntegerOfIntText(n);
    ParseJavaIntOfIntText(n);
  }
}
