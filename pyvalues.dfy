/**
 * Parsed YAML values as hype/config.py receives them from the YAML loader,
 * and the Python built-ins it applies to them: truthiness, `dict.get`,
 * `int()` and `float()`.
 */
module PyValues {
  import opened Wrappers
  import opened Text

  /**
   * A parsed YAML document node. A mapping keeps its entries in document
   * order; like a Python dict it is meant to hold each key once
   * (`DistinctKeys`), which the loader's contracts do not require.
   */
  datatype Value =
    | VNull
    | VBool(b: bool)
    | VInt(i: int)
    | VReal(r: real)
    | VStr(s: string)
    | VList(items: seq<Value>)
    | VMap(entries: seq<(Value, Value)>)

  /** Python truthiness: `None`, `False`, zero and empty containers are false. */
  predicate Truthy(v: Value) {
    match v
    case VNull => false
    case VBool(b) => b
    case VInt(i) => i != 0
    case VReal(r) => r != 0.0
    case VStr(s) => s != []
    case VList(items) => items != []
    case VMap(entries) => entries != []
  }

  /** No key occurs twice among the entries of a mapping. */
  predicate DistinctKeys(entries: seq<(Value, Value)>) {
    forall i, j :: 0 <= i < j < |entries| ==> entries[i].0 != entries[j].0
  }

  /** The value stored under `key`: `d.get(key)`. */
  function Lookup(entries: seq<(Value, Value)>, key: Value): (r: Option<Value>)
    ensures r.None? <==> forall i :: 0 <= i < |entries| ==> entries[i].0 != key
    ensures r.Some? ==> exists i :: 0 <= i < |entries| && entries[i] == (key, r.value)
  {
    if entries == [] then None
    else if entries[|entries| - 1].0 == key then Some(entries[|entries| - 1].1)
    else Lookup(entries[..|entries| - 1], key)
  }

  /** With distinct keys, the value found is the one stored at the key's unique position. */
  lemma LookupAt(entries: seq<(Value, Value)>, i: nat)
    requires DistinctKeys(entries) && i < |entries|
    ensures Lookup(entries, entries[i].0) == Some(entries[i].1)
  {
    var r := Lookup(entries, entries[i].0);
    var j :| 0 <= j < |entries| && entries[j] == (entries[i].0, r.value);
    assert j == i;
  }

  /** `d.get(key, default)` for a string key. */
  function GetOr(entries: seq<(Value, Value)>, key: string, default: Value): Value {
    Lookup(entries, VStr(key)).GetOr(default)
  }

  predicate IsDigit(c: char) {
    '0' <= c <= '9'
  }

  predicate AllDigits(s: string) {
    forall i :: 0 <= i < |s| ==> IsDigit(s[i])
  }

  /** The number a string of decimal digits spells, most significant digit first. */
  function DigitsValue(ds: string): nat
    requires AllDigits(ds)
  {
    if ds == [] then 0
    else DigitsValue(ds[..|ds| - 1]) * 10 + (ds[|ds| - 1] as int - '0' as int)
  }

  /** The decimal spelling of a natural number, without leading zeros. */
  function ShowNat(n: nat): (s: string)
    ensures s != [] && AllDigits(s)
  {
    var d := ['0' + ((n % 10) as char)];
    if n < 10 then d else ShowNat(n / 10) + d
  }

  /** `str(n)` for an int. */
  function ShowInt(n: int): string {
    if n < 0 then "-" + ShowNat(-n) else ShowNat(n)
  }

  /** Reading the digits back gives the number. */
  lemma {:induction false} DigitsValueShowNat(n: nat)
    ensures DigitsValue(ShowNat(n)) == n
  {
    var s := ShowNat(n);
    if n >= 10 {
      DigitsValueShowNat(n / 10);
      assert s[..|s| - 1] == ShowNat(n / 10);
    }
  }

  /**
   * Decimal digits with single underscores between them, as `int()` accepts
   * them: `1_000`, but not `_1`, `1_` or `1__0`.
   */
  predicate GroupedDigits(s: string) {
    && s != [] && IsDigit(s[0]) && IsDigit(s[|s| - 1])
    && (forall i :: 0 <= i < |s| ==> IsDigit(s[i]) || s[i] == '_')
    && (forall i :: 0 < i < |s| ==> IsDigit(s[i - 1]) || IsDigit(s[i]))
  }

  /** `s` with its underscores dropped. */
  function DropUnderscores(s: string): (r: string)
    ensures (forall i :: 0 <= i < |s| ==> IsDigit(s[i]) || s[i] == '_') ==> AllDigits(r)
    ensures AllDigits(s) ==> r == s
  {
    if s == [] then []
    else
      var rest := DropUnderscores(s[1..]);
      assert forall i :: 0 <= i < |s| - 1 ==> s[1..][i] == s[i + 1];
      (if s[0] == '_' then [] else [s[0]]) + rest
  }

  /** Grouped digits hold nothing but digits and underscores, so dropping the underscores leaves digits. */
  lemma GroupedDropsToDigits(s: string)
    requires GroupedDigits(s)
    ensures AllDigits(DropUnderscores(s))
  {
  }

  /** Dropping underscores distributes over concatenation. */
  lemma {:induction false} DropUnderscoresAppend(a: string, b: string)
    ensures DropUnderscores(a + b) == DropUnderscores(a) + DropUnderscores(b)
  {
    if a != [] {
      assert (a + b)[0] == a[0] && (a + b)[1..] == a[1..] + b;
      var h := if a[0] == '_' then [] else [a[0]];
      assert DropUnderscores(a + b) == h + DropUnderscores(a[1..] + b);
      assert DropUnderscores(a) == h + DropUnderscores(a[1..]);
      DropUnderscoresAppend(a[1..], b);
    } else {
      assert a + b == b;
    }
  }

  /** An optional `+` or `-` followed by grouped decimal digits. */
  function ParseSignedDigits(t: string): Option<int> {
    if t != [] && (t[0] == '+' || t[0] == '-') then
      var body := t[1..];
      if GroupedDigits(body) then
        GroupedDropsToDigits(body);
        var v: int := DigitsValue(DropUnderscores(body));
        Some(if t[0] == '-' then -v else v)
      else None
    else if GroupedDigits(t) then
      GroupedDropsToDigits(t);
      Some(DigitsValue(DropUnderscores(t)))
    else None
  }

  /**
   * `int(s)` for a string: surrounding whitespace, an optional sign, decimal
   * digits with single underscores between them.
   */
  function ParseInt(s: string): Option<int> {
    ParseSignedDigits(Strip(s))
  }

  /** A string with no whitespace at either end is its own strip. */
  lemma StripNoSpaceEnds(s: string)
    requires s != [] && !IsSpace(s[0]) && !IsSpace(s[|s| - 1])
    ensures Strip(s) == s
  {
    var r := StripRight(s);
    assert |r| == |s|;
    assert r == s;
    var l := StripLeft(s);
    assert |l| == |s|;
  }

  /** `int(str(n)) == n` */
  lemma ParseIntShowInt(n: int)
    ensures ParseInt(ShowInt(n)) == Some(n)
  {
    var m: nat := if n < 0 then -n else n;
    var digits := ShowNat(m);
    DigitsValueShowNat(m);
    DigitsGrouped(digits);
    if n < 0 {
      ParseNegative(digits);
    } else {
      ParseGrouped(digits);
    }
  }

  /** A non-empty digit string is grouped, with no underscore to drop. */
  lemma DigitsGrouped(s: string)
    requires s != [] && AllDigits(s)
    ensures GroupedDigits(s) && DropUnderscores(s) == s
  {
  }

  /** A digit string, with or without one underscore between two of its digits, is grouped. */
  lemma GroupedAround(a: string, b: string)
    requires a != [] && b != [] && AllDigits(a) && AllDigits(b)
    ensures GroupedDigits(a + b) && GroupedDigits(a + "_" + b)
  {
    var s := a + "_" + b;
    assert forall i :: 0 <= i < |s| ==> (i < |a| ==> s[i] == a[i]) && (i > |a| ==> s[i] == b[i - |a| - 1]);
    var t := a + b;
    assert forall i :: 0 <= i < |t| ==> (i < |a| ==> t[i] == a[i]) && (i >= |a| ==> t[i] == b[i - |a|]);
  }

  /** `int()` of unsigned grouped digits, without surrounding whitespace, is the number they spell. */
  lemma ParseGrouped(t: string)
    requires GroupedDigits(t)
    ensures ParseInt(t) == Some(DigitsValue(DropUnderscores(t)))
  {
    StripNoSpaceEnds(t);
  }

  /** `int()` of `-` and grouped digits is the negated number they spell. */
  lemma ParseNegative(t: string)
    requires GroupedDigits(t)
    ensures ParseInt("-" + t) == Some(-(DigitsValue(DropUnderscores(t)) as int))
  {
    var s := "-" + t;
    assert s[1..] == t && s[|s| - 1] == t[|t| - 1];
    StripNoSpaceEnds(s);
  }

  /** A single underscore between two runs of digits is ignored: `int("1_000") == int("1000") == 1000`. */
  lemma UnderscoreIgnored(a: string, b: string)
    requires a != [] && b != [] && AllDigits(a) && AllDigits(b)
    ensures ParseInt(a + "_" + b) == ParseInt(a + b) == Some(DigitsValue(a + b))
  {
    GroupedAround(a, b);
    ParseGrouped(a + "_" + b);
    ParseGrouped(a + b);
    assert DropUnderscores("_") == [];
    DropUnderscoresAppend(a, "_");
    assert DropUnderscores(a + "_") == a;
    DropUnderscoresAppend(a + "_", b);
    assert AllDigits(a + b);
  }

  /** An underscore at either end of the digits is refused: `int("1_")` and `int("_1")` raise. */
  lemma UnderscoreAtEndRefused(a: string)
    requires a != [] && AllDigits(a)
    ensures ParseInt(a + "_") == None && ParseInt("_" + a) == None
  {
    var s := a + "_";
    var t := "_" + a;
    assert s[0] == a[0] && t[|t| - 1] == a[|a| - 1];
    StripNoSpaceEnds(s);
    StripNoSpaceEnds(t);
    assert s[|s| - 1] == '_' && t[0] == '_';
  }

  /** The integer part of a real, rounding toward zero as Python's `int(x)` does for floats. */
  function Trunc(r: real): (n: int)
    ensures r >= 0.0 ==> n as real <= r < n as real + 1.0
    ensures r < 0.0 ==> n as real - 1.0 < r <= n as real
  {
    if r >= 0.0 then r.Floor else -((-r).Floor)
  }

  /**
   * `int(v)`: booleans are 0 or 1, floats are truncated toward zero, strings
   * are parsed as `ParseInt` reads them; `None`, lists and mappings raise,
   * and so does a string `ParseInt` refuses.
   */
  function ToInt(v: Value): (r: Result<int>)
    ensures v.VInt? ==> r == Ok(v.i)
    ensures v.VBool? ==> r == Ok(if v.b then 1 else 0)
    ensures v.VNull? || v.VList? || v.VMap? ==> r.Err?
  {
    match v
    case VNull => Err("int() argument must be a string or a number, not 'NoneType'")
    case VBool(b) => Ok(if b then 1 else 0)
    case VInt(i) => Ok(i)
    case VReal(x) => Ok(Trunc(x))
    case VStr(s) =>
      (match ParseInt(s)
       case Some(n) => Ok(n)
       case None => Err("invalid literal for int()"))
    case VList(_) => Err("int() argument must be a string or a number, not 'list'")
    case VMap(_) => Err("int() argument must be a string or a number, not 'dict'")
  }

  /** `int()` of a quoted integer literal gives the integer. */
  lemma ToIntShowInt(n: int)
    ensures ToInt(VStr(ShowInt(n))) == Ok(n)
  {
    ParseIntShowInt(n);
  }

  /** `10 ** e` as a real, for any integer `e`. */
  function Pow10(e: int): (p: real)
    ensures p > 0.0
    decreases if e < 0 then -e else e
  {
    if e == 0 then 1.0
    else if e > 0 then 10.0 * Pow10(e - 1)
    else Pow10(e + 1) / 10.0
  }

  /** The index of the first occurrence of either character, or `|s|`. */
  function IndexOfEither(s: string, a: char, b: char): (k: nat)
    ensures k <= |s|
    ensures k < |s| ==> s[k] == a || s[k] == b
    ensures forall i :: 0 <= i < k ==> s[i] != a && s[i] != b
  {
    if s == [] then 0
    else if s[0] == a || s[0] == b then 0
    else 1 + IndexOfEither(s[1..], a, b)
  }

  /** An unsigned decimal mantissa `digits[.digits]` or `.digits`. */
  function ParseMantissa(m: string): Option<real> {
    var dot := IndexOfEither(m, '.', '.');
    var whole := m[..dot];
    var frac := if dot < |m| then m[dot + 1..] else [];
    if AllDigits(whole) && AllDigits(frac) && (whole != [] || frac != []) then
      Some(DigitsValue(whole) as real + DigitsValue(frac) as real / Pow10(|frac|))
    else None
  }

  /** An unsigned decimal literal: a mantissa and an optional `e`/`E` exponent. */
  function ParseUnsignedFloat(t: string): Option<real> {
    var e := IndexOfEither(t, 'e', 'E');
    match ParseMantissa(t[..e])
    case None => None
    case Some(m) =>
      if e == |t| then Some(m)
      else match ParseSignedDigits(t[e + 1..])
        case None => None
        case Some(x) => Some(m * Pow10(x))
  }

  /**
   * `float(s)` for a string: surrounding whitespace, an optional sign and a
   * decimal literal.
   */
  function ParseFloat(s: string): Option<real> {
    var t := Strip(s);
    if t != [] && (t[0] == '+' || t[0] == '-') then
      match ParseUnsignedFloat(t[1..])
      case None => None
      case Some(x) => Some(if t[0] == '-' then -x else x)
    else ParseUnsignedFloat(t)
  }

  /** A digit string has no `.`, `e` or `E` in it. */
  lemma DigitsHaveNoMarks(s: string)
    requires AllDigits(s)
    ensures IndexOfEither(s, '.', '.') == |s|
    ensures IndexOfEither(s, 'e', 'E') == |s|
  {
  }

  /** `float(str(n)) == n` */
  lemma ParseFloatShowInt(n: int)
    ensures ParseFloat(ShowInt(n)) == Some(n as real)
  {
    var m: nat := if n < 0 then -n else n;
    var digits := ShowNat(m);
    DigitsValueShowNat(m);
    DigitsHaveNoMarks(digits);
    assert digits[..|digits|] == digits;
    assert ParseMantissa(digits) == Some(m as real);
    assert ParseUnsignedFloat(digits) == Some(m as real);
    assert IsDigit(digits[0]) && IsDigit(digits[|digits| - 1]);
    if n < 0 {
      var s := "-" + digits;
      assert s[1..] == digits;
      assert s[|s| - 1] == digits[|digits| - 1];
      StripNoSpaceEnds(s);
    } else {
      StripNoSpaceEnds(digits);
    }
  }

  /**
   * `float(v)`, or None where Python raises `TypeError` or `ValueError`.
   * Booleans give 1.0 and 0.0; `inf`, `nan` and digit separators are not
   * part of this model.
   */
  function ToFloat(v: Value): (r: Option<real>)
    ensures v.VInt? ==> r == Some(v.i as real)
    ensures v.VReal? ==> r == Some(v.r)
    ensures v.VNull? || v.VList? || v.VMap? ==> r.None?
  {
    match v
    case VNull => None
    case VBool(b) => Some(if b then 1.0 else 0.0)
    case VInt(i) => Some(i as real)
    case VReal(x) => Some(x)
    case VStr(s) => ParseFloat(s)
    case VList(_) => None
    case VMap(_) => None
  }
}
