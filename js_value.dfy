/** JavaScript values as the ingestion code sees them: decoded JSON values and the
    objects the CSV parser builds, with the operations the code applies to them —
    property lookup and assignment, truthiness, `toString().trim() === ''`,
    and `isNaN(Number(x))`.

    Numbers are kept as the text of their literal; `Number(s)` on a string is the
    ECMAScript StringToNumber grammar (section 7.1.4.1.1 of ECMA-262), which fixes
    whether the result is NaN and whether it is zero without any floating point. */
module JsValue {
  import opened Wrappers
  import opened JsText

  datatype Json =
    | JNull
    | JBool(b: bool)
    | JNum(text: string)
    | JStr(s: string)
    | JArr(items: seq<Json>)
    | JObj(members: seq<Member>)

  /** One own property of an object, in insertion order. */
  datatype Member = Member(key: string, value: Json)

  // ---------------------------------------------------------------------------
  // Objects

  function Keys(ms: seq<Member>): (ks: seq<string>)
    ensures |ks| == |ms|
  {
    if |ms| == 0 then [] else [ms[0].key] + Keys(ms[1..])
  }

  /** The object has an own property named `key`. */
  predicate HasKey(ms: seq<Member>, key: string) {
    |ms| > 0 && (ms[0].key == key || HasKey(ms[1..], key))
  }

  lemma {:induction false} HasKeyInKeys(ms: seq<Member>, key: string)
    ensures HasKey(ms, key) <==> key in Keys(ms)
  {
    if |ms| > 0 {
      HasKeyInKeys(ms[1..], key);
      assert Keys(ms) == [ms[0].key] + Keys(ms[1..]);
    }
  }

  /** `obj[key]` on an object's own properties; `None` is `undefined`. */
  function Lookup(ms: seq<Member>, key: string): (r: Option<Json>)
    ensures r.None? <==> !HasKey(ms, key)
  {
    if |ms| == 0 then None
    else if ms[0].key == key then Some(ms[0].value)
    else Lookup(ms[1..], key)
  }

  /** `obj[key] = v`: an existing property keeps its place and takes the new value,
      a new one is added at the end. */
  function Put(ms: seq<Member>, key: string, v: Json): seq<Member> {
    if |ms| == 0 then [Member(key, v)]
    else if ms[0].key == key then [Member(key, v)] + ms[1..]
    else [ms[0]] + Put(ms[1..], key, v)
  }

  /** After `obj[key] = v`, reading `key` gives `v` and every other property reads as
      before. */
  lemma {:induction false} PutLookup(ms: seq<Member>, key: string, v: Json, k: string)
    ensures Lookup(Put(ms, key, v), k) == if k == key then Some(v) else Lookup(ms, k)
  {
    if |ms| > 0 && ms[0].key != key {
      PutLookup(ms[1..], key, v, k);
      assert ([ms[0]] + Put(ms[1..], key, v))[1..] == Put(ms[1..], key, v);
    } else if |ms| > 0 {
      assert ([Member(key, v)] + ms[1..])[1..] == ms[1..];
    }
  }

  /** Assigning an existing property keeps the key order; a new one is appended. */
  lemma {:induction false} PutKeys(ms: seq<Member>, key: string, v: Json)
    ensures Keys(Put(ms, key, v)) == if HasKey(ms, key) then Keys(ms) else Keys(ms) + [key]
  {
    if |ms| > 0 && ms[0].key != key {
      PutKeys(ms[1..], key, v);
      var rest := Put(ms[1..], key, v);
      assert ([ms[0]] + rest)[1..] == rest;
      assert Keys([ms[0]] + rest) == [ms[0].key] + Keys(rest);
    } else if |ms| > 0 {
      assert ([Member(key, v)] + ms[1..])[1..] == ms[1..];
    }
  }

  /** `record[field]` for a record that is not `null`: only objects have the
      field names the validators ask for. */
  function Get(v: Json, key: string): Option<Json> {
    if v.JObj? then Lookup(v.members, key) else None
  }

  // ---------------------------------------------------------------------------
  // Number()

  predicate IsDigit(c: char) { '0' <= c <= '9' }

  /** Every character is a decimal digit (vacuously true of the empty string). */
  predicate AllDigits(s: string) {
    |s| == 0 || (IsDigit(s[0]) && AllDigits(s[1..]))
  }

  predicate IsHexDigit(c: char) { IsDigit(c) || 'a' <= c <= 'f' || 'A' <= c <= 'F' }

  /** The position of the first `a` or `b` in `s`, or `|s|` when there is none. */
  function IndexOfEither(s: string, a: char, b: char): (i: nat)
    ensures i <= |s|
  {
    if |s| == 0 || s[0] == a || s[0] == b then 0 else 1 + IndexOfEither(s[1..], a, b)
  }

  /** `digits`, `digits.`, `digits.digits` or `.digits`. */
  predicate IsMantissa(m: string) {
    var d := IndexOfEither(m, '.', '.');
    if d == |m| then |m| > 0 && AllDigits(m)
    else |m| >= 2 && AllDigits(m[..d]) && AllDigits(m[d + 1..])
  }

  /** What may follow `e` or `E`: an optional sign and at least one digit. */
  predicate IsExponent(x: string) {
    if |x| > 0 && (x[0] == '+' || x[0] == '-') then |x| > 1 && AllDigits(x[1..])
    else |x| > 0 && AllDigits(x)
  }

  predicate IsUnsignedDecimal(s: string) {
    s == "Infinity" ||
    var e := IndexOfEither(s, 'e', 'E');
    IsMantissa(s[..e]) && (e == |s| || IsExponent(s[e + 1..]))
  }

  function Unsigned(s: string): string {
    if |s| > 0 && (s[0] == '+' || s[0] == '-') then s[1..] else s
  }

  predicate IsDecimalLiteral(s: string) { IsUnsignedDecimal(Unsigned(s)) }

  /** Every character is a digit of the given base (2, 8 or 16). */
  predicate AllDigitsOfBase(s: string, base: nat) {
    |s| == 0 ||
    ((if base == 16 then IsHexDigit(s[0]) else '0' <= s[0] && (s[0] as int) < '0' as int + base) &&
     AllDigitsOfBase(s[1..], base))
  }

  /** The base a non-decimal prefix letter selects, or 0 for any other character. */
  function BaseOf(c: char): nat {
    if c == 'x' || c == 'X' then 16
    else if c == 'o' || c == 'O' then 8
    else if c == 'b' || c == 'B' then 2
    else 0
  }

  /** `0x…`, `0o…` or `0b…` with at least one digit of the base (no sign allowed). */
  predicate IsNonDecimalInteger(s: string) {
    |s| >= 3 && s[0] == '0' && BaseOf(s[1]) != 0 && AllDigitsOfBase(s[2..], BaseOf(s[1]))
  }

  /** `!isNaN(Number(s))`: after trimming, `s` is empty or a numeric literal. */
  predicate IsNumericText(s: string) {
    var t := Trim(s);
    t == "" || IsDecimalLiteral(t) || IsNonDecimalInteger(t)
  }

  predicate OnlyZerosAndDots(s: string) {
    |s| == 0 || ((s[0] == '0' || s[0] == '.') && OnlyZerosAndDots(s[1..]))
  }

  /** `Number(s) === 0` for a numeric `s`: empty after trimming, or every digit of the
      literal's mantissa is zero. */
  predicate IsZeroText(s: string) {
    var t := Trim(s);
    t == "" ||
    (IsDecimalLiteral(t) && Unsigned(t) != "Infinity" &&
     OnlyZerosAndDots(Unsigned(t)[..IndexOfEither(Unsigned(t), 'e', 'E')])) ||
    (IsNonDecimalInteger(t) && OnlyZerosAndDots(t[2..]))
  }

  // ---------------------------------------------------------------------------
  // Truthiness, toString and Number() on values

  /** JavaScript truthiness of a property value (`None` is `undefined`). */
  predicate Truthy(v: Option<Json>) {
    match v
    case None => false
    case Some(JNull) => false
    case Some(JBool(b)) => b
    case Some(JNum(t)) => !IsZeroText(t)
    case Some(JStr(s)) => s != ""
    case Some(JArr(_)) => true
    case Some(JObj(_)) => true
  }

  /** `v.toString().trim() === ''` for a value other than `null`; an array's string
      is the `,`-join of its elements, with `null` elements rendered as `""`. */
  predicate BlankString(v: Json) {
    match v
    case JNull => true
    case JBool(_) => false
    case JNum(_) => false
    case JStr(s) => Trim(s) == ""
    case JArr(items) => |items| == 0 || (|items| == 1 && BlankString(items[0]))
    case JObj(_) => false
  }

  /** `!record[field] || record[field].toString().trim() === ''`. */
  predicate IsMissing(v: Option<Json>) {
    !Truthy(v) || BlankString(v.value)
  }

  /** `isNaN(Number(v))`. An array converts through its string, so one with two or
      more elements holds a `,` and is NaN; `true` inside an array is the text
      `"true"`, which is NaN. */
  predicate NumberIsNaN(v: Json) {
    match v
    case JNull => false
    case JBool(_) => false
    case JNum(_) => false
    case JStr(s) => !IsNumericText(s)
    case JArr(items) =>
      if |items| == 0 then false
      else if |items| >= 2 then true
      else (items[0].JBool? || NumberIsNaN(items[0]))
    case JObj(_) => true
  }

  lemma {:induction false} AllDigitsIff(s: string)
    ensures AllDigits(s) <==> forall k :: 0 <= k < |s| ==> IsDigit(s[k])
  {
    if |s| > 0 {
      AllDigitsIff(s[1..]);
      assert forall k :: 1 <= k < |s| ==> s[1..][k - 1] == s[k];
    }
  }

  lemma {:induction false} IndexOfEitherSkips(a: string, rest: string, x: char, y: char)
    requires x !in a && y !in a
    ensures IndexOfEither(a + rest, x, y) == |a| + IndexOfEither(rest, x, y)
  {
    if |a| > 0 {
      assert (a + rest)[1..] == a[1..] + rest;
      IndexOfEitherSkips(a[1..], rest, x, y);
    } else {
      assert a + rest == rest;
    }
  }

  /** A run of decimal digits is numeric. */
  lemma DigitsAreNumeric(a: string)
    requires |a| > 0 && AllDigits(a)
    ensures IsNumericText(a)
  {
    AllDigitsIff(a);
    TrimClean(a);
    IndexOfEitherSkips(a, "", 'e', 'E');
    IndexOfEitherSkips(a, "", '.', '.');
    assert a + "" == a;
    assert a[..|a|] == a;
  }

  lemma DecimalMantissa(a: string, b: string)
    requires |a| > 0 && AllDigits(a) && AllDigits(b)
    ensures IsMantissa(a + "." + b)
  {
    var s := a + "." + b;
    AllDigitsIff(a);
    assert s == a + ("." + b);
    IndexOfEitherSkips(a, "." + b, '.', '.');
    assert s[..|a|] == a;
    assert s[|a| + 1..] == b;
  }

  lemma {:induction false} DigitsAvoid(a: string, c: char)
    requires AllDigits(a) && !IsDigit(c)
    ensures c !in a
  {
    if |a| > 0 {
      DigitsAvoid(a[1..], c);
      assert a == [a[0]] + a[1..];
    }
  }

  /** `digits.digits` is numeric. */
  lemma DecimalIsNumeric(a: string, b: string)
    requires |a| > 0 && AllDigits(a) && AllDigits(b)
    ensures IsNumericText(a + "." + b)
  {
    var s := a + "." + b;
    DecimalMantissa(a, b);
    DigitsAvoid(a, 'e');
    DigitsAvoid(a, 'E');
    DigitsAvoid(b, 'e');
    DigitsAvoid(b, 'E');
    assert 'e' !in s && 'E' !in s;
    IndexOfEitherSkips(s, "", 'e', 'E');
    assert s + "" == s;
    assert s[..|s|] == s;
    assert IsDigit(s[0]);
    assert !IsJsSpace(s[|s| - 1]) by {
      if |b| > 0 {
        AllDigitsIff(b);
        assert s[|s| - 1] == b[|b| - 1];
      }
    }
    TrimClean(s);
    assert Unsigned(s) == s;
    assert IsUnsignedDecimal(s);
  }

  /** `s` is digits with a single `.` at position `d`, after at least one digit. */
  predicate PointedAt(s: string, d: int) {
    0 < d < |s| && s[d] == '.' && forall k :: 0 <= k < |s| && k != d ==> IsDigit(s[k])
  }

  /** Digits with one `.` after at least one digit are numeric. */
  lemma PointedIsNumeric(s: string, d: nat)
    requires PointedAt(s, d)
    ensures IsNumericText(s)
  {
    var a := s[..d];
    var b := s[d + 1..];
    AllDigitsIff(a);
    AllDigitsIff(b);
    assert forall k :: 0 <= k < |b| ==> b[k] == s[d + 1 + k];
    DecimalIsNumeric(a, b);
    assert s == a + "." + b;
  }

  /** A trimmed text that starts with anything but `0`, `.` or a sign never reads as
      zero. */
  lemma NotZeroText(t: string)
    requires |t| > 0 && !IsJsSpace(t[0]) && !IsJsSpace(t[|t| - 1])
    requires t[0] != '0' && t[0] != '.' && t[0] != '+' && t[0] != '-'
    ensures !IsZeroText(t)
  {
    TrimClean(t);
  }

  /** A trimmed text with a non-zero leading digit, no `.`, `e` or `E`, and some
      character that is not a digit is not numeric. */
  lemma NotNumericText(t: string, k: nat)
    requires |t| > 0 && !IsJsSpace(t[0]) && !IsJsSpace(t[|t| - 1])
    requires IsDigit(t[0]) && t[0] != '0'
    requires '.' !in t && 'e' !in t && 'E' !in t
    requires k < |t| && !IsDigit(t[k])
    ensures !IsNumericText(t)
  {
    TrimClean(t);
    AllDigitsIff(t);
    IndexOfEitherSkips(t, "", 'e', 'E');
    IndexOfEitherSkips(t, "", '.', '.');
    assert t + "" == t;
    assert t[..|t|] == t;
  }

  /** A string that reads as a number never converts to NaN and is missing only when it
      reads as zero; one that does not read as a number is NaN. */
  lemma StringNumberFacts(s: string)
    ensures NumberIsNaN(JStr(s)) <==> !IsNumericText(s)
    ensures Truthy(Some(JStr(s))) <==> s != ""
  {
  }

  /** A number stored from its literal is falsy exactly when the literal reads as zero,
      so the validators treat a numeric `0` as a missing field. */
  lemma {:induction false} ZeroNumberIsMissing(t: string)
    requires IsZeroText(t)
    ensures IsMissing(Some(JNum(t)))
    ensures !NumberIsNaN(JNum(t))
  {
  }
}
