/**
 * The parts of Python's runtime that the league engine relies on: decoded JSON
 * values, truthiness and `a or b`, `str.strip`, `str.lower`, `str(int)`,
 * `int(...)` and the digit filters used by the adapters.
 */
module PyBuiltins {

  datatype Option<+T> = None | Some(value: T)

  /** The exception classes the modelled code raises or catches. */
  datatype Exception = ValueError | TypeError | AttributeError | RuntimeError

  /** A Python computation that returns a value or raises. */
  datatype Result<+T> = Ok(value: T) | Raise(error: Exception)

  /** Running two list-building steps one after the other: the first exception propagates. */
  function Then<T>(a: Result<seq<T>>, b: Result<seq<T>>): (r: Result<seq<T>>)
    ensures a.Raise? ==> r == a
    ensures a.Ok? && b.Raise? ==> r == b
    ensures a.Ok? && b.Ok? ==> r == Ok(a.value + b.value)
  {
    match a
    case Raise(e) => Raise(e)
    case Ok(x) => (match b case Raise(e) => Raise(e) case Ok(y) => Ok(x + y))
  }

  /** Removing the last element of `a` and an equal element of its permutation `b` keeps them permutations. */
  lemma MultisetRemoveLast<T>(a: seq<T>, b: seq<T>, j: nat)
    requires multiset(a) == multiset(b) && a != [] && j < |b| && b[j] == a[|a| - 1]
    ensures multiset(a[..|a| - 1]) == multiset(b[..j] + b[j + 1..])
  {
    var x := b[j];
    var init := a[..|a| - 1];
    var rest := b[..j] + b[j + 1..];
    assert a == init + [x];
    assert b == b[..j] + [x] + b[j + 1..];
    calc {
      multiset(init) + multiset{x};
      multiset(a);
      multiset(b);
      multiset(b[..j] + [x] + b[j + 1..]);
      multiset(b[..j]) + multiset{x} + multiset(b[j + 1..]);
      multiset(rest) + multiset{x};
    }
    assert multiset(init) == multiset(init) + multiset{x} - multiset{x};
    assert multiset(rest) == multiset(rest) + multiset{x} - multiset{x};
  }

  /**
   * A value as `json.load` hands it over. A JSON number with a fraction or an
   * exponent is `JFloat`: `value` is the number and `text` is what Python's
   * `str()` prints for it. Objects are maps: the code only looks keys up.
   */
  datatype Json =
    | JNull
    | JBool(b: bool)
    | JInt(i: int)
    | JFloat(value: real, text: string)
    | JStr(s: string)
    | JList(items: seq<Json>)
    | JObject(fields: map<string, Json>)

  /** `d.get(key)`: the value stored under `key`, or None. */
  function Get(fields: map<string, Json>, key: string): (r: Json)
    ensures key !in fields ==> r == JNull
  {
    if key in fields then fields[key] else JNull
  }

  /** Python's `bool(x)` on a decoded value. */
  predicate Truthy(j: Json)
  {
    match j
    case JNull => false
    case JBool(b) => b
    case JInt(i) => i != 0
    case JFloat(v, _) => v != 0.0
    case JStr(s) => s != ""
    case JList(xs) => xs != []
    case JObject(f) => f != map[]
  }

  /** Python's `a or b`: `a` when it is truthy, else `b`. */
  function Or(a: Json, b: Json): (r: Json)
    ensures Truthy(r) <==> Truthy(a) || Truthy(b)
    ensures Truthy(a) ==> r == a
  {
    if Truthy(a) then a else b
  }

  /** `isinstance(x, dict)` */
  predicate IsDict(j: Json) { j.JObject? }

  /** `isinstance(x, int)`: a bool is an int in Python. */
  predicate IsInt(j: Json) { j.JInt? || j.JBool? }

  /** The int an `isinstance(x, int)` value stands for (True is 1). */
  function IntOf(j: Json): int
    requires IsInt(j)
  {
    if j.JInt? then j.i else if j.b then 1 else 0
  }

  // ---------------------------------------------------------------------------
  // Characters and strings

  /** `c.isspace()`: the characters Python's `str.strip()` and `\s` treat as white space. */
  predicate IsSpace(c: char)
  {
    var n := c as int;
    (9 <= n <= 13) || (28 <= n <= 32) || n == 0x85 || n == 0xA0 || n == 0x1680 ||
    (0x2000 <= n <= 0x200A) || n == 0x2028 || n == 0x2029 || n == 0x202F ||
    n == 0x205F || n == 0x3000
  }

  predicate IsDigit(c: char) { '0' <= c <= '9' }

  predicate AllDigits(s: string) { forall k :: 0 <= k < |s| ==> IsDigit(s[k]) }

  /** Drops the leading white space of `s`. */
  function TrimStart(s: string): (r: string)
  {
    if s != [] && IsSpace(s[0]) then TrimStart(s[1..]) else s
  }

  /** Drops the trailing white space of `s`. */
  function TrimEnd(s: string): (r: string)
  {
    if s != [] && IsSpace(s[|s| - 1]) then TrimEnd(s[..|s| - 1]) else s
  }

  /** `s.strip()` */
  function Strip(s: string): (r: string)
  {
    TrimEnd(TrimStart(s))
  }

  /** `TrimStart` keeps a suffix that does not start with white space, and removes only white space. */
  lemma {:induction false} TrimStartSpec(s: string)
    ensures |TrimStart(s)| <= |s| && TrimStart(s) == s[|s| - |TrimStart(s)|..]
    ensures TrimStart(s) == [] || !IsSpace(TrimStart(s)[0])
    ensures forall k :: 0 <= k < |s| - |TrimStart(s)| ==> IsSpace(s[k])
  {
    if s != [] && IsSpace(s[0]) {
      TrimStartSpec(s[1..]);
      var r := TrimStart(s[1..]);
      forall k | 0 <= k < |s| - |r|
        ensures IsSpace(s[k])
      {
        if k > 0 {
          assert s[k] == s[1..][k - 1];
        }
      }
    }
  }

  /** `TrimEnd` keeps a prefix that does not end with white space, and removes only white space. */
  lemma {:induction false} TrimEndSpec(s: string)
    ensures |TrimEnd(s)| <= |s| && TrimEnd(s) == s[..|TrimEnd(s)|]
    ensures TrimEnd(s) == [] || !IsSpace(TrimEnd(s)[|TrimEnd(s)| - 1])
    ensures forall k :: |TrimEnd(s)| <= k < |s| ==> IsSpace(s[k])
  {
    if s != [] && IsSpace(s[|s| - 1]) {
      TrimEndSpec(s[..|s| - 1]);
      var r := TrimEnd(s[..|s| - 1]);
      forall k | |r| <= k < |s|
        ensures IsSpace(s[k])
      {
        if k < |s| - 1 {
          assert s[k] == s[..|s| - 1][k];
        }
      }
    }
  }

  /** `s.strip()` keeps the contiguous part of `s` that starts at `StripOffset(s)`, and removes only white space around it. */
  function StripOffset(s: string): nat
  {
    TrimStartSpec(s);
    |s| - |TrimStart(s)|
  }

  lemma StripIsSlice(s: string)
    ensures StripOffset(s) + |Strip(s)| <= |s|
    ensures Strip(s) == s[StripOffset(s)..StripOffset(s) + |Strip(s)|]
  {
    var t := TrimStart(s);
    TrimStartSpec(s);
    TrimEndSpec(t);
    var i := |s| - |t|;
    assert t == s[i..];
    assert Strip(s) == t[..|Strip(s)|];
  }

  /** Everything `s.strip()` removes is white space. */
  lemma StripRemovesOnlySpace(s: string)
    ensures StripOffset(s) + |Strip(s)| <= |s|
    ensures forall k :: 0 <= k < StripOffset(s) ==> IsSpace(s[k])
    ensures forall k :: StripOffset(s) + |Strip(s)| <= k < |s| ==> IsSpace(s[k])
  {
    var t := TrimStart(s);
    TrimStartSpec(s);
    TrimEndSpec(t);
    var i := |s| - |t|;
    var n := |Strip(s)|;
    forall k | i + n <= k < |s| ensures IsSpace(s[k]) {
      assert t == s[i..];
      assert s[k] == t[k - i];
    }
  }

  /** `s.strip()` neither starts nor ends with white space. */
  lemma StripEnds(s: string)
    ensures Strip(s) == [] || (!IsSpace(Strip(s)[0]) && !IsSpace(Strip(s)[|Strip(s)| - 1]))
  {
    var t := TrimStart(s);
    TrimStartSpec(s);
    TrimEndSpec(t);
    var r := Strip(s);
    if r != [] {
      assert r == t[..|r|];
      assert r[0] == t[0];
    }
  }

  /** A string without white space at either end is its own `strip()`. */
  lemma StripNoSpace(s: string)
    requires s == [] || (!IsSpace(s[0]) && !IsSpace(s[|s| - 1]))
    ensures Strip(s) == s
  {
  }

  function LowerChar(c: char): char
  {
    if 'A' <= c <= 'Z' then (c as int + 32) as char else c
  }

  /** `s.lower()` on ASCII letters; every other character is kept. */
  function Lower(s: string): (r: string)
    ensures |r| == |s|
    ensures forall k :: 0 <= k < |s| ==> r[k] == LowerChar(s[k])
  {
    if s == [] then [] else [LowerChar(s[0])] + Lower(s[1..])
  }

  /** `"".join(c for c in s if c in "0123456789-")` */
  function KeepDigitsAndMinus(s: string): (r: string)
    ensures |r| <= |s|
    ensures forall k :: 0 <= k < |r| ==> IsDigit(r[k]) || r[k] == '-'
  {
    if s == [] then []
    else (if IsDigit(s[0]) || s[0] == '-' then [s[0]] else []) + KeepDigitsAndMinus(s[1..])
  }

  // ---------------------------------------------------------------------------
  // Decimal text

  function DigitChar(d: nat): char
    requires d < 10
  {
    ('0' as int + d) as char
  }

  function DigitValue(c: char): nat
    requires IsDigit(c)
  {
    c as int - '0' as int
  }

  /** The number a string of decimal digits spells, most significant first. */
  function DecimalValue(s: string): nat
    requires AllDigits(s)
  {
    if s == [] then 0 else DecimalValue(s[..|s| - 1]) * 10 + DigitValue(s[|s| - 1])
  }

  /** `str(n)` for a natural number: no sign, no leading zero. */
  function NatToDecimal(n: nat): (r: string)
    ensures r != [] && AllDigits(r)
    ensures (r[0] == '0') ==> n == 0
  {
    if n < 10 then [DigitChar(n)] else NatToDecimal(n / 10) + [DigitChar(n % 10)]
  }

  /** `str(i)` for any int. */
  function IntToDecimal(i: int): (r: string)
  {
    if i < 0 then "-" + NatToDecimal(-i) else NatToDecimal(i)
  }

  lemma {:induction false} DecimalRoundTrip(n: nat)
    ensures DecimalValue(NatToDecimal(n)) == n
  {
    if n >= 10 {
      var p := NatToDecimal(n / 10);
      var s := p + [DigitChar(n % 10)];
      assert s[..|s| - 1] == p;
      DecimalRoundTrip(n / 10);
    }
  }

  // ---------------------------------------------------------------------------
  // Python's int()

  /** Digits with single underscores between them, as Python's `int("1_000")` accepts. */
  predicate IsDigitGroups(s: string)
  {
    && s != []
    && IsDigit(s[0]) && IsDigit(s[|s| - 1])
    && (forall k :: 0 <= k < |s| ==> IsDigit(s[k]) || s[k] == '_')
    && (forall k :: 0 <= k < |s| - 1 ==> !(s[k] == '_' && s[k + 1] == '_'))
  }

  function RemoveUnderscores(s: string): (r: string)
    requires forall k :: 0 <= k < |s| ==> IsDigit(s[k]) || s[k] == '_'
    ensures AllDigits(r)
    ensures AllDigits(s) ==> r == s
  {
    if s == [] then [] else (if s[0] == '_' then [] else [s[0]]) + RemoveUnderscores(s[1..])
  }

  /** `int(s)` for a str `s`: None where Python raises ValueError. */
  function IntFromText(s: string): (r: Option<int>)
  {
    SignedDigitGroups(Strip(s))
  }

  /** An optional sign followed by digit groups, the text `int()` accepts once stripped. */
  function SignedDigitGroups(t: string): (r: Option<int>)
  {
    if t == [] then None
    else
      var body := if t[0] == '-' || t[0] == '+' then t[1..] else t;
      if IsDigitGroups(body) then Some(Signed(DecimalValue(RemoveUnderscores(body)), t[0] == '-'))
      else None
  }

  function Signed(v: nat, neg: bool): int { if neg then -(v as int) else v as int }

  /** Digits with no underscore form one digit group. */
  lemma DigitsAreGroups(d: string)
    requires d != [] && AllDigits(d)
    ensures IsDigitGroups(d) && RemoveUnderscores(d) == d
  {
  }

  /** A run of digits, with or without a leading minus, reads as Python's `int()` reads it. */
  lemma IntFromSignedDigits(d: string, neg: bool)
    requires d != [] && AllDigits(d)
    ensures IntFromText(if neg then "-" + d else d) == Some(Signed(DecimalValue(d), neg))
  {
    var s := if neg then "-" + d else d;
    assert s[|s| - 1] == d[|d| - 1];
    assert !IsSpace(s[0]) && !IsSpace(s[|s| - 1]);
    StripNoSpace(s);
    DigitsAreGroups(d);
    if neg {
      assert s[1..] == d;
    }
    assert SignedDigitGroups(s) == Some(Signed(DecimalValue(d), neg));
  }

  /** `int(str(i)) == i`: the decimal text of an int reads back as that int. */
  lemma IntTextRoundTrip(i: int)
    ensures IntFromText(IntToDecimal(i)) == Some(i)
  {
    var n: nat := if i < 0 then -i else i;
    DecimalRoundTrip(n);
    IntFromSignedDigits(NatToDecimal(n), i < 0);
  }

  /** A leading minus at most, then at least one digit: the digit-and-minus texts `int()` accepts. */
  predicate IsSignedDigits(s: string)
  {
    if s != [] && s[0] == '-' then s[1..] != [] && AllDigits(s[1..]) else s != [] && AllDigits(s)
  }

  function SignedDigitsValue(s: string): int
    requires IsSignedDigits(s)
  {
    if s[0] == '-' then -(DecimalValue(s[1..]) as int) else DecimalValue(s)
  }

  /** On a text of digits and minus signs, `int()` succeeds exactly on the signed-digit texts. */
  lemma IntFromDigitsAndMinus(s: string)
    requires forall k :: 0 <= k < |s| ==> IsDigit(s[k]) || s[k] == '-'
    ensures IntFromText(s) == if IsSignedDigits(s) then Some(SignedDigitsValue(s)) else None
  {
    if s != [] {
      assert !IsSpace(s[0]) && !IsSpace(s[|s| - 1]);
      StripNoSpace(s);
      var body := if s[0] == '-' then s[1..] else s;
      assert forall k :: 0 <= k < |body| ==> IsDigit(body[k]) || body[k] == '-' by {
        if s[0] == '-' {
          assert forall k :: 0 <= k < |body| ==> body[k] == s[k + 1];
        }
      }
      DigitsOrMinusGroups(body);
    }
  }

  /** Among digit-and-minus texts, the digit groups are the non-empty digit runs. */
  lemma DigitsOrMinusGroups(body: string)
    requires forall k :: 0 <= k < |body| ==> IsDigit(body[k]) || body[k] == '-'
    ensures IsDigitGroups(body) <==> body != [] && AllDigits(body)
    ensures body != [] && AllDigits(body) ==> RemoveUnderscores(body) == body
  {
    if IsDigitGroups(body) {
      assert forall k :: 0 <= k < |body| ==> IsDigit(body[k]);
    }
    if body != [] && AllDigits(body) {
      DigitsAreGroups(body);
    }
  }

  /** Python's `int(x)` applied to a decoded value. */
  function PyInt(j: Json): (r: Result<int>)
    ensures IsInt(j) ==> r == Ok(IntOf(j))
    ensures j.JNull? || j.JList? || j.JObject? ==> r == Raise(TypeError)
  {
    match j
    case JInt(i) => Ok(i)
    case JBool(b) => Ok(if b then 1 else 0)
    case JFloat(v, _) => Ok(if v >= 0.0 then v.Floor else -((-v).Floor))
    case JStr(s) =>
      (match IntFromText(s)
       case Some(i) => Ok(i)
       case None => Raise(ValueError))
    case _ => Raise(TypeError)
  }

  /** Python's `str(x)` for a scalar; None for a list or an object. */
  function StrOfScalar(j: Json): (r: Option<string>)
    ensures r.None? <==> j.JList? || j.JObject?
  {
    match j
    case JNull => Some("None")
    case JBool(b) => Some(if b then "True" else "False")
    case JInt(i) => Some(IntToDecimal(i))
    case JFloat(_, text) => Some(text)
    case JStr(s) => Some(s)
    case _ => None
  }

  /** A set that is not empty has an element. */
  lemma NonEmptyHas(s: set<int>) returns (w: int)
    requires s != {}
    ensures w in s
  {
    assert (forall x :: x !in s) ==> s == {};
    w :| w in s;
  }
}
