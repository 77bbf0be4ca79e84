/**
 * Request values and what Mongoose does to them before a schema path stores
 * them: the `trim: true` setter (JavaScript's `String.prototype.trim`), the
 * String cast and the Date cast. Timestamps are integer milliseconds.
 */
module SchemaTypes {
  import opened Wrappers

  /** A document identifier (the hex form of a MongoDB ObjectID). */
  type Id = string

  /** A scalar of a parsed JSON request body; numbers are integral. */
  datatype Value = Null | Bool(b: bool) | Num(n: int) | Str(s: string)

  /** A parsed JSON request body: the keys it has, with their values. */
  type Body = map<string, Value>

  /** The value of `body[key]`, None when the key is absent (`undefined`). */
  function Field(body: Body, key: string): (r: Option<Value>)
    ensures r.Some? <==> key in body
    ensures r.Some? ==> r.value == body[key]
  {
    if key in body then Some(body[key]) else None
  }

  /** Lodash `_.pick`: the body restricted to the listed keys. */
  function Pick(body: Body, keys: set<string>): (r: Body)
    ensures r.Keys == body.Keys * keys
    ensures forall k :: k in r ==> r[k] == body[k]
  {
    map k | k in body && k in keys :: body[k]
  }

  /**
   * The characters `String.prototype.trim` removes, by code point: the
   * WhiteSpace and LineTerminator characters of ECMAScript.
   */
  predicate IsWhitespace(c: char)
  {
    var n := c as int;
    || (9 <= n <= 13) || n == 0x20 || n == 0xA0 || n == 0x1680 || (0x2000 <= n <= 0x200A)
    || n == 0x2028 || n == 0x2029 || n == 0x202F || n == 0x205F || n == 0x3000 || n == 0xFEFF
  }

  /** A string with no whitespace at either end. */
  predicate Trimmed(s: string)
  {
    s == [] || (!IsWhitespace(s[0]) && !IsWhitespace(s[|s| - 1]))
  }

  /** Drops the leading whitespace: what is left is a suffix that starts with a non-space. */
  function TrimStart(s: string): (r: string)
    ensures |r| <= |s| && r == s[|s| - |r|..]
    ensures r == [] || !IsWhitespace(r[0])
    ensures forall i :: 0 <= i < |s| - |r| ==> IsWhitespace(s[i])
  {
    if s != [] && IsWhitespace(s[0]) then TrimStart(s[1..]) else s
  }

  /** Drops the trailing whitespace: what is left is a prefix that ends with a non-space. */
  function TrimEnd(s: string): (r: string)
    ensures |r| <= |s| && r == s[..|r|]
    ensures r == [] || !IsWhitespace(r[|r| - 1])
    ensures forall i :: |r| <= i < |s| ==> IsWhitespace(s[i])
  {
    if s != [] && IsWhitespace(s[|s| - 1]) then TrimEnd(s[..|s| - 1]) else s
  }

  /** `String.prototype.trim`, the setter behind a schema path's `trim: true`. */
  function Trim(s: string): (r: string)
    ensures Trimmed(r)
    ensures |r| <= |s|
  {
    TrimEnd(TrimStart(s))
  }

  /** A string of whitespace only trims to nothing. */
  lemma {:induction false} TrimStartAllWhitespace(s: string)
    requires forall k :: 0 <= k < |s| ==> IsWhitespace(s[k])
    ensures TrimStart(s) == []
  {
    if s != [] {
      TrimStartAllWhitespace(s[1..]);
    }
  }

  /** Leading whitespace up to the first non-space at `i` is what TrimStart drops. */
  lemma {:induction false} TrimStartDrops(s: string, i: nat)
    requires i < |s| && !IsWhitespace(s[i])
    requires forall k :: 0 <= k < i ==> IsWhitespace(s[k])
    ensures TrimStart(s) == s[i..]
  {
    if i > 0 {
      TrimStartDrops(s[1..], i - 1);
      assert s[1..][i - 1..] == s[i..];
    }
  }

  /** Trailing whitespace after the last non-space at `j - 1` is what TrimEnd drops. */
  lemma {:induction false} TrimEndDrops(s: string, j: nat)
    requires 0 < j <= |s| && !IsWhitespace(s[j - 1])
    requires forall k :: j <= k < |s| ==> IsWhitespace(s[k])
    ensures TrimEnd(s) == s[..j]
  {
    if j < |s| {
      TrimEndDrops(s[..|s| - 1], j);
      assert s[..|s| - 1][..j] == s[..j];
    }
  }

  lemma SuffixPrefix(s: string, i: int, j: int)
    requires 0 <= i <= j <= |s|
    ensures s[i..][..j - i] == s[i..j]
  {
  }

  /** A string of whitespace only around an empty core trims to nothing. */
  lemma TrimKeepsEmptyCore(s: string, i: int)
    requires 0 <= i <= |s|
    requires forall k :: 0 <= k < i ==> IsWhitespace(s[k])
    requires forall k :: i <= k < |s| ==> IsWhitespace(s[k])
    ensures Trim(s) == []
  {
    forall k | 0 <= k < |s| ensures IsWhitespace(s[k]) {
      if k < i { } else { }
    }
    TrimStartAllWhitespace(s);
  }

  /** A non-empty core with only whitespace around it is what trimming keeps. */
  lemma TrimKeepsNonEmptyCore(s: string, i: int, j: int)
    requires 0 <= i < j <= |s|
    requires forall k :: 0 <= k < i ==> IsWhitespace(s[k])
    requires forall k :: j <= k < |s| ==> IsWhitespace(s[k])
    requires !IsWhitespace(s[i]) && !IsWhitespace(s[j - 1])
    ensures Trim(s) == s[i..j]
  {
    TrimStartDrops(s, i);
    TrimEndOfSuffix(s, i, j);
  }

  /** Trimming the end of the suffix from `i` keeps it up to `j`. */
  lemma TrimEndOfSuffix(s: string, i: int, j: int)
    requires 0 <= i < j <= |s|
    requires forall k :: j <= k < |s| ==> IsWhitespace(s[k])
    requires !IsWhitespace(s[j - 1])
    ensures TrimEnd(s[i..]) == s[i..j]
  {
    var rest := s[i..];
    assert rest[j - i - 1] == s[j - 1];
    forall k | j - i <= k < |rest| ensures IsWhitespace(rest[k]) {
      assert rest[k] == s[i + k];
    }
    TrimEndDrops(rest, j - i);
    SuffixPrefix(s, i, j);
  }

  /**
   * Trimming keeps the core of the string: the part that has no surrounding
   * whitespace and has only whitespace around it.
   */
  lemma TrimKeepsCore(s: string, i: int, j: int)
    requires 0 <= i <= j <= |s|
    requires forall k :: 0 <= k < i ==> IsWhitespace(s[k])
    requires forall k :: j <= k < |s| ==> IsWhitespace(s[k])
    requires Trimmed(s[i..j])
    ensures Trim(s) == s[i..j]
  {
    if i == j {
      TrimKeepsEmptyCore(s, i);
    } else {
      assert s[i] == s[i..j][0] && s[j - 1] == s[i..j][j - i - 1];
      TrimKeepsNonEmptyCore(s, i, j);
    }
  }

  /** A string is left as it is by trimming exactly when it has no surrounding whitespace. */
  lemma TrimFixedPoints(s: string)
    ensures Trim(s) == s <==> Trimmed(s)
  {
    if Trimmed(s) {
      assert TrimStart(s) == s;
      assert TrimEnd(s) == s;
    }
  }

  /** Trimming twice is trimming once. */
  lemma TrimIdempotent(s: string)
    ensures Trim(Trim(s)) == Trim(s)
  {
    TrimFixedPoints(Trim(s));
  }

  /** The decimal digit for 0 to 9. */
  function DigitChar(d: int): (c: char)
    requires 0 <= d < 10
    ensures '0' <= c <= '9'
    ensures c as int - '0' as int == d
  {
    "0123456789"[d]
  }

  /** The number a string of decimal digits denotes. */
  function DecimalValue(s: string): nat
    requires forall i :: 0 <= i < |s| ==> '0' <= s[i] <= '9'
  {
    if s == [] then 0 else DecimalValue(s[..|s| - 1]) * 10 + (s[|s| - 1] as int - '0' as int)
  }

  /** JavaScript's `String(n)` for a non-negative integer: its decimal digits, with no leading zero. */
  function NatToString(n: nat): (r: string)
    ensures r != []
    ensures forall i :: 0 <= i < |r| ==> '0' <= r[i] <= '9'
    ensures r[0] == '0' <==> n == 0
  {
    if n < 10 then [DigitChar(n)] else NatToString(n / 10) + [DigitChar(n % 10)]
  }

  /** The digits NatToString writes denote the number it was given. */
  lemma {:induction false} NatToStringValue(n: nat)
    ensures DecimalValue(NatToString(n)) == n
  {
    if n >= 10 {
      NatToStringValue(n / 10);
      var r := NatToString(n);
      assert r[..|r| - 1] == NatToString(n / 10);
    }
  }

  /** JavaScript's `String(n)` for an integer: a minus sign exactly for a negative number, then digits. */
  function IntToString(n: int): (r: string)
    ensures r != [] && Trimmed(r)
    ensures r[0] == '-' <==> n < 0
    ensures forall i :: 1 <= i < |r| ==> '0' <= r[i] <= '9'
    ensures n >= 0 ==> '0' <= r[0] <= '9'
  {
    if n < 0 then "-" + NatToString(-n) else NatToString(n)
  }

  /** The text IntToString writes reads back as the number it was given, sign included. */
  lemma IntToStringValue(n: int)
    ensures var r := IntToString(n);
      if n < 0 then DecimalValue(r[1..]) == -n else DecimalValue(r) == n
  {
    NatToStringValue(if n < 0 then -n else n);
    if n < 0 {
      assert IntToString(n)[1..] == NatToString(-n);
    }
  }

  /**
   * What a String schema path holds for a request value: nothing for `null`,
   * numbers and booleans in their JavaScript string form, and strings
   * trimmed when the path declares `trim: true`.
   */
  function CastString(v: Value, trim: bool): (r: Option<string>)
    ensures r.None? <==> v.Null?
    ensures v.Bool? ==> r == Some(if v.b then "true" else "false")
    ensures v.Num? ==> r == Some(IntToString(v.n))
    ensures v.Str? ==> r == Some(if trim then Trim(v.s) else v.s)
    ensures trim && r.Some? ==> Trimmed(r.value)
  {
    match v
    case Null => None
    case Bool(b) => Some(if b then "true" else "false")
    case Num(n) => Some(IntToString(n))
    case Str(s) => Some(if trim then Trim(s) else s)
  }

  /** The UTF-16 code units a character takes: two outside the Basic Multilingual Plane. */
  function CodeUnits(c: char): (n: nat)
    ensures n == 1 <==> c as int < 0x10000
    ensures n == 1 || n == 2
  {
    if c as int < 0x10000 then 1 else 2
  }

  /**
   * JavaScript's `length` of a string, the measure `minlength` checks:
   * the number of UTF-16 code units.
   */
  function Utf16Length(s: string): (n: nat)
    ensures |s| <= n <= 2 * |s|
    ensures n == 0 <==> s == []
  {
    if s == [] then 0 else Utf16Length(s[..|s| - 1]) + CodeUnits(s[|s| - 1])
  }

  /** The length of a concatenation is the sum of the lengths. */
  lemma {:induction false} Utf16LengthConcat(s: string, t: string)
    ensures Utf16Length(s + t) == Utf16Length(s) + Utf16Length(t)
  {
    if t != [] {
      Utf16LengthConcat(s, t[..|t| - 1]);
      assert (s + t)[..|s + t| - 1] == s + t[..|t| - 1];
    } else {
      assert s + t == s;
    }
  }

  /** The length equals the number of characters exactly when every character is in the Basic Multilingual Plane. */
  lemma {:induction false} Utf16LengthBmp(s: string)
    ensures Utf16Length(s) == |s| <==> forall i :: 0 <= i < |s| ==> s[i] as int < 0x10000
  {
    if s != [] {
      var p := s[..|s| - 1];
      Utf16LengthBmp(p);
      assert forall i :: 0 <= i < |p| ==> p[i] == s[i];
    }
  }

  /** The largest distance from the epoch, in milliseconds, that a JavaScript Date can hold. */
  const MaxTime := 8_640_000_000_000_000

  /** A timestamp a JavaScript Date can represent (otherwise the Date is invalid). */
  predicate DateInRange(n: int)
  {
    -MaxTime <= n <= MaxTime
  }

  /**
   * What a Date schema path holds for a request value: `null` and `""` give
   * no date, a number in range gives that timestamp; a boolean, an
   * out-of-range number and any other string are rejected here.
   */
  function CastDate(v: Value): (r: Result<Option<int>, ()>)
    ensures r == Ok(None) <==> v.Null? || v == Str("")
    ensures r.Ok? && r.value.Some? <==> v.Num? && DateInRange(v.n)
    ensures r.Ok? && r.value.Some? ==> r.value.value == v.n
  {
    match v
    case Null => Ok(None)
    case Str(s) => if s == "" then Ok(None) else Err(())
    case Num(n) => if DateInRange(n) then Ok(Some(n)) else Err(())
    case Bool(_) => Err(())
  }
}
