/** The JavaScript string built-ins the player relies on, stated over
    `seq<char>`: `String.prototype.split` with a one-character separator,
    the `||` fallback on a possibly missing or empty string, `Number.prototype.toString`
    on whole non-negative numbers, `padStart` and an ASCII `toLowerCase`. */
module Strings {
  import opened Types

  // ---------------------------------------------------------------------
  // split

  /** `s.split(sep)` for a one-character separator: the maximal runs of
      characters between separators, in order. An empty string gives one
      empty field, as in JavaScript. */
  function Split(s: string, sep: char): (parts: seq<string>)
    ensures |parts| >= 1
    ensures forall k :: 0 <= k < |parts| ==> sep !in parts[k]
    ensures Join(parts, sep) == s
    decreases |s|
  {
    if s == [] then [[]]
    else
      var rest := Split(s[1..], sep);
      if s[0] == sep then [[]] + rest
      else
        assert Join(rest, sep) == s[1..];
        [[s[0]] + rest[0]] + rest[1..]
  }

  /** The inverse of `Split`: the fields glued back with the separator. */
  function Join(parts: seq<string>, sep: char): string
  {
    if parts == [] then []
    else if |parts| == 1 then parts[0]
    else parts[0] + [sep] + Join(parts[1..], sep)
  }

  /** `s.split(sep)[i]`, which is `undefined` past the last field. */
  function Field(s: string, sep: char, i: nat): (r: Option<string>)
  {
    var parts := Split(s, sep);
    if i < |parts| then Some(parts[i]) else None
  }

  /** The JavaScript `v || fallback` on a string that may be `undefined`: the
      empty string is falsy too. */
  function OrElse(v: Option<string>, fallback: string): (r: string)
    ensures r == fallback || (v == Some(r) && r != [])
    ensures v.Some? && v.value != [] ==> r == v.value
  {
    if v.Some? && v.value != [] then v.value else fallback
  }

  /** Splitting the fields of an already split string gives them back. */
  lemma {:induction false} SplitJoin(parts: seq<string>, sep: char)
    requires |parts| >= 1
    requires forall k :: 0 <= k < |parts| ==> sep !in parts[k]
    ensures Split(Join(parts, sep), sep) == parts
    decreases |parts|, |parts[0]|
  {
    if |parts| == 1 {
      NoSeparatorIsOneField(parts[0], sep);
    } else if parts[0] == [] {
      var tail := parts[1..];
      assert Join(parts, sep) == [sep] + Join(tail, sep);
      SplitJoin(tail, sep);
      assert ([sep] + Join(tail, sep))[1..] == Join(tail, sep);
      assert [[]] + tail == parts;
    } else {
      var c := parts[0][0];
      var shorter := [parts[0][1..]] + parts[1..];
      assert shorter[0] == parts[0][1..] && shorter[1..] == parts[1..];
      assert forall k :: 0 <= k < |shorter| ==> sep !in shorter[k] by {
        forall k | 0 <= k < |shorter| ensures sep !in shorter[k] {
          if k == 0 { assert parts[0] == [c] + parts[0][1..]; } else { assert shorter[k] == parts[k]; }
        }
      }
      SplitJoin(shorter, sep);
      assert Join(parts, sep) == [c] + Join(shorter, sep) by {
        assert parts[0] == [c] + parts[0][1..];
      }
      assert c != sep by { assert c in parts[0]; }
      assert ([c] + Join(shorter, sep))[1..] == Join(shorter, sep);
      assert [[c] + shorter[0]] + shorter[1..] == parts by {
        assert parts[0] == [c] + parts[0][1..];
      }
    }
  }

  /** A string without the separator is a single field. */
  lemma {:induction false} NoSeparatorIsOneField(s: string, sep: char)
    requires sep !in s
    ensures Split(s, sep) == [s]
    decreases |s|
  {
    if s != [] {
      assert sep !in s[1..] by {
        forall k | 0 <= k < |s[1..]| ensures s[1..][k] != sep { assert s[1..][k] == s[k + 1]; }
      }
      NoSeparatorIsOneField(s[1..], sep);
      assert [s[0]] + s[1..] == s;
    }
  }

  /** The fields of `a + sep + t`, when `a` holds no separator, are `a`
      followed by the fields of `t`. */
  lemma FieldsAfterFirstSeparator(a: string, t: string, sep: char)
    requires sep !in a
    ensures Split(a + [sep] + t, sep) == [a] + Split(t, sep)
  {
    var tail := Split(t, sep);
    SplitJoin([a] + tail, sep);
    assert ([a] + tail)[1..] == tail;
  }

  /** A string has a second field exactly when it holds the separator, and that
      field is the text between the first separator and the next one (or the
      end). */
  lemma SecondField(a: string, b: string, rest: string, sep: char)
    requires sep !in a && sep !in b
    requires rest == [] || rest[0] == sep
    ensures Field(a + [sep] + b + rest, sep, 1) == Some(b)
  {
    assert a + [sep] + b + rest == a + [sep] + (b + rest);
    FieldsAfterFirstSeparator(a, b + rest, sep);
    if rest == [] {
      assert b + rest == b;
      NoSeparatorIsOneField(b, sep);
    } else {
      assert b + rest == b + [sep] + rest[1..];
      FieldsAfterFirstSeparator(b, rest[1..], sep);
    }
  }

  lemma NoSecondField(s: string, sep: char)
    ensures Field(s, sep, 1) == None <==> sep !in s
  {
    if sep !in s {
      NoSeparatorIsOneField(s, sep);
    } else {
      var j := FirstIndex(s, sep);
      assert s == s[..j] + [sep] + s[j + 1..];
      FieldsAfterFirstSeparator(s[..j], s[j + 1..], sep);
    }
  }

  /** The position of the first occurrence of `c` in `s`. */
  function FirstIndex(s: string, c: char): (i: nat)
    requires c in s
    ensures i < |s| && s[i] == c && c !in s[..i]
  {
    if s[0] == c then 0
    else
      assert c in s[1..] by { assert s == [s[0]] + s[1..]; }
      var j := FirstIndex(s[1..], c);
      assert s[..j + 1] == [s[0]] + s[1..][..j];
      j + 1
  }

  // ---------------------------------------------------------------------
  // Decimal numerals

  predicate IsDigit(c: char) { '0' <= c <= '9' }

  predicate AllDigits(s: string) { forall k :: 0 <= k < |s| ==> IsDigit(s[k]) }

  function DigitChar(d: nat): (c: char)
    requires d < 10
    ensures IsDigit(c) && DigitValue(c) == d
  {
    ['0', '1', '2', '3', '4', '5', '6', '7', '8', '9'][d]
  }

  function DigitValue(c: char): nat
    requires IsDigit(c)
  {
    (c as int - '0' as int) as nat
  }

  /** The value a numeral denotes; leading zeros are allowed. */
  function NumberValue(s: string): nat
    requires AllDigits(s)
  {
    if s == [] then 0 else NumberValue(s[..|s| - 1]) * 10 + DigitValue(s[|s| - 1])
  }

  /** `n.toString()` for a whole number `n >= 0`: the shortest decimal
      numeral, without leading zeros. */
  function Digits(n: nat): (s: string)
    ensures |s| >= 1 && AllDigits(s)
    ensures s[0] == '0' ==> n == 0
    ensures NumberValue(s) == n
  {
    if n < 10 then [DigitChar(n)]
    else
      var s := Digits(n / 10) + [DigitChar(n % 10)];
      assert s[..|s| - 1] == Digits(n / 10);
      s
  }

  lemma {:induction false} DigitsLength(n: nat)
    ensures n < 10 <==> |Digits(n)| == 1
    ensures 10 <= n < 100 <==> |Digits(n)| == 2
    ensures |Digits(n)| <= 2 <==> n < 100
  {
    if n >= 10 {
      DigitsLength(n / 10);
    }
  }

  /** `s.padStart(width, c)` with a one-character filler. */
  function PadStart(s: string, width: nat, c: char): (r: string)
    ensures |r| == if |s| < width then width else |s|
    ensures r[|r| - |s|..] == s
    ensures forall k :: 0 <= k < |r| - |s| ==> r[k] == c
  {
    if |s| < width then Repeat(c, width - |s|) + s else s
  }

  function Repeat(c: char, n: nat): (r: string)
    ensures |r| == n && forall k :: 0 <= k < n ==> r[k] == c
  {
    seq(n, _ => c)
  }

  /** Zeros in front of a numeral do not change its value. */
  lemma {:induction false} LeadingZeros(z: nat, s: string)
    requires AllDigits(s)
    ensures AllDigits(Repeat('0', z) + s)
    ensures NumberValue(Repeat('0', z) + s) == NumberValue(s)
    decreases |s|
  {
    var t := Repeat('0', z) + s;
    assert AllDigits(t) by {
      forall k | 0 <= k < |t| ensures IsDigit(t[k]) {
        if k >= z { assert t[k] == s[k - z]; }
      }
    }
    if s == [] {
      assert t == Repeat('0', z);
      AllZeros(z);
    } else {
      var init := s[..|s| - 1];
      assert AllDigits(init) by {
        forall k | 0 <= k < |init| ensures IsDigit(init[k]) { assert init[k] == s[k]; }
      }
      LeadingZeros(z, init);
      assert t[..|t| - 1] == Repeat('0', z) + init;
      assert t[|t| - 1] == s[|s| - 1];
    }
  }

  lemma {:induction false} AllZeros(z: nat)
    ensures AllDigits(Repeat('0', z)) && NumberValue(Repeat('0', z)) == 0
  {
    if z > 0 {
      AllZeros(z - 1);
      assert Repeat('0', z)[..z - 1] == Repeat('0', z - 1);
    }
  }

  /** Padding a numeral with zeros keeps its digits and its value. */
  lemma ZeroPadded(s: string, width: nat)
    requires AllDigits(s)
    ensures AllDigits(PadStart(s, width, '0'))
    ensures NumberValue(PadStart(s, width, '0')) == NumberValue(s)
  {
    if |s| < width {
      LeadingZeros(width - |s|, s);
    }
  }

  // ---------------------------------------------------------------------
  // toLowerCase

  /** Lower-cases the ASCII letters and keeps every other character. */
  function LowerChar(c: char): (r: char)
    ensures 'A' <= c <= 'Z' ==> r as int == c as int + 32
    ensures !('A' <= c <= 'Z') ==> r == c
    ensures !('A' <= r <= 'Z')
  {
    if 'A' <= c <= 'Z' then (c as int + 32) as char else c
  }

  function Lower(s: string): (r: string)
    ensures |r| == |s| && forall k :: 0 <= k < |s| ==> r[k] == LowerChar(s[k])
  {
    seq(|s|, k requires 0 <= k < |s| => LowerChar(s[k]))
  }

  lemma LowerIdempotent(s: string)
    ensures Lower(Lower(s)) == Lower(s)
  {
  }
}
