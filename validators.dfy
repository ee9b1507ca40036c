/**
 * The two string checks that guard the configuration: `is_hostname`, which
 * splits on '.' and asks for a third piece, and `is_int`, which asks whether
 * Python's `int()` accepts the string.
 */
module Validators {

  import opened Wrappers

  // ---------------------------------------------------------------------
  // str.split with a one-character separator, and its inverse str.join
  // ---------------------------------------------------------------------

  /** `s.split(sep)`: the pieces between separators, empty pieces included. */
  function Split(s: string, sep: char): (parts: seq<string>)
    ensures |parts| >= 1
    ensures forall i :: 0 <= i < |parts| ==> sep !in parts[i]
  {
    if s == [] then [[]]
    else
      var rest := Split(s[1..], sep);
      if s[0] == sep then [[]] + rest
      else [[s[0]] + rest[0]] + rest[1..]
  }

  /** `sep.join(parts)`. */
  function Join(parts: seq<string>, sep: char): string
  {
    if |parts| == 0 then []
    else if |parts| == 1 then parts[0]
    else parts[0] + [sep] + Join(parts[1..], sep)
  }

  /** Number of occurrences of `c` in `s`. */
  function Occurrences(s: string, c: char): nat
  {
    if s == [] then 0 else (if s[0] == c then 1 else 0) + Occurrences(s[1..], c)
  }

  /** Joining the pieces of a split gives back the string. */
  lemma {:induction false} JoinSplit(s: string, sep: char)
    ensures Join(Split(s, sep), sep) == s
  {
    if s != [] {
      var rest := Split(s[1..], sep);
      JoinSplit(s[1..], sep);
      if s[0] == sep {
        assert Split(s, sep) == [[]] + rest;
        assert ([[]] + rest)[1..] == rest;
      } else {
        var parts := Split(s, sep);
        assert parts == [[s[0]] + rest[0]] + rest[1..];
        if |rest| == 1 {
          assert Join(rest, sep) == rest[0];
        } else {
          assert parts[1..] == rest[1..];
          assert Join(rest, sep) == rest[0] + [sep] + Join(rest[1..], sep);
        }
      }
    }
  }

  /** Splitting the join of separator-free pieces gives back the pieces. */
  lemma {:induction false} SplitJoin(parts: seq<string>, sep: char)
    requires |parts| >= 1
    requires forall i :: 0 <= i < |parts| ==> sep !in parts[i]
    ensures Split(Join(parts, sep), sep) == parts
    decreases |parts|, |parts[0]|
  {
    var p := parts[0];
    if p == [] {
      if |parts| > 1 {
        var tail := parts[1..];
        SplitJoin(tail, sep);
        assert Join(parts, sep) == [sep] + Join(tail, sep);
        assert ([sep] + Join(tail, sep))[1..] == Join(tail, sep);
      }
    } else {
      var shorter := [p[1..]] + parts[1..];
      assert forall i :: 0 <= i < |shorter| ==> sep !in shorter[i] by {
        forall i | 0 <= i < |shorter| ensures sep !in shorter[i] {
          if i == 0 {
            assert forall x :: x in p[1..] ==> x in p;
          } else {
            assert shorter[i] == parts[i];
          }
        }
      }
      SplitJoin(shorter, sep);
      assert sep !in p;
      assert p[0] != sep;
      if |parts| == 1 {
        assert Join(parts, sep) == p;
        assert Join(shorter, sep) == p[1..];
        assert [p[0]] + p[1..] == p;
      } else {
        assert shorter[1..] == parts[1..];
        assert Join(parts, sep) == p + [sep] + Join(parts[1..], sep);
        assert Join(shorter, sep) == p[1..] + [sep] + Join(parts[1..], sep);
        assert Join(parts, sep) == [p[0]] + Join(shorter, sep);
        assert [p[0]] + p[1..] == p;
        assert parts == [p] + shorter[1..];
      }
    }
  }

  /** A split yields one piece more than there are separators. */
  lemma {:induction false} SplitCount(s: string, sep: char)
    ensures |Split(s, sep)| == Occurrences(s, sep) + 1
  {
    if s != [] {
      SplitCount(s[1..], sep);
    }
  }

  // ---------------------------------------------------------------------
  // is_hostname
  // ---------------------------------------------------------------------

  /**
   * `is_hostname(h)`: `h.split('.')[2]` does not raise IndexError, which
   * happens exactly when `h` has two or more dots, wherever they are.
   */
  predicate IsHostname(h: string): (ok: bool)
    ensures ok <==> Occurrences(h, '.') >= 2
  {
    SplitCount(h, '.');
    |Split(h, '.')| > 2
  }

  /** The heuristic accepts empty labels and rejects a two-label name. */
  lemma HostnameExamples()
    ensures IsHostname("a..")
    ensures IsHostname("a.b.c")
    ensures !IsHostname("a.b")
    ensures !IsHostname("")
  {
    assert "a.."[1..] == ".." && ".."[1..] == "." && "."[1..] == "";
    assert Occurrences("a..", '.') == 2;
    assert "a.b.c"[1..] == ".b.c" && ".b.c"[1..] == "b.c" && "b.c"[1..] == ".c" && ".c"[1..] == "c" && "c"[1..] == "";
    assert Occurrences("a.b.c", '.') == 2;
    assert "a.b"[1..] == ".b" && ".b"[1..] == "b" && "b"[1..] == "";
    assert Occurrences("a.b", '.') == 1;
  }

  // ---------------------------------------------------------------------
  // is_int, over the subset: optional sign, then one or more ASCII digits
  // ---------------------------------------------------------------------

  predicate IsDigit(c: char)
  {
    '0' <= c <= '9'
  }

  predicate IsDigits(s: string)
  {
    |s| > 0 && forall i :: 0 <= i < |s| ==> IsDigit(s[i])
  }

  /** The strings `int()` accepts in this model: an optional sign, then one or more digits. */
  predicate IsDecimal(s: string)
  {
    IsDigits(s) || (|s| > 0 && (s[0] == '+' || s[0] == '-') && IsDigits(s[1..]))
  }

  /** Decimal value of a string of digits (most significant first). */
  function DigitsValue(s: string): (n: nat)
    requires forall i :: 0 <= i < |s| ==> IsDigit(s[i])
    decreases |s|
  {
    if s == [] then 0
    else
      assert IsDigit(s[|s| - 1]);
      DigitsValue(s[..|s| - 1]) * 10 + ((s[|s| - 1] as int) - ('0' as int))
  }

  /** `int(n)` on the modelled subset: None where Python raises ValueError. */
  function ParseInt(s: string): (r: Option<int>)
    ensures r.Some? <==> IsDecimal(s)
  {
    if IsDigits(s) then Some(DigitsValue(s) as int)
    else if |s| > 0 && (s[0] == '+' || s[0] == '-') && IsDigits(s[1..]) then
      var magnitude: int := DigitsValue(s[1..]);
      if s[0] == '-' then Some(-magnitude) else Some(magnitude)
    else None
  }

  /** `is_int(n)`: calling `int(n)` does not raise, i.e. `n` is an optionally signed run of digits. */
  predicate IsInt(s: string): (ok: bool)
    ensures ok <==> IsDecimal(s)
  {
    ParseInt(s).Some?
  }

  /** The value `int(n)` yields once `is_int(n)` has passed. */
  function IntValue(s: string): int
    requires IsInt(s)
  {
    ParseInt(s).value
  }

  function DigitChar(d: nat): (c: char)
    requires d < 10
    ensures IsDigit(c) && (c as int) - ('0' as int) == d
  {
    (d + '0' as int) as char
  }

  /** `str(n)` for a natural number. */
  function FormatNat(n: nat): (s: string)
    ensures IsDigits(s)
  {
    if n < 10 then [DigitChar(n)] else FormatNat(n / 10) + [DigitChar(n % 10)]
  }

  /** `str(n)`: the decimal text Python prints for an integer. */
  function FormatInt(n: int): (s: string)
    ensures IsInt(s)
  {
    if n < 0 then "-" + FormatNat(-n) else FormatNat(n)
  }

  lemma {:induction false} FormatNatValue(n: nat)
    ensures DigitsValue(FormatNat(n)) == n
  {
    if n >= 10 {
      var s := FormatNat(n);
      FormatNatValue(n / 10);
      assert s[..|s| - 1] == FormatNat(n / 10);
    }
  }

  /** `int(str(n)) == n`: every integer the program could write is read back. */
  lemma ParseFormat(n: int)
    ensures ParseInt(FormatInt(n)) == Some(n)
  {
    if n < 0 {
      FormatNatValue(-n);
      var s := FormatInt(n);
      assert s[0] == '-' && s[1..] == FormatNat(-n);
      assert !IsDigits(s) by { assert !IsDigit(s[0]); }
    } else {
      FormatNatValue(n);
    }
  }

  /** Sign handling: "+" is accepted, and a lone sign or an empty string is not. */
  lemma IntExamples()
    ensures ParseInt("+42") == Some(42)
    ensures ParseInt("-17") == Some(-17)
    ensures ParseInt("007") == Some(7)
    ensures !IsInt("") && !IsInt("-") && !IsInt("80a")
  {
    assert "+42"[1..] == "42" && "42"[..1] == "4";
    assert !IsDigits("+42") by { assert !IsDigit("+42"[0]); }
    assert DigitsValue("42") == 42;
    assert "-17"[1..] == "17" && "17"[..1] == "1";
    assert !IsDigits("-17") by { assert !IsDigit("-17"[0]); }
    assert DigitsValue("17") == 17;
    assert "007"[..2] == "00" && "00"[..1] == "0";
    assert DigitsValue("007") == 7;
    assert !IsDigit("80a"[2]);
  }

}
