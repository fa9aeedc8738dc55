/**
 * The string handling behind the mail configuration, with Python's meaning:
 * `str.strip()`, `str.split(sep)` with an explicit one-character separator,
 * `sep.join(parts)` and `int(text)` on decimal text.
 */
module Text {
  import opened Wrappers

  /** Python's `str.isspace()`: the characters `str.strip()` removes. */
  predicate IsSpace(c: char)
  {
    || c == ' '
    || ('\t' <= c <= '\r')
    || ('\U{1c}' <= c <= '\U{1f}')
    || c == '\U{85}' || c == '\U{a0}' || c == '\U{1680}'
    || ('\U{2000}' <= c <= '\U{200a}')
    || c == '\U{2028}' || c == '\U{2029}' || c == '\U{202f}' || c == '\U{205f}' || c == '\U{3000}'
  }

  predicate AllSpace(s: string)
  {
    forall k :: 0 <= k < |s| ==> IsSpace(s[k])
  }

  /** Neither starts nor ends with whitespace. */
  predicate Trimmed(s: string)
  {
    |s| == 0 || (!IsSpace(s[0]) && !IsSpace(s[|s| - 1]))
  }

  function TrimLeft(s: string): (r: string)
    ensures |r| <= |s|
  {
    if |s| > 0 && IsSpace(s[0]) then TrimLeft(s[1..]) else s
  }

  function TrimRight(s: string): (r: string)
    ensures |r| <= |s|
  {
    if |s| > 0 && IsSpace(s[|s| - 1]) then TrimRight(s[..|s| - 1]) else s
  }

  /** `s.strip()` */
  function Strip(s: string): (r: string)
    ensures |r| <= |s|
  {
    TrimRight(TrimLeft(s))
  }

  // ----------------------------------------------------------------------
  // strip

  lemma {:induction false} TrimLeftSpec(s: string) returns (p: nat)
    ensures p <= |s| && TrimLeft(s) == s[p..] && AllSpace(s[..p])
    ensures |TrimLeft(s)| > 0 ==> !IsSpace(TrimLeft(s)[0])
  {
    if |s| > 0 && IsSpace(s[0]) {
      var q := TrimLeftSpec(s[1..]);
      p := q + 1;
      assert s[1..][q..] == s[p..];
      assert forall k :: 0 <= k < p ==> s[..p][k] == (if k == 0 then s[0] else s[1..][..q][k - 1]);
    } else {
      p := 0;
    }
  }

  lemma {:induction false} TrimRightSpec(s: string) returns (q: nat)
    ensures q <= |s| && TrimRight(s) == s[..q] && AllSpace(s[q..])
    ensures |TrimRight(s)| > 0 ==> !IsSpace(TrimRight(s)[|TrimRight(s)| - 1])
  {
    if |s| > 0 && IsSpace(s[|s| - 1]) {
      var t := s[..|s| - 1];
      q := TrimRightSpec(t);
      assert t[..q] == s[..q];
      assert forall k :: 0 <= k < |s| - q ==> s[q..][k] == (if k == |s| - q - 1 then s[|s| - 1] else t[q..][k]);
    } else {
      q := |s|;
    }
  }

  /** The leading character of TrimRight(s) is the leading character of s. */
  lemma {:induction false} TrimRightKeepsFirst(s: string)
    requires |s| > 0 && !IsSpace(s[0])
    ensures |TrimRight(s)| > 0 && TrimRight(s)[0] == s[0]
  {
    if IsSpace(s[|s| - 1]) {
      TrimRightKeepsFirst(s[..|s| - 1]);
    }
  }

  /**
   * Stripping removes a whitespace prefix and a whitespace suffix and nothing
   * else, and leaves no whitespace at either end.
   */
  lemma StripSpec(s: string) returns (p: nat, q: nat)
    ensures p <= q <= |s| && Strip(s) == s[p..q]
    ensures AllSpace(s[..p]) && AllSpace(s[q..])
    ensures Trimmed(Strip(s))
  {
    p := TrimLeftSpec(s);
    var l := TrimLeft(s);
    var q0 := TrimRightSpec(l);
    q := p + q0;
    assert l[..q0] == s[p..q];
    assert forall k :: 0 <= k < |s| - q ==> s[q..][k] == l[q0..][k];
    if |Strip(s)| > 0 {
      TrimRightKeepsFirst(l);
    }
  }

  /** Stripping adds no character. */
  lemma StripKeepsOut(s: string, c: char)
    requires c !in s
    ensures c !in Strip(s)
  {
    var p, q := StripSpec(s);
  }

  /** A string with no whitespace at either end is left as it is. */
  lemma StripTrimmed(s: string)
    requires Trimmed(s)
    ensures Strip(s) == s
  {
  }

  lemma StripIdempotent(s: string)
    ensures Strip(Strip(s)) == Strip(s)
  {
    var _, _ := StripSpec(s);
    StripTrimmed(Strip(s));
  }

  /** Stripping gives the empty string exactly for all-whitespace text. */
  lemma StripEmpty(s: string)
    ensures Strip(s) == "" <==> AllSpace(s)
  {
    var p, q := StripSpec(s);
    if Strip(s) == "" {
      assert p == q;
      assert forall k :: 0 <= k < |s| ==> IsSpace(s[k]) by {
        forall k | 0 <= k < |s|
          ensures IsSpace(s[k])
        {
          if k < p {
            assert s[..p][k] == s[k];
          } else {
            assert s[q..][k - q] == s[k];
          }
        }
      }
    }
  }

  // ----------------------------------------------------------------------
  // split and join

  /** `s.split(sep)`: the pieces between separators, at least one of them. */
  function Split(s: string, sep: char): (r: seq<string>)
    ensures |r| >= 1
  {
    if |s| == 0 then [""]
    else
      var rest := Split(s[1..], sep);
      if s[0] == sep then [""] + rest
      else [[s[0]] + rest[0]] + rest[1..]
  }

  /** `sep.join(parts)` */
  function Join(parts: seq<string>, sep: char): (r: string)
    ensures |parts| > 0 ==> |r| >= |parts| - 1
  {
    if |parts| == 0 then ""
    else if |parts| == 1 then parts[0]
    else parts[0] + [sep] + Join(parts[1..], sep)
  }

  /** Joining the pieces of a split gives back the original text. */
  lemma {:induction false} JoinSplit(s: string, sep: char)
    ensures Join(Split(s, sep), sep) == s
  {
    if |s| > 0 {
      var rest := Split(s[1..], sep);
      JoinSplit(s[1..], sep);
      if s[0] == sep {
        assert Split(s, sep) == [""] + rest;
        assert ([""] + rest)[1..] == rest;
      } else {
        var r := Split(s, sep);
        assert r == [[s[0]] + rest[0]] + rest[1..];
        if |rest| > 1 {
          assert r[1..] == rest[1..];
        }
      }
    }
  }

  /** No piece of a split contains the separator. */
  lemma {:induction false} SplitPiecesFree(s: string, sep: char)
    ensures forall p :: p in Split(s, sep) ==> sep !in p
  {
    if |s| > 0 {
      SplitPiecesFree(s[1..], sep);
    }
  }

  lemma {:induction false} SplitFree(p: string, sep: char)
    requires sep !in p
    ensures Split(p, sep) == [p]
  {
    if |p| > 0 {
      SplitFree(p[1..], sep);
      assert [p[0]] + p[1..] == p;
    }
  }

  lemma {:induction false} SplitCons(p: string, rest: string, sep: char)
    requires sep !in p
    ensures Split(p + [sep] + rest, sep) == [p] + Split(rest, sep)
  {
    var s := p + [sep] + rest;
    if |p| == 0 {
      assert s[0] == sep && s[1..] == rest;
    } else {
      assert s[0] == p[0] && s[1..] == p[1..] + [sep] + rest;
      SplitCons(p[1..], rest, sep);
      assert [p[0]] + p[1..] == p;
    }
  }

  /** Splitting a join of separator-free pieces gives back the pieces. */
  lemma {:induction false} SplitJoin(parts: seq<string>, sep: char)
    requires |parts| > 0
    requires forall p :: p in parts ==> sep !in p
    ensures Split(Join(parts, sep), sep) == parts
  {
    if |parts| == 1 {
      SplitFree(parts[0], sep);
    } else {
      SplitJoin(parts[1..], sep);
      SplitCons(parts[0], Join(parts[1..], sep), sep);
      assert [parts[0]] + parts[1..] == parts;
    }
  }

  // ----------------------------------------------------------------------
  // int()

  predicate IsDigit(c: char)
  {
    '0' <= c <= '9'
  }

  function DigitValue(c: char): nat
    requires IsDigit(c)
  {
    (c as int - '0' as int) as nat
  }

  function DigitChar(d: nat): (c: char)
    requires d < 10
    ensures IsDigit(c) && DigitValue(c) == d
  {
    ('0' as int + d) as char
  }

  /**
   * Decimal digits, with single underscores allowed between two digits
   * (the grouping Python's `int()` accepts, as in "1_000").
   */
  predicate DigitText(s: string)
  {
    && |s| > 0
    && IsDigit(s[0])
    && IsDigit(s[|s| - 1])
    && forall k :: 0 <= k < |s| ==> DigitOrSeparator(s, k)
  }

  /** s[k] is a digit, or an underscore between two digits. */
  predicate DigitOrSeparator(s: string, k: nat)
    requires k < |s|
  {
    IsDigit(s[k]) || (s[k] == '_' && 0 < k < |s| - 1 && IsDigit(s[k - 1]) && IsDigit(s[k + 1]))
  }

  /** The number the digits of s spell, underscores ignored. */
  function DigitsValue(s: string): nat
  {
    if |s| == 0 then 0
    else if IsDigit(s[|s| - 1]) then 10 * DigitsValue(s[..|s| - 1]) + DigitValue(s[|s| - 1])
    else DigitsValue(s[..|s| - 1])
  }

  /**
   * The decimal literals `int()` accepts once stripped: an optional sign
   * followed by digit text.
   */
  predicate IntegerText(s: string)
  {
    || DigitText(s)
    || (|s| > 0 && (s[0] == '-' || s[0] == '+') && DigitText(s[1..]))
  }

  /** `int(s)` for already stripped text: None where Python raises ValueError. */
  function ParseInt(s: string): (r: Option<int>)
    ensures r.Some? <==> IntegerText(s)
  {
    if |s| > 0 && (s[0] == '-' || s[0] == '+') then
      var v: int := DigitsValue(s[1..]);
      if DigitText(s[1..]) then Some(if s[0] == '-' then -v else v)
      else None
    else if DigitText(s) then Some(DigitsValue(s))
    else None
  }

  /** Decimal notation of n, no leading zeros. */
  function NatToString(n: nat): (r: string)
    ensures |r| > 0 && forall k :: 0 <= k < |r| ==> IsDigit(r[k])
  {
    if n < 10 then [DigitChar(n)] else NatToString(n / 10) + [DigitChar(n % 10)]
  }

  /** `str(i)` */
  function IntToString(i: int): string
  {
    if i < 0 then "-" + NatToString(-i) else NatToString(i)
  }

  lemma {:induction false} NatToStringValue(n: nat)
    ensures DigitsValue(NatToString(n)) == n
  {
    if n >= 10 {
      NatToStringValue(n / 10);
      var s := NatToString(n);
      assert s[..|s| - 1] == NatToString(n / 10);
    }
  }

  /** `int(str(i)) == i` */
  lemma ParseIntString(i: int)
    ensures ParseInt(IntToString(i)) == Some(i)
  {
    var m := if i < 0 then -i else i;
    NatToStringValue(m);
    var digits := NatToString(m);
    assert DigitText(digits);
    if i < 0 {
      assert IntToString(i)[1..] == digits;
    }
  }

  /** Text with a character other than a digit, an underscore or a leading sign is no integer. */
  lemma ParseIntRejects(s: string, k: nat)
    requires k < |s| && !IsDigit(s[k]) && s[k] != '_'
    requires k > 0 || (s[k] != '-' && s[k] != '+')
    ensures !IntegerText(s) && ParseInt(s) == None
  {
    if |s| > 0 && (s[0] == '-' || s[0] == '+') {
      var t := s[1..];
      assert t[k - 1] == s[k];
      assert !DigitOrSeparator(t, k - 1);
    } else {
      assert !DigitOrSeparator(s, k);
    }
  }
}
