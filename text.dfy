/**
 * Text helpers shared by the model.  Python's `str.lower()` is modelled on
 * ASCII letters, `str.join`, Go's `strings.Split`, `str.replace` with a
 * one-character pattern, and the decimal rendering and parsing done by
 * `str.format`, `fmt.Sprintf("%d")` and `int()`.
 */
module Text {
  import opened Wrappers

  predicate IsUpper(c: char) { 'A' <= c <= 'Z' }

  function LowerChar(c: char): (r: char)
    ensures !IsUpper(r)
  {
    if IsUpper(c) then (c as int + 32) as char else c
  }

  /** No upper-case ASCII letter occurs in `s`. */
  predicate IsLower(s: string) { forall i :: 0 <= i < |s| ==> !IsUpper(s[i]) }

  /** `s.lower()` on ASCII text. */
  function Lower(s: string): (r: string)
    ensures |r| == |s|
    ensures IsLower(r)
    ensures IsLower(s) ==> r == s
  {
    if s == [] then [] else [LowerChar(s[0])] + Lower(s[1..])
  }

  lemma LowerIdempotent(s: string)
    ensures Lower(Lower(s)) == Lower(s)
  {
  }

  /** `map(lambda tag: tag.lower(), tags)`. */
  function LowerAll(tags: seq<string>): (r: seq<string>)
    ensures |r| == |tags|
    ensures forall i :: 0 <= i < |r| ==> r[i] == Lower(tags[i]) && IsLower(r[i])
  {
    seq(|tags|, i requires 0 <= i < |tags| => Lower(tags[i]))
  }

  /** `s.startswith(p)`. */
  predicate StartsWith(s: string, p: string)
  {
    |p| <= |s| && s[..|p|] == p
  }

  /** `s.endswith(p)`. */
  predicate EndsWith(s: string, p: string)
  {
    |p| <= |s| && s[|s| - |p|..] == p
  }

  /** `part` starts at position `i` of `s`. */
  predicate OccursAt(part: string, s: string, i: int)
  {
    0 <= i <= |s| - |part| && s[i..i + |part|] == part
  }

  /** `part in s` for strings: `part` occurs somewhere in `s`. */
  predicate Occurs(part: string, s: string)
  {
    exists i :: 0 <= i <= |s| && OccursAt(part, s, i)
  }

  /** A text occurs in any text built around it. */
  lemma OccursBetween(a: string, part: string, b: string)
    ensures Occurs(part, a + part + b)
  {
    var s := a + part + b;
    assert s[|a|..|a| + |part|] == part;
    assert OccursAt(part, s, |a|);
  }

  /** `sep.join(parts)`. */
  function Join(parts: seq<string>, sep: string): string
  {
    if |parts| == 0 then ""
    else if |parts| == 1 then parts[0]
    else parts[0] + sep + Join(parts[1..], sep)
  }

  /** Go's `strings.Split(s, string(sep))`: the empty string splits into [""]. */
  function Split(s: string, sep: char): (r: seq<string>)
    ensures |r| >= 1
    ensures forall i :: 0 <= i < |r| ==> sep !in r[i]
    decreases |s|
  {
    if s == [] then [""]
    else
      var rest := Split(s[1..], sep);
      if s[0] == sep then [""] + rest else [[s[0]] + rest[0]] + rest[1..]
  }

  /** Joining the pieces with the separator gives back the input. */
  lemma {:induction false} JoinSplit(s: string, sep: char)
    ensures Join(Split(s, sep), [sep]) == s
  {
    if s != [] {
      var rest := Split(s[1..], sep);
      JoinSplit(s[1..], sep);
      if s[0] == sep {
        var r := [""] + rest;
        assert r[1..] == rest;
        assert Join(r, [sep]) == "" + [sep] + Join(rest, [sep]);
      } else {
        var r := [[s[0]] + rest[0]] + rest[1..];
        assert r[1..] == rest[1..];
        if |rest| == 1 {
          assert Join(rest, [sep]) == rest[0];
        } else {
          assert Join(rest, [sep]) == rest[0] + [sep] + Join(rest[1..], [sep]);
          assert Join(r, [sep]) == [s[0]] + rest[0] + [sep] + Join(rest[1..], [sep]);
        }
      }
    }
  }

  /** Text without the separator splits into itself alone. */
  lemma {:induction false} SplitWithout(s: string, sep: char)
    requires sep !in s
    ensures Split(s, sep) == [s]
    decreases |s|
  {
    if s != [] {
      SplitWithout(s[1..], sep);
      assert [s[0]] + s[1..] == s;
    }
  }

  /** One step of `Split`, on text given as its first character and the rest. */
  lemma SplitCons(c: char, t: string, sep: char)
    ensures Split([c] + t, sep) ==
              if c == sep then [""] + Split(t, sep) else [[c] + Split(t, sep)[0]] + Split(t, sep)[1..]
  {
    assert ([c] + t)[1..] == t;
  }

  /** Splitting at one separator splits each side on its own. */
  lemma {:induction false} SplitConcat(a: string, b: string, sep: char)
    ensures Split(a + ([sep] + b), sep) == Split(a, sep) + Split(b, sep)
    decreases |a|
  {
    if a == [] {
      assert a + ([sep] + b) == [sep] + b;
      SplitCons(sep, b, sep);
    } else {
      var c, t := a[0], a[1..];
      assert a == [c] + t;
      assert a + ([sep] + b) == [c] + (t + ([sep] + b));
      SplitConcat(t, b, sep);
      SplitCons(c, t, sep);
      SplitCons(c, t + ([sep] + b), sep);
      ConsSplits(c, sep, Split(t, sep), Split(b, sep));
    }
  }

  /** The list step of `SplitConcat`: prefixing the first piece commutes with appending. */
  lemma ConsSplits(c: char, sep: char, left: seq<string>, right: seq<string>)
    requires |left| >= 1
    ensures (if c == sep then [""] + (left + right) else [[c] + (left + right)[0]] + (left + right)[1..])
         == (if c == sep then [""] + left else [[c] + left[0]] + left[1..]) + right
  {
    if c != sep {
      assert (left + right)[1..] == left[1..] + right;
    }
  }

  /** `s.replace(c, rep)` for a one-character pattern `c`. */
  function ReplaceChar(s: string, c: char, rep: string): (r: string)
    ensures c !in rep ==> c !in r
    ensures |rep| == 1 ==> |r| == |s|
  {
    if s == [] then []
    else (if s[0] == c then rep else [s[0]]) + ReplaceChar(s[1..], c, rep)
  }

  /** Replacing a character equals splitting on it and joining with the replacement. */
  lemma {:induction false} ReplaceIsSplitJoin(s: string, c: char, rep: string)
    ensures ReplaceChar(s, c, rep) == Join(Split(s, c), rep)
  {
    if s != [] {
      var rest := Split(s[1..], c);
      ReplaceIsSplitJoin(s[1..], c, rep);
      if s[0] == c {
        var r := [""] + rest;
        assert r[1..] == rest;
      } else {
        var r := [[s[0]] + rest[0]] + rest[1..];
        assert r[1..] == rest[1..];
        if |rest| > 1 {
          assert Join(rest, rep) == rest[0] + rep + Join(rest[1..], rep);
        }
      }
    }
  }

  predicate IsDigit(c: char) { '0' <= c <= '9' }

  predicate AllDigits(s: string) { forall i :: 0 <= i < |s| ==> IsDigit(s[i]) }

  function DigitChar(d: int): (c: char)
    requires 0 <= d <= 9
    ensures IsDigit(c) && c as int - '0' as int == d
  {
    ('0' as int + d) as char
  }

  /** Decimal digits of `n`, most significant first, without leading zeros. */
  function NatToString(n: nat): (r: string)
    ensures |r| >= 1 && AllDigits(r)
    ensures n >= 10 ==> r[0] != '0'
    decreases n
  {
    if n < 10 then [DigitChar(n)] else NatToString(n / 10) + [DigitChar(n % 10)]
  }

  /** `str(n)` / `fmt.Sprintf("%d", n)`. */
  function IntToString(n: int): string
  {
    if n < 0 then "-" + NatToString(-n) else NatToString(n)
  }

  function DigitsValue(s: string): nat
    requires AllDigits(s)
  {
    if s == [] then 0 else DigitsValue(s[..|s| - 1]) * 10 + (s[|s| - 1] as int - '0' as int)
  }

  /** The blanks C's `isspace` accepts: space, tab, newline, vertical tab, form feed, carriage return. */
  predicate IsSpace(c: char) { c == ' ' || '\t' <= c <= '\r' }

  predicate AllSpace(s: string) { forall i :: 0 <= i < |s| ==> IsSpace(s[i]) }

  /** `s` without its leading blanks. */
  function TrimStart(s: string): string
  {
    if s != [] && IsSpace(s[0]) then TrimStart(s[1..]) else s
  }

  /** `s` without its trailing blanks. */
  function TrimEnd(s: string): string
  {
    if s != [] && IsSpace(s[|s| - 1]) then TrimEnd(s[..|s| - 1]) else s
  }

  /**
   * Python 2's `int(s)` in base 10, as `PyInt_FromString` and `PyOS_strtol`
   * read it: blanks, an optional '+' or '-', blanks, one or more digits,
   * blanks; anything else raises ValueError.
   */
  function ParseInt(s: string): Result<int>
  {
    SignedDigits(TrimEnd(TrimStart(s)))
  }

  /** The text between the outer blanks: an optional sign, blanks, then the digits. */
  function SignedDigits(t: string): Result<int>
  {
    if |t| > 0 && t[0] == '-' then
      match UnsignedDigits(TrimStart(t[1..]))
      case Ok(v) => Ok(-v)
      case Err(e) => Err(e)
    else if |t| > 0 && t[0] == '+' then UnsignedDigits(TrimStart(t[1..]))
    else UnsignedDigits(t)
  }

  function UnsignedDigits(d: string): Result<int>
  {
    if |d| > 0 && AllDigits(d) then Ok(DigitsValue(d)) else Err(ValueError)
  }

  lemma {:induction false} TrimStartSkips(pre: string, x: string)
    requires AllSpace(pre) && (x == [] || !IsSpace(x[0]))
    ensures TrimStart(pre + x) == x
  {
    if pre != [] {
      assert (pre + x)[1..] == pre[1..] + x;
      TrimStartSkips(pre[1..], x);
    }
  }

  lemma {:induction false} TrimEndSkips(x: string, post: string)
    requires AllSpace(post) && (x == [] || !IsSpace(x[|x| - 1]))
    ensures TrimEnd(x + post) == x
    decreases |post|
  {
    if post != [] {
      assert (x + post)[..|x + post| - 1] == x + post[..|post| - 1];
      TrimEndSkips(x, post[..|post| - 1]);
    }
  }

  /** Digits with blanks around them read as their value. */
  lemma PaddedDigits(pre: string, n: nat, post: string)
    requires AllSpace(pre) && AllSpace(post)
    ensures ParseInt(pre + NatToString(n) + post) == Ok(n)
  {
    var d := NatToString(n);
    assert IsDigit(d[0]) && IsDigit(d[|d| - 1]);
    Padded(pre, d, post);
    UnsignedRead(d);
    DigitsOfNat(n);
  }

  /** The blanks around a text that starts and ends with a non-blank are what `int()` strips. */
  lemma Padded(pre: string, u: string, post: string)
    requires AllSpace(pre) && AllSpace(post)
    requires |u| > 0 && !IsSpace(u[0]) && !IsSpace(u[|u| - 1])
    ensures ParseInt(pre + u + post) == SignedDigits(u)
  {
    assert pre + u + post == pre + (u + post);
    TrimStartSkips(pre, u + post);
    TrimEndSkips(u, post);
  }

  lemma UnsignedRead(d: string)
    requires |d| > 0 && AllDigits(d)
    ensures SignedDigits(d) == Ok(DigitsValue(d))
  {
    assert IsDigit(d[0]);
  }

  lemma SignedRead(u: string, mid: string, d: string)
    requires |u| > 0 && (u[0] == '+' || u[0] == '-') && u[1..] == mid + d
    requires AllSpace(mid) && |d| > 0 && AllDigits(d)
    ensures SignedDigits(u) == Ok(if u[0] == '-' then -(DigitsValue(d) as int) else DigitsValue(d))
  {
    assert IsDigit(d[0]);
    TrimStartSkips(mid, d);
  }

  /** A sign, blanks and digits, with blanks around them, read as the signed value. */
  lemma PaddedSignedDigits(pre: string, sign: char, mid: string, n: nat, post: string)
    requires AllSpace(pre) && AllSpace(mid) && AllSpace(post) && (sign == '+' || sign == '-')
    ensures ParseInt(pre + ([sign] + mid + NatToString(n)) + post) == Ok(if sign == '-' then -(n as int) else n)
  {
    PaddedSigned(pre, sign, mid, NatToString(n), post);
    DigitsOfNat(n);
  }

  lemma PaddedSigned(pre: string, sign: char, mid: string, d: string, post: string)
    requires AllSpace(pre) && AllSpace(mid) && AllSpace(post) && (sign == '+' || sign == '-')
    requires |d| > 0 && AllDigits(d)
    ensures ParseInt(pre + ([sign] + mid + d) + post) == Ok(if sign == '-' then -(DigitsValue(d) as int) else DigitsValue(d))
  {
    PadSigned(pre, sign, mid, d, post);
    SignThenDigits(sign, mid, d);
  }

  lemma PadSigned(pre: string, sign: char, mid: string, d: string, post: string)
    requires AllSpace(pre) && AllSpace(post) && (sign == '+' || sign == '-')
    requires |d| > 0 && AllDigits(d)
    ensures ParseInt(pre + ([sign] + mid + d) + post) == SignedDigits([sign] + mid + d)
  {
    var u := [sign] + mid + d;
    assert u[0] == sign && u[|u| - 1] == d[|d| - 1];
    assert IsDigit(d[|d| - 1]);
    Padded(pre, u, post);
  }

  lemma SignThenDigits(sign: char, mid: string, d: string)
    requires AllSpace(mid) && (sign == '+' || sign == '-')
    requires |d| > 0 && AllDigits(d)
    ensures SignedDigits([sign] + mid + d) == Ok(if sign == '-' then -(DigitsValue(d) as int) else DigitsValue(d))
  {
    SignedTail(sign, mid, d);
    SignedRead([sign] + mid + d, mid, d);
  }

  lemma SignedTail(sign: char, mid: string, d: string)
    ensures ([sign] + mid + d)[0] == sign && ([sign] + mid + d)[1..] == mid + d
  {
    assert [sign] + mid + d == [sign] + (mid + d);
  }

  lemma {:induction false} DigitsOfNat(n: nat)
    ensures DigitsValue(NatToString(n)) == n
    decreases n
  {
    if n >= 10 {
      DigitsOfNat(n / 10);
      var s := NatToString(n);
      assert s[..|s| - 1] == NatToString(n / 10);
    }
  }

  /** Parsing the decimal rendering of an integer gives the integer back. */
  lemma ParseIntRoundTrip(n: int)
    ensures ParseInt(IntToString(n)) == Ok(n)
  {
    if n < 0 {
      NegativeRoundTrip(n);
    } else {
      NatRoundTrip(n);
    }
  }

  lemma NegativeRoundTrip(n: int)
    requires n < 0
    ensures ParseInt(IntToString(n)) == Ok(n)
  {
    var m: nat := -n;
    DigitsOfNat(m);
    NegativeValue(NatToString(m), m);
  }

  lemma NatRoundTrip(n: nat)
    ensures ParseInt(IntToString(n)) == Ok(n)
  {
    DigitsOfNat(n);
    UnsignedValue(NatToString(n), n);
  }

  lemma NegativeValue(d: string, v: nat)
    requires |d| > 0 && AllDigits(d) && DigitsValue(d) == v
    ensures ParseInt("-" + d) == Ok(-(v as int))
  {
    NegativeDigits(d);
  }

  lemma UnsignedValue(d: string, v: nat)
    requires |d| > 0 && AllDigits(d) && DigitsValue(d) == v
    ensures ParseInt(d) == Ok(v)
  {
    ParseIntDigits(d);
  }

  lemma NegativeDigits(d: string)
    requires |d| > 0 && AllDigits(d)
    ensures ParseInt("-" + d) == Ok(-(DigitsValue(d) as int))
  {
    var u := "-" + d;
    assert IsDigit(d[|d| - 1]) && u[|u| - 1] == d[|d| - 1];
    BareRead(u);
    NegativeRead(d);
  }

  /** A run of digits alone reads as its decimal value. */
  lemma ParseIntDigits(d: string)
    requires |d| > 0 && AllDigits(d)
    ensures ParseInt(d) == Ok(DigitsValue(d))
  {
    assert IsDigit(d[0]) && IsDigit(d[|d| - 1]);
    BareRead(d);
    UnsignedRead(d);
  }

  /** Blanks alone, the empty text among them, raise ValueError. */
  lemma ParseIntBlank(s: string)
    requires AllSpace(s)
    ensures ParseInt(s) == Err(ValueError)
  {
    BlanksTrim(s);
  }

  lemma {:induction false} BlanksTrim(s: string)
    requires AllSpace(s)
    ensures TrimStart(s) == []
  {
    if s != [] {
      BlanksTrim(s[1..]);
    }
  }

  /** Text whose last character is neither a digit nor a blank raises ValueError, as "12a" does. */
  lemma ParseIntTrailingJunk(s: string)
    requires |s| > 0 && !IsDigit(s[|s| - 1]) && !IsSpace(s[|s| - 1])
    ensures ParseInt(s) == Err(ValueError)
  {
    var t := TrimStart(s);
    TrimStartKeepsLast(s);
    assert TrimEnd(t) == t;
    if |t| > 1 && (t[0] == '-' || t[0] == '+') {
      TrimStartKeepsLast(t[1..]);
      var d := TrimStart(t[1..]);
      assert !IsDigit(d[|d| - 1]);
    } else {
      assert !IsDigit(t[|t| - 1]);
    }
  }

  lemma {:induction false} TrimStartKeepsLast(s: string)
    requires |s| > 0 && !IsSpace(s[|s| - 1])
    ensures |TrimStart(s)| > 0 && TrimStart(s)[|TrimStart(s)| - 1] == s[|s| - 1]
  {
    if IsSpace(s[0]) {
      TrimStartKeepsLast(s[1..]);
    }
  }

  lemma BareRead(u: string)
    requires |u| > 0 && (u[0] == '-' || IsDigit(u[0])) && IsDigit(u[|u| - 1])
    ensures ParseInt(u) == SignedDigits(u)
  {
    assert u == "" + u + "";
    Padded("", u, "");
  }

  lemma NegativeRead(d: string)
    requires |d| > 0 && AllDigits(d)
    ensures SignedDigits("-" + d) == Ok(-(DigitsValue(d) as int))
  {
    var u := "-" + d;
    assert u[1..] == "" + d;
    SignedRead(u, "", d);
  }
}
