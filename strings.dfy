/**
 * String helpers shared by the binding and reader code: Python's
 * `str.split` on one separator character, `delim.join`, decimal rendering
 * of naturals (`"{0}".format(n)`) and the digits-only part of `int(s)`.
 */
module Strings {
  import opened Values

  /** `delim.join(parts)`. */
  function Join(parts: seq<string>, delim: string): (r: string)
    ensures |parts| == 1 ==> r == parts[0]
    ensures parts == [] ==> r == ""
  {
    if |parts| == 0 then ""
    else if |parts| == 1 then parts[0]
    else parts[0] + delim + Join(parts[1..], delim)
  }

  /** `s.split(c)`: always at least one piece, separators dropped. */
  function Split(s: string, c: char): (r: seq<string>)
    ensures |r| >= 1
    ensures forall i :: 0 <= i < |r| ==> c !in r[i]
  {
    if s == [] then [""]
    else
      var rest := Split(s[1..], c);
      if s[0] == c then [""] + rest
      else [[s[0]] + rest[0]] + rest[1..]
  }

  lemma JoinCons(x: string, ys: seq<string>, delim: string)
    requires |ys| >= 1
    ensures Join([x] + ys, delim) == x + delim + Join(ys, delim)
  {
    assert ([x] + ys)[1..] == ys;
  }

  /** Prefixing a character to the first piece prefixes it to the join. */
  lemma JoinHeadExtend(x: char, parts: seq<string>, delim: string)
    requires |parts| >= 1
    ensures Join([[x] + parts[0]] + parts[1..], delim) == [x] + Join(parts, delim)
  {
    if |parts| == 1 {
      assert [[x] + parts[0]] + parts[1..] == [[x] + parts[0]];
    } else {
      JoinCons([x] + parts[0], parts[1..], delim);
      assert [parts[0]] + parts[1..] == parts;
      JoinCons(parts[0], parts[1..], delim);
    }
  }

  /** Joining the pieces of a split with the separator gives back the string. */
  lemma {:induction false} JoinSplit(s: string, c: char)
    ensures Join(Split(s, c), [c]) == s
  {
    if s != [] {
      var rest := Split(s[1..], c);
      JoinSplit(s[1..], c);
      if s[0] == c {
        JoinCons("", rest, [c]);
      } else {
        JoinHeadExtend(s[0], rest, [c]);
      }
      assert s == [s[0]] + s[1..];
    }
  }

  lemma {:induction false} SplitNoSeparator(x: string, c: char)
    requires c !in x
    ensures Split(x, c) == [x]
  {
    if x != [] {
      SplitNoSeparator(x[1..], c);
      assert [x[0]] + x[1..] == x;
    }
  }

  lemma {:induction false} SplitAfterPiece(x: string, c: char, t: string)
    requires c !in x
    ensures Split(x + [c] + t, c) == [x] + Split(t, c)
  {
    if x == [] {
      assert x + [c] + t == [c] + t;
      assert ([c] + t)[1..] == t;
    } else {
      var s := x + [c] + t;
      assert s[1..] == x[1..] + [c] + t;
      SplitAfterPiece(x[1..], c, t);
      assert [x[0]] + x[1..] == x;
    }
  }

  /** Splitting a join of separator-free pieces gives back the pieces. */
  lemma {:induction false} SplitJoin(parts: seq<string>, c: char)
    requires |parts| >= 1
    requires forall i :: 0 <= i < |parts| ==> c !in parts[i]
    ensures Split(Join(parts, [c]), c) == parts
  {
    if |parts| == 1 {
      SplitNoSeparator(parts[0], c);
    } else {
      SplitJoin(parts[1..], c);
      SplitAfterPiece(parts[0], c, Join(parts[1..], [c]));
      assert [parts[0]] + parts[1..] == parts;
    }
  }

  predicate IsDigit(ch: char) {
    '0' <= ch <= '9'
  }

  predicate AllDigits(s: string) {
    forall i :: 0 <= i < |s| ==> IsDigit(s[i])
  }

  function DigitChar(d: nat): (ch: char)
    requires d < 10
    ensures IsDigit(ch) && (ch as int) - ('0' as int) == d
  {
    (('0' as int) + d) as char
  }

  /** `"{0}".format(n)` for a natural number: its decimal digits. */
  function NatToString(n: nat): (r: string)
    ensures |r| >= 1 && AllDigits(r)
    decreases n
  {
    if n < 10 then [DigitChar(n)]
    else NatToString(n / 10) + [DigitChar(n % 10)]
  }

  /** The value of a string of decimal digits. */
  function DigitsValue(s: string): nat
    requires AllDigits(s)
  {
    if s == [] then 0
    else DigitsValue(s[..|s| - 1]) * 10 + ((s[|s| - 1] as int) - ('0' as int))
  }

  /** Reading back the decimal digits of n gives n. */
  lemma {:induction false} DigitsValueOfNatToString(n: nat)
    ensures DigitsValue(NatToString(n)) == n
    decreases n
  {
    var s := NatToString(n);
    if n >= 10 {
      assert s[..|s| - 1] == NatToString(n / 10);
      DigitsValueOfNatToString(n / 10);
    } else {
      assert s[..|s| - 1] == [];
    }
  }

  lemma NatToStringInjective(m: nat, n: nat)
    requires NatToString(m) == NatToString(n)
    ensures m == n
  {
    DigitsValueOfNatToString(m);
    DigitsValueOfNatToString(n);
  }

  predicate IsSpace(ch: char) {
    ch == ' ' || ch == '\t' || ch == '\n' || ch == '\r' || ch as int == 11 || ch as int == 12
  }

  /** Everything of s outside s[i..j] is whitespace. */
  predicate SpaceOutside(s: string, i: nat, j: nat)
    requires i <= j <= |s|
  {
    (forall k :: 0 <= k < i ==> IsSpace(s[k])) && (forall k :: j <= k < |s| ==> IsSpace(s[k]))
  }

  /** A leading space of s widens the whitespace before the slice by one. */
  lemma SpaceOutsideFront(s: string, i: nat, j: nat)
    requires |s| >= 1 && IsSpace(s[0]) && i <= j <= |s| - 1 && SpaceOutside(s[1..], i, j)
    ensures SpaceOutside(s, i + 1, j + 1)
  {
    forall k | 0 < k < |s| ensures s[k] == s[1..][k - 1] { }
  }

  /** A trailing space of s widens the whitespace after the slice by one. */
  lemma SpaceOutsideBack(s: string, i: nat, j: nat)
    requires |s| >= 1 && IsSpace(s[|s| - 1]) && i <= j <= |s| - 1 && SpaceOutside(s[..|s| - 1], i, j)
    ensures SpaceOutside(s, i, j)
  {
    forall k | 0 <= k < |s| - 1 ensures s[k] == s[..|s| - 1][k] { }
  }

  /** `s.strip()` with Python's ASCII whitespace. */
  function Strip(s: string): (r: string)
    ensures |r| <= |s|
    ensures r != [] ==> !IsSpace(r[0]) && !IsSpace(r[|r| - 1])
    decreases |s|
  {
    if s == [] then []
    else if IsSpace(s[0]) then Strip(s[1..])
    else if IsSpace(s[|s| - 1]) then Strip(s[..|s| - 1])
    else s
  }

  /** What `strip` keeps is a slice of s with only whitespace outside it. */
  lemma {:induction false} StripIsSlice(s: string)
    ensures exists i, j :: 0 <= i <= j <= |s| && Strip(s) == s[i..j] && SpaceOutside(s, i, j)
    decreases |s|
  {
    if s == [] {
      assert s[0..0] == [] && SpaceOutside(s, 0, 0);
    } else if IsSpace(s[0]) {
      StripIsSlice(s[1..]);
      var i, j :| 0 <= i <= j <= |s| - 1 && Strip(s[1..]) == s[1..][i..j] && SpaceOutside(s[1..], i, j);
      SliceFront(s, i, j);
    } else if IsSpace(s[|s| - 1]) {
      var t := s[..|s| - 1];
      StripIsSlice(t);
      var i, j :| 0 <= i <= j <= |t| && Strip(t) == t[i..j] && SpaceOutside(t, i, j);
      SliceBack(s, i, j);
    } else {
      assert Strip(s) == s[0..|s|];
    }
  }

  /** The step of StripIsSlice over a leading space. */
  lemma SliceFront(s: string, i: nat, j: nat)
    requires |s| >= 1 && IsSpace(s[0]) && i <= j <= |s| - 1
    requires Strip(s[1..]) == s[1..][i..j] && SpaceOutside(s[1..], i, j)
    ensures Strip(s) == s[i + 1..j + 1] && SpaceOutside(s, i + 1, j + 1)
  {
    assert Strip(s) == Strip(s[1..]);
    assert s[1..][i..j] == s[i + 1..j + 1];
    SpaceOutsideFront(s, i, j);
  }

  /** The step of StripIsSlice over a trailing space. */
  lemma SliceBack(s: string, i: nat, j: nat)
    requires |s| >= 1 && !IsSpace(s[0]) && IsSpace(s[|s| - 1]) && i <= j <= |s| - 1
    requires Strip(s[..|s| - 1]) == s[..|s| - 1][i..j] && SpaceOutside(s[..|s| - 1], i, j)
    ensures Strip(s) == s[i..j] && SpaceOutside(s, i, j)
  {
    assert Strip(s) == Strip(s[..|s| - 1]);
    assert s[..|s| - 1][i..j] == s[i..j];
    SpaceOutsideBack(s, i, j);
  }

  /** Whitespace around a string does not change what it strips to. */
  lemma {:induction false} StripPadded(front: string, t: string, back: string)
    requires forall k :: 0 <= k < |front| ==> IsSpace(front[k])
    requires forall k :: 0 <= k < |back| ==> IsSpace(back[k])
    ensures Strip(front + t + back) == Strip(t)
    decreases |front|
  {
    if front != [] {
      assert (front + t + back)[1..] == front[1..] + t + back;
      StripPadded(front[1..], t, back);
    } else {
      assert front + t + back == t + back;
      StripTrailing(t, back);
    }
  }

  lemma {:induction false} StripTrailing(t: string, back: string)
    requires forall k :: 0 <= k < |back| ==> IsSpace(back[k])
    ensures Strip(t + back) == Strip(t)
    decreases |t| + |back|
  {
    var s := t + back;
    if back == [] {
      assert s == t;
    } else if t == [] {
      assert s == back;
      assert s[1..] == [] + back[1..];
      StripTrailing([], back[1..]);
    } else if IsSpace(t[0]) {
      assert s[1..] == t[1..] + back;
      StripTrailing(t[1..], back);
    } else {
      assert s[..|s| - 1] == t + back[..|back| - 1];
      StripTrailing(t, back[..|back| - 1]);
    }
  }

  /**
   * `int(s)` on a string: surrounding whitespace is ignored, and what is
   * left must be decimal digits with an optional leading minus sign.
   */
  function ParseInt(s: string): (r: Result<int>)
    ensures AllDigits(s) && s != [] ==> r == Ok(DigitsValue(s))
  {
    var t := Strip(s);
    if t != [] && AllDigits(t) then Ok(DigitsValue(t) as int)
    else if |t| >= 2 && t[0] == '-' && AllDigits(t[1..]) then Ok(-(DigitsValue(t[1..]) as int))
    else Err(ValueError)
  }

  /** `int()` ignores whitespace around the number. */
  lemma ParseIntPadded(front: string, t: string, back: string)
    requires forall k :: 0 <= k < |front| ==> IsSpace(front[k])
    requires forall k :: 0 <= k < |back| ==> IsSpace(back[k])
    ensures ParseInt(front + t + back) == ParseInt(t)
  {
    StripPadded(front, t, back);
    ParseIntOfStrip(front + t + back, t);
  }

  /** `int()` looks only at the stripped string. */
  lemma ParseIntOfStrip(a: string, b: string)
    requires Strip(a) == Strip(b)
    ensures ParseInt(a) == ParseInt(b)
  {
    var t := Strip(a);
    assert ParseInt(a) == if t != [] && AllDigits(t) then Ok(DigitsValue(t) as int)
      else if |t| >= 2 && t[0] == '-' && AllDigits(t[1..]) then Ok(-(DigitsValue(t[1..]) as int))
      else Err(ValueError);
  }

  /** Rendering a natural and parsing it back is the identity. */
  lemma ParseIntOfNatToString(n: nat)
    ensures ParseInt(NatToString(n)) == Ok(n)
  {
    DigitsValueOfNatToString(n);
  }
}
