/**
 * String helpers shared by the controllers and the camera tool: the parts of
 * Python's `str` that the core relies on (`in`, `find`/`rfind`, `split(":", 1)`,
 * `strip`, `upper`, `isdigit`, `int`, `str(int)` and `float`), restricted to
 * ASCII text, which is all the wire protocol carries.
 */
module Text {

  datatype Option<+T> = None | Some(value: T)

  // ---------------------------------------------------------------- digits

  predicate IsDigit(c: char) { '0' <= c <= '9' }

  predicate AllDigits(s: string) { forall i :: 0 <= i < |s| ==> IsDigit(s[i]) }

  function DigitValue(c: char): (d: nat)
    requires IsDigit(c)
    ensures d < 10
  {
    (c as int) - ('0' as int)
  }

  function DigitChar(d: nat): (c: char)
    requires d < 10
    ensures IsDigit(c) && DigitValue(c) == d
  {
    (('0' as int) + d) as char
  }

  /** Python's `int(s)` on a run of ASCII digits (leading zeros allowed). */
  function DigitsValue(s: string): nat
    requires AllDigits(s)
  {
    if s == [] then 0 else 10 * DigitsValue(s[..|s| - 1]) + DigitValue(s[|s| - 1])
  }

  /** Python's `str(n)` for a non-negative integer. */
  function NatToString(n: nat): (s: string)
    ensures |s| > 0 && AllDigits(s)
  {
    if n < 10 then [DigitChar(n)] else NatToString(n / 10) + [DigitChar(n % 10)]
  }

  /** Python's `str(i)` for any integer: a minus sign before the digits of |i|. */
  function IntToString(i: int): (s: string)
    ensures |s| > 0
    ensures i >= 0 ==> s == NatToString(i)
    ensures i < 0 ==> s == "-" + NatToString(-i)
  {
    if i < 0 then "-" + NatToString(-i) else NatToString(i)
  }

  /** Reading back what `NatToString` writes gives the number again. */
  lemma {:induction false} NatToStringRoundTrip(n: nat)
    ensures DigitsValue(NatToString(n)) == n
  {
    if n >= 10 {
      NatToStringRoundTrip(n / 10);
      var s := NatToString(n);
      assert s[..|s| - 1] == NatToString(n / 10);
    }
  }

  /** Distinct numbers are written as distinct strings. */
  lemma NatToStringInjective(m: nat, n: nat)
    requires NatToString(m) == NatToString(n)
    ensures m == n
  {
    NatToStringRoundTrip(m);
    NatToStringRoundTrip(n);
  }

  function Pow10(k: nat): (p: nat)
    ensures p >= 1
  {
    if k == 0 then 1 else 10 * Pow10(k - 1)
  }

  /** A number of at least `10^k` needs more than `k` digits. */
  lemma {:induction false} NatToStringLength(n: nat, k: nat)
    requires n >= Pow10(k)
    ensures |NatToString(n)| > k
  {
    if k > 0 {
      NatToStringLength(n / 10, k - 1);
    }
  }

  // ---------------------------------------------------------------- search

  /** Python's `s.find(c)`: the first index of `c`, or -1. */
  function IndexOf(s: string, c: char): (k: int)
    ensures -1 <= k < |s|
    ensures k >= 0 ==> s[k] == c && forall j :: 0 <= j < k ==> s[j] != c
    ensures k == -1 <==> c !in s
  {
    if s == [] then -1
    else if s[0] == c then 0
    else
      var k := IndexOf(s[1..], c);
      if k < 0 then -1 else k + 1
  }

  /** Python's `s.rfind(c)`: the last index of `c`, or -1. */
  function LastIndexOf(s: string, c: char): (k: int)
    ensures -1 <= k < |s|
  {
    if s == [] then -1
    else if s[|s| - 1] == c then |s| - 1
    else LastIndexOf(s[..|s| - 1], c)
  }

  /** `LastIndexOf` finds the last occurrence, and -1 exactly when there is none. */
  lemma {:induction false} LastIndexOfSpec(s: string, c: char)
    ensures var k := LastIndexOf(s, c);
      && (k >= 0 ==> s[k] == c && forall j :: k < j < |s| ==> s[j] != c)
      && (k == -1 <==> c !in s)
  {
    if s != [] && s[|s| - 1] != c {
      var t := s[..|s| - 1];
      LastIndexOfSpec(t, c);
      assert forall j :: 0 <= j < |t| ==> t[j] == s[j];
      assert c in t ==> c in s;
      assert c in s ==> c in t by {
        if c in s {
          var i :| 0 <= i < |s| && s[i] == c;
          assert t[i] == c;
        }
      }
    }
  }

  /** `IndexOf` finds the separator that follows a prefix free of it. */
  lemma {:induction false} IndexOfAfter(a: string, c: char, b: string)
    requires c !in a
    ensures IndexOf(a + [c] + b, c) == |a|
  {
    if a != [] {
      assert (a + [c] + b)[1..] == a[1..] + [c] + b;
      IndexOfAfter(a[1..], c, b);
    }
  }

  // ---------------------------------------------------------------- split

  /**
   * Python's `s.split(sep, 1)` on a string that contains `sep`: the text before
   * the first separator and the text after it.
   */
  function SplitFirst(s: string, sep: char): (r: (string, string))
    requires sep in s
    ensures sep !in r.0
    ensures s == r.0 + [sep] + r.1
  {
    var k := IndexOf(s, sep);
    (s[..k], s[k + 1..])
  }

  /** The split is the only one whose first part is free of the separator. */
  lemma SplitFirstUnique(a: string, sep: char, b: string)
    requires sep !in a
    ensures SplitFirst(a + [sep] + b, sep) == (a, b)
  {
    var s := a + [sep] + b;
    IndexOfAfter(a, sep, b);
    assert s[..|a|] == a && s[|a| + 1..] == b;
  }

  /**
   * The split of the older `process_command` and of the camera tool's: at the
   * first colon, with neither part stripped; without a colon the whole
   * message is the action and there is no payload.
   */
  function SplitRaw(message: string): (r: (string, Option<string>))
    ensures r.1.None? <==> ':' !in message
    ensures r.1.None? ==> r.0 == message
    ensures r.1.Some? ==> message == r.0 + ":" + r.1.value && ':' !in r.0
  {
    if ':' in message then
      var parts := SplitFirst(message, ':');
      (parts.0, Some(parts.1))
    else
      (message, None)
  }

  /** A message made of a colon-free action, a colon and a payload splits back into them. */
  lemma SplitRawJoin(action: string, payload: string)
    requires ':' !in action
    ensures SplitRaw(action + ":" + payload) == (action, Some(payload))
  {
    assert action + ":" + payload == action + [':'] + payload;
    SplitFirstUnique(action, ':', payload);
  }

  /** A colon-free message is its own action. */
  lemma SplitRawNoColon(m: string)
    requires forall i :: 0 <= i < |m| ==> m[i] != ':'
    ensures SplitRaw(m) == (m, None)
  {
    assert ':' !in m;
  }

  // ---------------------------------------------------------------- case

  function UpperChar(c: char): char
  {
    if 'a' <= c <= 'z' then (c as int - 32) as char else c
  }

  /** Python's `s.upper()` on ASCII text. */
  function Upper(s: string): (r: string)
    ensures |r| == |s|
    ensures forall i :: 0 <= i < |s| ==> r[i] == UpperChar(s[i])
  {
    seq(|s|, i requires 0 <= i < |s| => UpperChar(s[i]))
  }

  // ---------------------------------------------------------------- strip

  /** The ASCII characters for which Python's `str.isspace()` holds. */
  predicate IsSpace(c: char)
  {
    (9 <= c as int <= 13) || (28 <= c as int <= 32)
  }

  /** Leading whitespace removed. */
  function StripLeft(s: string): (r: string)
    ensures |r| <= |s|
  {
    if s != [] && IsSpace(s[0]) then StripLeft(s[1..]) else s
  }

  /** Trailing whitespace removed. */
  function StripRight(s: string): (r: string)
    ensures |r| <= |s|
  {
    if s != [] && IsSpace(s[|s| - 1]) then StripRight(s[..|s| - 1]) else s
  }

  /** `StripLeft` drops exactly the leading run of whitespace. */
  lemma {:induction false} StripLeftSpec(s: string)
    ensures StripLeft(s) == s[|s| - |StripLeft(s)|..]
    ensures StripLeft(s) == [] || !IsSpace(StripLeft(s)[0])
    ensures forall i :: 0 <= i < |s| - |StripLeft(s)| ==> IsSpace(s[i])
    decreases |s|
  {
    if s != [] && IsSpace(s[0]) {
      StripLeftSpec(s[1..]);
    }
  }

  /** `StripRight` drops exactly the trailing run of whitespace. */
  lemma {:induction false} StripRightSpec(s: string)
    ensures StripRight(s) == s[..|StripRight(s)|]
    ensures StripRight(s) == [] || !IsSpace(StripRight(s)[|StripRight(s)| - 1])
    ensures forall i :: |StripRight(s)| <= i < |s| ==> IsSpace(s[i])
    decreases |s|
  {
    if s != [] && IsSpace(s[|s| - 1]) {
      StripRightSpec(s[..|s| - 1]);
    }
  }

  /** Python's `s.strip()`: leading and trailing whitespace removed. */
  function Strip(s: string): (r: string)
    ensures |r| <= |s|
  {
    StripRight(StripLeft(s))
  }

  /** The stripped text neither starts nor ends with whitespace. */
  lemma StripEnds(s: string)
    ensures var r := Strip(s); r == [] || (!IsSpace(r[0]) && !IsSpace(r[|r| - 1]))
  {
    var l := StripLeft(s);
    StripLeftSpec(s);
    StripRightSpec(l);
    if StripRight(l) != [] {
      assert StripRight(l)[0] == l[0];
    }
  }

  /** Stripping keeps a prefix that begins and ends with non-space characters. */
  lemma {:induction false} StripKeepsPrefix(p: string, x: string)
    requires |p| > 0 && !IsSpace(p[0]) && !IsSpace(p[|p| - 1])
    ensures p <= Strip(p + x)
  {
    assert StripLeft(p + x) == p + x;
    StripRightKeepsPrefix(p, x);
  }

  lemma {:induction false} StripRightKeepsPrefix(p: string, x: string)
    requires |p| > 0 && !IsSpace(p[|p| - 1])
    ensures p <= StripRight(p + x)
    decreases |x|
  {
    if x != [] && IsSpace(x[|x| - 1]) {
      assert (p + x)[..|p + x| - 1] == p + x[..|x| - 1];
      StripRightKeepsPrefix(p, x[..|x| - 1]);
    }
  }

  // ---------------------------------------------------------------- numbers

  /**
   * Python's `float(s)` on the decimal forms the devices send: surrounding
   * whitespace, an optional sign, digits with an optional fraction, at least
   * one digit. `None` stands for the `ValueError` that `float` raises.
   */
  function ParseFloat(s: string): Option<real>
  {
    var t := Strip(s);
    if |t| > 0 && (t[0] == '+' || t[0] == '-') then
      match ParseUnsigned(t[1..])
      case None => None
      case Some(v) => Some(if t[0] == '-' then -v else v)
    else
      ParseUnsigned(t)
  }

  function ParseUnsigned(s: string): (r: Option<real>)
    ensures r.Some? ==> r.value >= 0.0
  {
    var k := IndexOf(s, '.');
    var whole := if k < 0 then s else s[..k];
    var frac := if k < 0 then "" else s[k + 1..];
    if AllDigits(whole) && AllDigits(frac) && |whole| + |frac| > 0 then
      Some(DigitsValue(whole) as real + DigitsValue(frac) as real / Pow10(|frac|) as real)
    else
      None
  }

  /** Text without whitespace is left alone by `Strip`. */
  lemma StripNoSpace(s: string)
    requires forall i :: 0 <= i < |s| ==> !IsSpace(s[i])
    ensures Strip(s) == s
  {
    assert StripLeft(s) == s;
  }

  /** A plain run of digits reads as its integer value. */
  lemma ParseUnsignedDigits(s: string)
    requires |s| > 0 && AllDigits(s)
    ensures ParseUnsigned(s) == Some(DigitsValue(s) as real)
  {
    assert '.' !in s by {
      forall i | 0 <= i < |s| ensures s[i] != '.' { assert IsDigit(s[i]); }
    }
    assert IndexOf(s, '.') == -1;
    assert AllDigits("") && DigitsValue("") == 0 && Pow10(0) == 1;
  }

  /** What a well-formed decimal payload reads back as. */
  lemma ParseFloatOfNat(n: nat)
    ensures ParseFloat(NatToString(n)) == Some(n as real)
  {
    var s := NatToString(n);
    NatToStringRoundTrip(n);
    assert forall i :: 0 <= i < |s| ==> !IsSpace(s[i]) by {
      forall i | 0 <= i < |s| ensures !IsSpace(s[i]) { assert IsDigit(s[i]); }
    }
    StripNoSpace(s);
    assert IsDigit(s[0]);
    ParseUnsignedDigits(s);
  }

  /** Text that starts with a non-space character keeps it first when stripped. */
  lemma StripKeepsFirst(s: string)
    requires |s| > 0 && !IsSpace(s[0])
    ensures |Strip(s)| > 0 && Strip(s)[0] == s[0]
  {
    assert StripLeft(s) == s;
    assert s == [s[0]] + s[1..];
    StripRightKeepsPrefix([s[0]], s[1..]);
  }

  /** A payload that starts with a letter is never numeric. */
  lemma ParseFloatLetter(s: string)
    requires |s| > 0 && ('a' <= s[0] <= 'z' || 'A' <= s[0] <= 'Z')
    ensures ParseFloat(s) == None
  {
    StripKeepsFirst(s);
    var t := Strip(s);
    var k := IndexOf(t, '.');
    if k != 0 {
      var whole := if k < 0 then t else t[..k];
      assert whole[0] == s[0];
    }
  }
}
