/**
 * The handful of Python string operations the backend relies on, written out
 * over `string` (a sequence of characters): `str()` of a non-negative int,
 * `sep.join(parts)`, `s.split(c)`, the substring test `sub in s`,
 * `s.strip()` and `s.upper()`.
 */
module Text {

  /** The character of a decimal digit. */
  function DigitChar(d: nat): (c: char)
    requires d < 10
    ensures '0' <= c <= '9'
    ensures (c == '0') == (d == 0)
  {
    (('0' as int) + d) as char
  }

  predicate IsDigitString(s: string)
  {
    forall k :: 0 <= k < |s| ==> '0' <= s[k] <= '9'
  }

  /** `str(n)` for n >= 0: decimal digits, most significant first, no leading zero. */
  function NatToString(n: nat): (s: string)
    ensures 1 <= |s| && IsDigitString(s)
    ensures (s[0] == '0') == (n == 0)
    ensures |s| > 1 ==> s[0] != '0'
  {
    if n < 10 then [DigitChar(n)] else NatToString(n / 10) + [DigitChar(n % 10)]
  }

  /** Reads a string of decimal digits back as a number (Python's `int(s)`, for digits only). */
  function ParseDecimal(s: string): nat
    requires IsDigitString(s)
  {
    if s == [] then 0 else 10 * ParseDecimal(s[..|s| - 1]) + (s[|s| - 1] as int - '0' as int)
  }

  /** Reading back what `str` wrote gives the number again. */
  lemma {:induction false} ParseNatToString(n: nat)
    ensures ParseDecimal(NatToString(n)) == n
  {
    if n >= 10 {
      var s := NatToString(n);
      assert s[..|s| - 1] == NatToString(n / 10);
      ParseNatToString(n / 10);
    }
  }

  /** Different numbers are written differently. */
  lemma NatToStringInjective(m: nat, n: nat)
    requires NatToString(m) == NatToString(n)
    ensures m == n
  {
    ParseNatToString(m);
    ParseNatToString(n);
  }

  /** `sep.join(parts)`: the parts with `sep` between consecutive ones; `""` for no parts. */
  function Join(parts: seq<string>, sep: string): string
    decreases |parts|
  {
    if |parts| == 0 then ""
    else if |parts| == 1 then parts[0]
    else parts[0] + sep + Join(parts[1..], sep)
  }

  /** Position of the first occurrence of `c` in `s`. */
  function IndexOf(s: string, c: char): (i: nat)
    requires c in s
    ensures i < |s| && s[i] == c && c !in s[..i]
  {
    if s[0] == c then 0 else 1 + IndexOf(s[1..], c)
  }

  /** `s.split(c)` for a one-character separator: never empty, and no piece holds `c`. */
  function SplitOn(s: string, c: char): (parts: seq<string>)
    ensures |parts| >= 1
    ensures forall k :: 0 <= k < |parts| ==> c !in parts[k]
    decreases |s|
  {
    if c !in s then [s]
    else
      var i := IndexOf(s, c);
      [s[..i]] + SplitOn(s[i + 1..], c)
  }

  lemma IndexOfSeparator(a: string, c: char, b: string)
    requires c !in a
    ensures c in a + [c] + b && IndexOf(a + [c] + b, c) == |a|
  {
    var s := a + [c] + b;
    assert s[|a|] == c;
  }

  /** The first piece ends at the first separator. */
  lemma SplitAtFirst(a: string, c: char, b: string)
    requires c !in a
    ensures SplitOn(a + [c] + b, c) == [a] + SplitOn(b, c)
  {
    var s := a + [c] + b;
    IndexOfSeparator(a, c, b);
    assert s[..|a|] == a;
    assert s[|a| + 1..] == b;
  }

  /** Splitting what `join` produced gives the parts back, when no part holds the separator. */
  lemma {:induction false} SplitJoin(parts: seq<string>, c: char)
    requires |parts| >= 1
    requires forall k :: 0 <= k < |parts| ==> c !in parts[k]
    ensures SplitOn(Join(parts, [c]), c) == parts
    decreases |parts|
  {
    if |parts| > 1 {
      var rest := Join(parts[1..], [c]);
      assert Join(parts, [c]) == parts[0] + [c] + rest;
      SplitAtFirst(parts[0], c, rest);
      SplitJoin(parts[1..], c);
      assert parts == [parts[0]] + parts[1..];
    } else {
      assert Join(parts, [c]) == parts[0];
    }
  }

  /** Splitting at a separator between `a` and `b` splits `a` and `b` apart. */
  lemma {:induction false} SplitOnConcat(a: string, b: string, c: char)
    ensures SplitOn(a + [c] + b, c) == SplitOn(a, c) + SplitOn(b, c)
    decreases |a|
  {
    if c !in a {
      SplitAtFirst(a, c, b);
    } else {
      var i := IndexOf(a, c);
      var head, tail := a[..i], a[i + 1..];
      assert a == head + [c] + tail;
      calc {
        SplitOn(a + [c] + b, c);
        { assert a + [c] + b == head + [c] + (tail + [c] + b); }
        SplitOn(head + [c] + (tail + [c] + b), c);
        { SplitAtFirst(head, c, tail + [c] + b); }
        [head] + SplitOn(tail + [c] + b, c);
        { SplitOnConcat(tail, b, c); }
        [head] + (SplitOn(tail, c) + SplitOn(b, c));
        { SplitAtFirst(head, c, tail); }
        SplitOn(a, c) + SplitOn(b, c);
      }
    }
  }

  /** Python's `sub in s`. */
  predicate Contains(s: string, sub: string)
    decreases |s|
  {
    sub <= s || (|s| > 0 && Contains(s[1..], sub))
  }

  /** An occurrence of `sub` cannot begin inside a prefix that lacks `sub`'s first character. */
  lemma {:induction false} ContainsSkipPrefix(a: string, b: string, sub: string)
    requires |sub| > 0 && sub[0] !in a
    ensures Contains(a + b, sub) ==> Contains(b, sub)
    decreases |a|
  {
    if |a| > 0 {
      assert (a + b)[0] == a[0];
      assert (a + b)[1..] == a[1..] + b;
      ContainsSkipPrefix(a[1..], b, sub);
    } else {
      assert a + b == b;
    }
  }

  /** No three consecutive characters of `s` spell `w`. */
  predicate WindowFree(s: string, w: string)
    requires |w| == 3
  {
    forall i :: 0 <= i && i + 2 < |s| ==> !(s[i] == w[0] && s[i + 1] == w[1] && s[i + 2] == w[2])
  }

  /** Two window-free strings stay window-free when joined, if the four characters around the seam do. */
  lemma WindowFreeConcat(a: string, b: string, w: string)
    requires |w| == 3 && |a| >= 2 && |b| >= 2
    requires WindowFree(a, w) && WindowFree(b, w)
    requires WindowFree(a[|a| - 2..] + b[..2], w)
    ensures WindowFree(a + b, w)
  {
    var s := a + b;
    var seam := a[|a| - 2..] + b[..2];
    forall i | 0 <= i && i + 2 < |s|
      ensures !(s[i] == w[0] && s[i + 1] == w[1] && s[i + 2] == w[2])
    {
      if i + 2 < |a| {
        assert s[i] == a[i] && s[i + 1] == a[i + 1] && s[i + 2] == a[i + 2];
      } else if i >= |a| {
        var j := i - |a|;
        assert s[i] == b[j] && s[i + 1] == b[j + 1] && s[i + 2] == b[j + 2];
      } else {
        var j := i - (|a| - 2);
        assert s[i] == seam[j] && s[i + 1] == seam[j + 1] && s[i + 2] == seam[j + 2];
      }
    }
  }

  /** A string lacking some three consecutive characters of `sub` does not contain `sub`. */
  lemma {:induction false} NotContainsByWindow(s: string, sub: string, m: nat)
    requires m + 3 <= |sub|
    requires WindowFree(s, sub[m..m + 3])
    ensures !Contains(s, sub)
    decreases |s|
  {
    if |s| > 0 {
      if sub <= s {
        PrefixWindow(s, sub, m);
        assert false;
      }
      NotContainsByWindow(s[1..], sub, m);
    }
  }

  lemma PrefixWindow(s: string, sub: string, m: nat)
    requires sub <= s && m + 3 <= |sub|
    ensures s[m] == sub[m] && s[m + 1] == sub[m + 1] && s[m + 2] == sub[m + 2]
  {
  }

  /** The characters Python's `str.isspace()` accepts, which `str.strip()` removes. */
  predicate IsSpace(c: char)
  {
    || c == ' ' || ('\t' <= c <= '\r')
    || ('\U{1C}' <= c <= '\U{1F}')
    || c == '\U{85}' || c == '\U{A0}' || c == '\U{1680}'
    || ('\U{2000}' <= c <= '\U{200A}')
    || c == '\U{2028}' || c == '\U{2029}' || c == '\U{202F}' || c == '\U{205F}' || c == '\U{3000}'
  }

  predicate AllSpace(s: string)
  {
    forall k :: 0 <= k < |s| ==> IsSpace(s[k])
  }

  function StripLeft(s: string): string
  {
    if |s| > 0 && IsSpace(s[0]) then StripLeft(s[1..]) else s
  }

  function StripRight(s: string): string
  {
    if |s| > 0 && IsSpace(s[|s| - 1]) then StripRight(s[..|s| - 1]) else s
  }

  /** `s.strip()`: leading and trailing whitespace removed. */
  function Strip(s: string): string
  {
    StripRight(StripLeft(s))
  }

  /** Dropping the last character cannot create an occurrence. */
  lemma {:induction false} ContainsInit(s: string, sub: string)
    requires |s| > 0
    ensures Contains(s[..|s| - 1], sub) ==> Contains(s, sub)
    decreases |s|
  {
    var init := s[..|s| - 1];
    if Contains(init, sub) && !(sub <= init) {
      assert init[1..] == s[1..][..|s| - 2];
      ContainsInit(s[1..], sub);
    }
  }

  /** Trailing whitespace never ends an occurrence of a `sub` that ends in a non-space. */
  lemma {:induction false} ContainsDropLast(s: string, sub: string)
    requires |s| > 0 && IsSpace(s[|s| - 1])
    requires |sub| > 0 && !IsSpace(sub[|sub| - 1])
    ensures Contains(s[..|s| - 1], sub) <==> Contains(s, sub)
    decreases |s|
  {
    ContainsInit(s, sub);
    var init := s[..|s| - 1];
    if Contains(s, sub) {
      if sub <= s {
        assert |sub| < |s|;
        assert sub <= init;
      } else {
        assert |s| > 1;
        ContainsDropLast(s[1..], sub);
        assert init[1..] == s[1..][..|s| - 2];
      }
    }
  }

  lemma {:induction false} ContainsStripLeft(s: string, sub: string)
    requires |sub| > 0 && !IsSpace(sub[0])
    ensures Contains(StripLeft(s), sub) <==> Contains(s, sub)
    decreases |s|
  {
    if |s| > 0 && IsSpace(s[0]) {
      ContainsStripLeft(s[1..], sub);
      assert !(sub <= s);
    }
  }

  lemma {:induction false} ContainsStripRight(s: string, sub: string)
    requires |sub| > 0 && !IsSpace(sub[|sub| - 1])
    ensures Contains(StripRight(s), sub) <==> Contains(s, sub)
    decreases |s|
  {
    if |s| > 0 && IsSpace(s[|s| - 1]) {
      ContainsStripRight(s[..|s| - 1], sub);
      ContainsDropLast(s, sub);
    }
  }

  /**
   * `strip` removes whitespace only at the ends, so it neither adds nor
   * removes an occurrence of a `sub` that starts and ends with a non-space.
   */
  lemma ContainsStrip(s: string, sub: string)
    requires |sub| > 0 && !IsSpace(sub[0]) && !IsSpace(sub[|sub| - 1])
    ensures Contains(Strip(s), sub) <==> Contains(s, sub)
  {
    ContainsStripLeft(s, sub);
    ContainsStripRight(StripLeft(s), sub);
  }

  /** A string that neither starts nor ends with whitespace is its own strip. */
  lemma StripUnpadded(s: string)
    requires |s| > 0 && !IsSpace(s[0]) && !IsSpace(s[|s| - 1])
    ensures Strip(s) == s
  {
  }

  lemma {:induction false} StripLeftPadding(pad: string, s: string)
    requires AllSpace(pad)
    ensures StripLeft(pad + s) == StripLeft(s)
    decreases |pad|
  {
    if |pad| > 0 {
      assert (pad + s)[0] == pad[0];
      assert (pad + s)[1..] == pad[1..] + s;
      StripLeftPadding(pad[1..], s);
    } else {
      assert pad + s == s;
    }
  }

  lemma {:induction false} StripRightPadding(s: string, pad: string)
    requires AllSpace(pad)
    ensures StripRight(s + pad) == StripRight(s)
    decreases |pad|
  {
    if |pad| > 0 {
      var t := s + pad;
      assert t[|t| - 1] == pad[|pad| - 1];
      assert t[..|t| - 1] == s + pad[..|pad| - 1];
      StripRightPadding(s, pad[..|pad| - 1]);
    } else {
      assert s + pad == s;
    }
  }

  /** Whitespace after a string that has a non-space character survives `StripLeft`. */
  lemma {:induction false} StripLeftAppend(s: string, pad: string)
    ensures AllSpace(s) ==> StripLeft(s + pad) == StripLeft(pad)
    ensures !AllSpace(s) ==> StripLeft(s + pad) == StripLeft(s) + pad
    decreases |s|
  {
    if |s| == 0 {
      assert s + pad == pad;
    } else {
      var t := s + pad;
      assert t[0] == s[0];
      assert t[1..] == s[1..] + pad;
      StripLeftAppend(s[1..], pad);
      if IsSpace(s[0]) {
        assert AllSpace(s) <==> AllSpace(s[1..]);
      }
    }
  }

  lemma StripLeftAllSpace(s: string)
    requires AllSpace(s)
    ensures StripLeft(s) == ""
  {
    StripLeftPadding(s, "");
    assert s + "" == s;
  }

  /** `strip()` ignores whitespace added on either side. */
  lemma StripPadding(left: string, s: string, right: string)
    requires AllSpace(left) && AllSpace(right)
    ensures Strip(left + s + right) == Strip(s)
  {
    assert left + s + right == left + (s + right);
    StripLeftPadding(left, s + right);
    StripLeftAppend(s, right);
    if AllSpace(s) {
      StripLeftAllSpace(right);
      StripLeftAllSpace(s);
    } else {
      StripRightPadding(StripLeft(s), right);
    }
  }

  /** `c.upper()` for ASCII letters; every other character is kept. */
  function UpperChar(c: char): (u: char)
    ensures IsSpace(u) == IsSpace(c)
  {
    if 'a' <= c <= 'z' then (c as int - 32) as char else c
  }

  /** `s.upper()`, character by character. */
  function Upper(s: string): (u: string)
    ensures |u| == |s|
  {
    seq(|s|, k requires 0 <= k < |s| => UpperChar(s[k]))
  }

  /** `"" + c * n`: `n` copies of `c`. */
  function Repeat(c: char, n: nat): (s: string)
    ensures |s| == n
    ensures forall k :: 0 <= k < n ==> s[k] == c
  {
    if n == 0 then "" else Repeat(c, n - 1) + [c]
  }

  lemma {:induction false} UpperStripLeft(s: string)
    ensures Upper(StripLeft(s)) == StripLeft(Upper(s))
    decreases |s|
  {
    if |s| > 0 {
      assert Upper(s)[0] == UpperChar(s[0]);
      assert Upper(s)[1..] == Upper(s[1..]);
      UpperStripLeft(s[1..]);
    }
  }

  lemma {:induction false} UpperStripRight(s: string)
    ensures Upper(StripRight(s)) == StripRight(Upper(s))
    decreases |s|
  {
    if |s| > 0 {
      assert Upper(s)[|s| - 1] == UpperChar(s[|s| - 1]);
      assert Upper(s)[..|s| - 1] == Upper(s[..|s| - 1]);
      UpperStripRight(s[..|s| - 1]);
    }
  }

  /** Upper-casing and stripping commute, because whitespace has no case. */
  lemma UpperStrip(s: string)
    ensures Upper(Strip(s)) == Strip(Upper(s))
  {
    UpperStripLeft(s);
    UpperStripRight(StripLeft(s));
  }

  lemma UpperConcat(a: string, b: string)
    ensures Upper(a + b) == Upper(a) + Upper(b)
  {
  }
}
