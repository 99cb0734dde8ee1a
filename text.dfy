/** The handful of Python string operations the agents rely on, on `seq<char>`:
    `isdigit`, `strip`, `replace(" ", "")`, `split(sep)`, `sep.join(parts)`,
    `replace(old, "")`, `int(digits)`, `str(n)` and the `in` substring test.
    Digits are ASCII; whitespace is the set `str.isspace` accepts (see README). */
module Text {

  // ---------------------------------------------------------------------------
  // Character classes

  predicate IsDigit(c: char) { '0' <= c <= '9' }

  /** `str.isdigit()`: non-empty and every character a digit. */
  predicate AllDigits(s: string) {
    |s| > 0 && forall i :: 0 <= i < |s| ==> IsDigit(s[i])
  }

  /** The whitespace removed by `str.strip()` with no argument (`str.isspace`):
      tab to carriage return, the four separators 0x1C-0x1F, space, 0x85,
      no-break space and the Unicode space separators. */
  predicate IsSpace(c: char) {
    || ('\t' <= c <= '\r')
    || ('\U{001C}' <= c <= ' ')
    || c == '\U{0085}' || c == '\U{00A0}' || c == '\U{1680}'
    || ('\U{2000}' <= c <= '\U{200A}')
    || c == '\U{2028}' || c == '\U{2029}' || c == '\U{202F}' || c == '\U{205F}' || c == '\U{3000}'
  }

  // ---------------------------------------------------------------------------
  // strip

  function TrimStart(s: string): (r: string)
    ensures |r| <= |s| && r == s[|s| - |r|..]
    ensures r != [] ==> !IsSpace(r[0])
    ensures forall i :: 0 <= i < |s| - |r| ==> IsSpace(s[i])
  {
    if |s| > 0 && IsSpace(s[0]) then TrimStart(s[1..]) else s
  }

  function TrimEnd(s: string): (r: string)
    ensures |r| <= |s| && r == s[..|r|]
    ensures r != [] ==> !IsSpace(r[|r| - 1])
    ensures forall i :: |r| <= i < |s| ==> IsSpace(s[i])
  {
    if |s| > 0 && IsSpace(s[|s| - 1]) then TrimEnd(s[..|s| - 1]) else s
  }

  /** `str.strip()`: the result neither starts nor ends with whitespace. */
  function Strip(s: string): (r: string)
    ensures |r| <= |s|
    ensures r != [] ==> !IsSpace(r[0]) && !IsSpace(r[|r| - 1])
  {
    TrimEnd(TrimStart(s))
  }

  /** A string with no surrounding whitespace is left alone by `strip`. */
  lemma StripUnchanged(s: string)
    requires s != [] ==> !IsSpace(s[0]) && !IsSpace(s[|s| - 1])
    ensures Strip(s) == s
  {
  }

  // ---------------------------------------------------------------------------
  // replace(" ", "")

  function RemoveSpaces(s: string): (r: string)
    ensures ' ' !in r
    ensures |r| <= |s|
  {
    if |s| == 0 then ""
    else if s[0] == ' ' then RemoveSpaces(s[1..])
    else [s[0]] + RemoveSpaces(s[1..])
  }

  lemma {:induction false} RemoveSpacesUnchanged(s: string)
    requires ' ' !in s
    ensures RemoveSpaces(s) == s
  {
    if |s| > 0 {
      RemoveSpacesUnchanged(s[1..]);
    }
  }

  /** Removing spaces keeps a last character that is not a space. */
  lemma {:induction false} RemoveSpacesKeepsLast(s: string)
    requires s != [] && s[|s| - 1] != ' '
    ensures RemoveSpaces(s) != [] && RemoveSpaces(s)[|RemoveSpaces(s)| - 1] == s[|s| - 1]
  {
    if |s| > 1 {
      RemoveSpacesKeepsLast(s[1..]);
    }
  }

  // ---------------------------------------------------------------------------
  // split(sep) and sep.join(parts)

  /** `s.split(sep)`: cut at the leftmost non-overlapping occurrences of `sep`. */
  function SplitOn(s: string, sep: string): (r: seq<string>)
    requires |sep| > 0
    ensures |r| >= 1
    decreases |s|
  {
    if |s| < |sep| then [s]
    else if s[..|sep|] == sep then [""] + SplitOn(s[|sep|..], sep)
    else
      var rest := SplitOn(s[1..], sep);
      [[s[0]] + rest[0]] + rest[1..]
  }

  /** `sep.join(parts)`. */
  function JoinOn(parts: seq<string>, sep: string): string {
    if |parts| == 0 then ""
    else if |parts| == 1 then parts[0]
    else parts[0] + sep + JoinOn(parts[1..], sep)
  }

  /** Joining the pieces of a split with the same separator gives back the string. */
  lemma {:induction false} JoinSplit(s: string, sep: string)
    requires |sep| > 0
    ensures JoinOn(SplitOn(s, sep), sep) == s
    decreases |s|
  {
    if |s| < |sep| {
    } else if s[..|sep|] == sep {
      var rest := SplitOn(s[|sep|..], sep);
      JoinSplit(s[|sep|..], sep);
      assert SplitOn(s, sep) == [""] + rest;
      assert JoinOn([""] + rest, sep) == "" + sep + JoinOn(rest, sep);
      assert s == sep + s[|sep|..];
    } else {
      var rest := SplitOn(s[1..], sep);
      var head := [s[0]] + rest[0];
      JoinSplit(s[1..], sep);
      assert SplitOn(s, sep) == [head] + rest[1..];
      if |rest| == 1 {
        assert JoinOn([head] + rest[1..], sep) == head;
        assert rest[0] == s[1..];
      } else {
        assert JoinOn(rest, sep) == rest[0] + sep + JoinOn(rest[1..], sep);
        assert ([head] + rest[1..])[1..] == rest[1..];
        assert JoinOn([head] + rest[1..], sep) == head + sep + JoinOn(rest[1..], sep);
      }
      assert s == [s[0]] + s[1..];
    }
  }

  /** Splitting on a character that does not occur gives the whole string. */
  lemma {:induction false} SplitAbsent(s: string, c: char)
    requires c !in s
    ensures SplitOn(s, [c]) == [s]
  {
    if |s| >= 1 {
      assert s[..1] != [c] by { assert s[..1][0] == s[0]; }
      SplitAbsent(s[1..], c);
      assert s == [s[0]] + s[1..];
    }
  }

  /** Splitting on a character that occurs gives at least two pieces. */
  lemma {:induction false} SplitPresent(s: string, c: char)
    requires c in s
    ensures |SplitOn(s, [c])| >= 2
  {
    if s[..1] == [c] {
    } else {
      assert s[0] != c by { assert s[..1] == [s[0]]; }
      assert c in s[1..] by {
        var k :| 0 <= k < |s| && s[k] == c;
        assert s[1..][k - 1] == c;
      }
      SplitPresent(s[1..], c);
    }
  }

  /** No piece of a split on a character contains that character. */
  lemma {:induction false} SplitPiecesExclude(s: string, c: char)
    ensures forall p :: p in SplitOn(s, [c]) ==> c !in p
  {
    if |s| >= 1 {
      SplitPiecesExclude(s[1..], c);
      if s[..1] != [c] {
        assert s[0] != c by { assert s[..1] == [s[0]]; }
        var rest := SplitOn(s[1..], [c]);
        assert c !in rest[0];
        assert c !in [s[0]] + rest[0];
        assert SplitOn(s, [c]) == [[s[0]] + rest[0]] + rest[1..];
      }
    }
  }

  /** A first piece free of the separator character is split off whole. */
  lemma {:induction false} SplitAfterFree(a: string, t: string, c: char)
    requires c !in a
    ensures SplitOn(a + [c] + t, [c]) == [a] + SplitOn(t, [c])
  {
    var s := a + [c] + t;
    if |a| == 0 {
      assert s[..1] == [c];
      assert s[1..] == t;
    } else {
      assert s[..1] != [c] by { assert s[..1][0] == a[0]; }
      assert s[1..] == a[1..] + [c] + t;
      SplitAfterFree(a[1..], t, c);
      assert [a[0]] + a[1..] == a;
    }
  }

  /** Splitting a join of separator-free pieces gives the pieces back. */
  lemma {:induction false} SplitJoin(ps: seq<string>, c: char)
    requires |ps| >= 1 && forall p :: p in ps ==> c !in p
    ensures SplitOn(JoinOn(ps, [c]), [c]) == ps
  {
    if |ps| == 1 {
      SplitAbsent(ps[0], c);
    } else {
      assert ps[0] in ps;
      assert forall p :: p in ps[1..] ==> p in ps;
      SplitJoin(ps[1..], c);
      SplitAfterFree(ps[0], JoinOn(ps[1..], [c]), c);
      assert [ps[0]] + ps[1..] == ps;
    }
  }

  /** Two pieces free of the separator character split back apart. */
  lemma {:induction false} SplitTwo(a: string, b: string, c: char)
    requires c !in a && c !in b
    ensures SplitOn(a + [c] + b, [c]) == [a, b]
  {
    var s := a + [c] + b;
    if |a| == 0 {
      assert s[..1] == [c];
      assert s[1..] == b;
      SplitAbsent(b, c);
    } else {
      assert s[..1] != [c] by { assert s[..1][0] == a[0]; }
      assert s[1..] == a[1..] + [c] + b;
      SplitTwo(a[1..], b, c);
      assert [a[0]] + a[1..] == a;
    }
  }

  // ---------------------------------------------------------------------------
  // replace(old, "")

  /** `s.replace(pat, "")`: delete the leftmost non-overlapping occurrences of `pat`. */
  function DeleteAll(s: string, pat: string): (r: string)
    requires |pat| > 0
    ensures |r| <= |s|
    decreases |s|
  {
    if |s| < |pat| then s
    else if s[..|pat|] == pat then DeleteAll(s[|pat|..], pat)
    else [s[0]] + DeleteAll(s[1..], pat)
  }

  /** `s.replace(pat, "")` is `"".join(s.split(pat))`. */
  lemma {:induction false} DeleteAllIsJoinOfSplit(s: string, pat: string)
    requires |pat| > 0
    ensures DeleteAll(s, pat) == JoinOn(SplitOn(s, pat), "")
    decreases |s|
  {
    if |s| < |pat| {
    } else if s[..|pat|] == pat {
      DeleteAllIsJoinOfSplit(s[|pat|..], pat);
      var rest := SplitOn(s[|pat|..], pat);
      assert JoinOn([""] + rest, "") == "" + "" + JoinOn(rest, "");
    } else {
      DeleteAllIsJoinOfSplit(s[1..], pat);
      var rest := SplitOn(s[1..], pat);
      if |rest| > 1 {
        assert JoinOn(rest, "") == rest[0] + "" + JoinOn(rest[1..], "");
        assert JoinOn([[s[0]] + rest[0]] + rest[1..], "")
            == ([s[0]] + rest[0]) + "" + JoinOn(rest[1..], "");
      }
    }
  }

  /** A prefix that cannot start an occurrence of `pat` is kept as it is. */
  lemma {:induction false} DeleteAllKeepsPrefix(d: string, rest: string, pat: string)
    requires |pat| > 0 && pat[0] !in d
    ensures DeleteAll(d + rest, pat) == d + DeleteAll(rest, pat)
    decreases |d|
  {
    if |d| == 0 {
      assert d + rest == rest;
    } else {
      var s := d + rest;
      var tail := d[1..];
      assert s[0] == d[0] && d[0] != pat[0];
      assert s[1..] == tail + rest;
      DeleteAllKeepsPrefix(tail, rest, pat);
      if |s| < |pat| {
        assert DeleteAll(s, pat) == s;
        assert DeleteAll(rest, pat) == rest;
      } else {
        assert s[..|pat|] != pat by { assert s[..|pat|][0] == d[0]; }
        assert DeleteAll(s, pat) == [d[0]] + DeleteAll(tail + rest, pat);
        assert [d[0]] + (tail + DeleteAll(rest, pat)) == d + DeleteAll(rest, pat);
      }
    }
  }

  // ---------------------------------------------------------------------------
  // int(digits) and str(n)

  function DigitValue(c: char): nat {
    if IsDigit(c) then c as int - '0' as int else 0
  }

  /** `int(s)` for a string of decimal digits. */
  function DigitsValue(s: string): nat {
    if |s| == 0 then 0 else 10 * DigitsValue(s[..|s| - 1]) + DigitValue(s[|s| - 1])
  }

  function DigitChar(d: nat): (c: char)
    requires d < 10
    ensures IsDigit(c) && DigitValue(c) == d
  {
    ('0' as int + d) as char
  }

  /** `str(n)` for a natural number: decimal digits without leading zeros. */
  function NatToString(n: nat): (r: string)
    ensures AllDigits(r)
  {
    if n < 10 then [DigitChar(n)] else NatToString(n / 10) + [DigitChar(n % 10)]
  }

  /** `str(i)` for any integer. */
  function IntToString(i: int): string {
    if i < 0 then "-" + NatToString(-i) else NatToString(i)
  }

  /** `int(str(n)) == n`. */
  lemma {:induction false} DigitsValueOfNatToString(n: nat)
    ensures DigitsValue(NatToString(n)) == n
  {
    if n >= 10 {
      var s := NatToString(n);
      assert s[..|s| - 1] == NatToString(n / 10);
      DigitsValueOfNatToString(n / 10);
    }
  }

  /** Distinct numbers print differently. */
  lemma NatToStringInjective(m: nat, n: nat)
    requires NatToString(m) == NatToString(n)
    ensures m == n
  {
    DigitsValueOfNatToString(m);
    DigitsValueOfNatToString(n);
  }

  // ---------------------------------------------------------------------------
  // the `in` substring test

  /** `p in s` for strings. */
  predicate Occurs(p: string, s: string)
    decreases |s|
  {
    if |s| < |p| then false else s[..|p|] == p || Occurs(p, s[1..])
  }
}
