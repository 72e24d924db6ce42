/** The two Python string operations the service relies on: `sep.join(xs)`
    (over a list of strings and over a string, which iterates its
    characters) and `s.strip()`. */
module PyStr {

  /** Total length of a list of strings. */
  function TotalLength(parts: seq<string>): nat
  {
    if |parts| == 0 then 0 else |parts[0]| + TotalLength(parts[1..])
  }

  /** `sep.join(parts)`: the parts with `sep` between each neighbouring pair. */
  function Join(sep: string, parts: seq<string>): (r: string)
    ensures |parts| == 0 ==> |r| == 0
    ensures |parts| > 0 ==> |r| == TotalLength(parts) + (|parts| - 1) * |sep|
  {
    if |parts| == 0 then ""
    else if |parts| == 1 then parts[0]
    else parts[0] + sep + Join(sep, parts[1..])
  }

  /** The same join built from the right end: the last part is appended
      after one more separator. */
  lemma {:induction false} JoinSnoc(sep: string, parts: seq<string>, last: string)
    requires |parts| > 0
    ensures Join(sep, parts + [last]) == Join(sep, parts) + sep + last
  {
    if |parts| == 1 {
      assert parts + [last] == [parts[0], last];
    } else {
      assert (parts + [last])[1..] == parts[1..] + [last];
      JoinSnoc(sep, parts[1..], last);
    }
  }

  /** A string iterated as Python does: one single-character string per character. */
  function Chars(t: string): (r: seq<string>)
    ensures |r| == |t|
    ensures forall i :: 0 <= i < |t| ==> r[i] == [t[i]]
  {
    seq(|t|, i requires 0 <= i < |t| => [t[i]])
  }

  lemma {:induction false} CharsTotalLength(t: string)
    ensures TotalLength(Chars(t)) == |t|
  {
    if |t| > 0 {
      assert Chars(t)[1..] == Chars(t[1..]);
      CharsTotalLength(t[1..]);
    }
  }

  /** `sep.join(t)` where `t` is a string: `sep` goes between its
      characters, so the result holds every character of `t` plus one
      separator between each neighbouring pair. */
  function JoinChars(sep: string, t: string): (r: string)
    ensures |t| == 0 ==> r == ""
    ensures |t| > 0 ==> |r| == |t| + (|t| - 1) * |sep|
  {
    CharsTotalLength(t);
    Join(sep, Chars(t))
  }

  /** One step of JoinChars: the first character, the separator, then the
      join of the rest. */
  lemma JoinCharsCons(sep: string, t: string)
    requires |t| >= 2
    ensures JoinChars(sep, t) == [t[0]] + sep + JoinChars(sep, t[1..])
  {
    assert Chars(t)[1..] == Chars(t[1..]);
  }

  /** A string of at most one character comes back unchanged, whatever the
      separator: the separator never appears. */
  lemma JoinCharsShort(sep: string, t: string)
    requires |t| <= 1
    ensures JoinChars(sep, t) == t
  {
    if |t| == 1 {
      assert [t[0]] == t;
      assert Chars(t) == [t];
    }
  }

  /** Joining with the empty separator gives the string back. */
  lemma {:induction false} JoinCharsEmptySeparator(t: string)
    ensures JoinChars("", t) == t
  {
    if |t| <= 1 {
      JoinCharsShort("", t);
    } else {
      JoinCharsCons("", t);
      JoinCharsEmptySeparator(t[1..]);
      assert [t[0]] + t[1..] == t;
    }
  }

  /** Every `step`-th character of `s`, starting with the first. */
  function EveryNth(s: string, step: nat): (r: string)
    requires step > 0
    ensures |s| > 0 ==> |r| > 0 && r[0] == s[0]
    decreases |s|
  {
    if |s| == 0 then ""
    else if |s| <= step then [s[0]]
    else [s[0]] + EveryNth(s[step..], step)
  }

  /** Inverse of `sep.join(t)`: taking every (|sep| + 1)-th character of the
      joined string recovers `t`. */
  lemma {:induction false} JoinCharsRoundTrip(sep: string, t: string)
    ensures EveryNth(JoinChars(sep, t), |sep| + 1) == t
  {
    var n := |sep| + 1;
    if |t| <= 1 {
      JoinCharsShort(sep, t);
    } else {
      JoinCharsCons(sep, t);
      var s := JoinChars(sep, t);
      var rest := JoinChars(sep, t[1..]);
      assert s[n..] == rest;
      JoinCharsRoundTrip(sep, t[1..]);
      assert [t[0]] + t[1..] == t;
    }
  }

  /** For a fixed separator, `sep.join(t)` determines `t`. */
  lemma JoinCharsInjective(sep: string, t1: string, t2: string)
    requires JoinChars(sep, t1) == JoinChars(sep, t2)
    ensures t1 == t2
  {
    JoinCharsRoundTrip(sep, t1);
    JoinCharsRoundTrip(sep, t2);
  }

  /** The characters Python's `str.isspace()` accepts, which are the ones
      `str.strip()` removes when called without arguments. */
  predicate IsSpace(c: char)
  {
    || c == ' ' || c == '\t' || c == '\n' || c == '\r'
    || c == '\U{B}' || c == '\U{C}'
    || ('\U{1C}' <= c <= '\U{1F}')
    || c == '\U{85}' || c == '\U{A0}' || c == '\U{1680}'
    || ('\U{2000}' <= c <= '\U{200A}')
    || c == '\U{2028}' || c == '\U{2029}' || c == '\U{202F}' || c == '\U{205F}'
    || c == '\U{3000}'
  }

  /** `s.lstrip()`. */
  function StripLeft(s: string): string
  {
    if |s| > 0 && IsSpace(s[0]) then StripLeft(s[1..]) else s
  }

  /** `s.rstrip()`. */
  function StripRight(s: string): string
  {
    if |s| > 0 && IsSpace(s[|s| - 1]) then StripRight(s[..|s| - 1]) else s
  }

  /** `s.strip()`: never longer than `s`, and what is left neither starts
      nor ends with whitespace. */
  function Strip(s: string): (r: string)
    ensures |r| <= |s|
    ensures |r| > 0 ==> !IsSpace(r[0]) && !IsSpace(r[|r| - 1])
  {
    StripLeftSpec(s);
    StripRightSpec(StripLeft(s));
    StripRight(StripLeft(s))
  }

  /** lstrip drops the leading whitespace and nothing else. */
  lemma {:induction false} StripLeftSpec(s: string)
    ensures var r := StripLeft(s);
            && |r| <= |s| && r == s[|s| - |r|..]
            && (forall k :: 0 <= k < |s| - |r| ==> IsSpace(s[k]))
            && (|r| > 0 ==> !IsSpace(r[0]))
  {
    if |s| > 0 && IsSpace(s[0]) {
      StripLeftSpec(s[1..]);
    }
  }

  /** rstrip drops the trailing whitespace and nothing else. */
  lemma {:induction false} StripRightSpec(s: string)
    ensures var r := StripRight(s);
            && |r| <= |s| && r == s[..|r|]
            && (forall k :: |r| <= k < |s| ==> IsSpace(s[k]))
            && (|r| > 0 ==> !IsSpace(r[|r| - 1]))
  {
    if |s| > 0 && IsSpace(s[|s| - 1]) {
      StripRightSpec(s[..|s| - 1]);
    }
  }

  /** What strip keeps: a middle slice of `s` (from where lstrip stops)
      that neither starts nor ends with whitespace; everything cut off on
      either side is whitespace. */
  lemma StripSlice(s: string)
    ensures var i := |s| - |StripLeft(s)|;
            var j := i + |Strip(s)|;
            && 0 <= i <= j <= |s| && Strip(s) == s[i..j]
            && (forall k :: 0 <= k < i ==> IsSpace(s[k]))
            && (forall k :: j <= k < |s| ==> IsSpace(s[k]))
            && (|Strip(s)| > 0 ==> !IsSpace(Strip(s)[0]) && !IsSpace(Strip(s)[|Strip(s)| - 1]))
  {
    var l := StripLeft(s);
    StripLeftSpec(s);
    StripRightSpec(l);
    var i := |s| - |l|;
    var j := i + |Strip(s)|;
    assert Strip(s) == l[..|Strip(s)|];
    assert Strip(s) == s[i..j];
    if |Strip(s)| > 0 {
      assert Strip(s)[0] == l[0];
    }
  }

  /** Strip gives the empty string exactly when every character is whitespace. */
  lemma StripEmptyIffAllSpace(s: string)
    ensures Strip(s) == "" <==> forall k :: 0 <= k < |s| ==> IsSpace(s[k])
  {
    var l := StripLeft(s);
    StripLeftSpec(s);
    StripRightSpec(l);
    if forall k :: 0 <= k < |s| ==> IsSpace(s[k]) {
      assert l == "";
    }
  }

  /** Stripping twice is stripping once. */
  lemma StripIdempotent(s: string)
    ensures Strip(Strip(s)) == Strip(s)
  {
    var r := Strip(s);
    StripSlice(s);
    if |r| > 0 {
      assert !IsSpace(r[0]);
      assert StripLeft(r) == r;
      assert !IsSpace(r[|r| - 1]);
    } else {
      assert StripLeft(r) == r;
    }
  }
}
