/** String helpers over `seq<char>`: the parts of Python's `str` that the
    crawler, the analyzer and the recommender use. Case mapping is ASCII
    only; whitespace is Python's full `str.isspace` set. */
module Text {

  type String = seq<char>

  /** Whitespace as `str.strip()` and `str.split()` see it (`str.isspace`):
      the ASCII controls `\t` to `\r` and `\x1c` to `\x1f`, the space,
      `\x85`, the no-break space and the Unicode space separators, line
      and paragraph separators. */
  predicate IsSpace(c: char) {
    || c == ' '
    || '\t' <= c <= '\r'
    || '\U{001C}' <= c <= '\U{001F}'
    || c == '\U{0085}' || c == '\U{00A0}' || c == '\U{1680}'
    || '\U{2000}' <= c <= '\U{200A}'
    || c == '\U{2028}' || c == '\U{2029}' || c == '\U{202F}' || c == '\U{205F}' || c == '\U{3000}'
  }

  function LowerChar(c: char): char {
    if 'A' <= c <= 'Z' then (c as int + 32) as char else c
  }

  function UpperChar(c: char): char {
    if 'a' <= c <= 'z' then (c as int - 32) as char else c
  }

  /** `s.lower()` */
  function Lower(s: String): (r: String)
    ensures |r| == |s|
    ensures forall i :: 0 <= i < |s| ==> r[i] == LowerChar(s[i])
  {
    seq(|s|, i requires 0 <= i < |s| => LowerChar(s[i]))
  }

  /** `s[0].upper() + s[1:]` */
  function Capitalize(s: String): (r: String)
    requires |s| > 0
    ensures |r| == |s| && r[1..] == s[1..] && r[0] == UpperChar(s[0])
  {
    [UpperChar(s[0])] + s[1..]
  }

  /** `p in s` for strings: `p` occurs as a contiguous piece of `s`. */
  predicate Contains(s: String, p: String) {
    exists i | 0 <= i <= |s| :: p <= s[i..]
  }

  predicate StartsWith(s: String, p: String) {
    p <= s
  }

  predicate EndsWith(s: String, p: String) {
    |p| <= |s| && s[|s| - |p|..] == p
  }

  function StripLeft(s: String): String {
    if |s| > 0 && IsSpace(s[0]) then StripLeft(s[1..]) else s
  }

  function StripRight(s: String): String {
    if |s| > 0 && IsSpace(s[|s| - 1]) then StripRight(s[..|s| - 1]) else s
  }

  /** `s.strip()` */
  function Strip(s: String): String {
    StripRight(StripLeft(s))
  }

  lemma {:induction false} StripLeftSpec(s: String)
    ensures var r := StripLeft(s);
      && |r| <= |s| && r == s[|s| - |r|..]
      && (r == [] || !IsSpace(r[0]))
      && forall i :: 0 <= i < |s| - |r| ==> IsSpace(s[i])
  {
    if |s| > 0 && IsSpace(s[0]) {
      StripLeftSpec(s[1..]);
    }
  }

  lemma {:induction false} StripRightSpec(s: String)
    ensures var r := StripRight(s);
      && |r| <= |s| && r == s[..|r|]
      && (r == [] || !IsSpace(r[|r| - 1]))
      && forall i :: |r| <= i < |s| ==> IsSpace(s[i])
  {
    if |s| > 0 && IsSpace(s[|s| - 1]) {
      StripRightSpec(s[..|s| - 1]);
    }
  }

  /** `s.strip()` is the piece of `s` left once the whitespace at both ends
      is cut off: it neither starts nor ends with whitespace, and everything
      cut off is whitespace. */
  lemma StripSpec(s: String)
    ensures var r := Strip(s);
      exists a, b :: 0 <= a <= b <= |s| && r == s[a..b]
        && (forall i :: 0 <= i < a ==> IsSpace(s[i]))
        && (forall i :: b <= i < |s| ==> IsSpace(s[i]))
        && (r == [] || (!IsSpace(r[0]) && !IsSpace(r[|r| - 1])))
  {
    var l := StripLeft(s);
    StripLeftSpec(s);
    StripRightSpec(l);
    var r := StripRight(l);
    var a := |s| - |l|;
    var b := a + |r|;
    assert r == s[a..b];
    forall i | b <= i < |s| ensures IsSpace(s[i]) {
      assert s[i] == l[i - a];
    }
  }

  /** Stripping adds no character. */
  lemma StripSubset(s: String)
    ensures forall c :: c in Strip(s) ==> c in s
  {
    StripSpec(s);
  }

  lemma StripLeftKeeps(s: String)
    requires s == [] || !IsSpace(s[0])
    ensures StripLeft(s) == s
  {
  }

  lemma StripRightKeeps(s: String)
    requires s == [] || !IsSpace(s[|s| - 1])
    ensures StripRight(s) == s
  {
  }

  /** Stripping twice is stripping once. */
  lemma StripIdempotent(s: String)
    ensures Strip(Strip(s)) == Strip(s)
  {
    var t := Strip(s);
    StripSpec(s);
    StripLeftKeeps(t);
    StripRightKeeps(t);
  }

  /** `s.split(d)`: the pieces between separators, at least one, none holding `d`. */
  function Split(s: String, d: char): (parts: seq<String>)
    ensures |parts| >= 1
    ensures forall k :: 0 <= k < |parts| ==> d !in parts[k]
  {
    if |s| == 0 then [""]
    else
      var rest := Split(s[1..], d);
      if s[0] == d then [""] + rest
      else [[s[0]] + rest[0]] + rest[1..]
  }

  /** `len(s.split())`: the number of maximal runs of non-whitespace. */
  function WordCount(s: String): nat {
    WordsAfter(s, true)
  }

  function WordsAfter(s: String, afterSpace: bool): nat {
    if |s| == 0 then 0
    else (if afterSpace && !IsSpace(s[0]) then 1 else 0) + WordsAfter(s[1..], IsSpace(s[0]))
  }

  /** A string that starts with a non-space character has at least one word. */
  lemma WordCountPositive(s: String)
    requires |s| > 0 && !IsSpace(s[0])
    ensures WordCount(s) >= 1
  {
  }

  /** `sep.join(parts)` */
  function Join(parts: seq<String>, sep: String): String {
    if |parts| == 0 then ""
    else if |parts| == 1 then parts[0]
    else parts[0] + sep + Join(parts[1..], sep)
  }

  function DigitChar(d: nat): char
    requires d < 10
  {
    "0123456789"[d]
  }

  /** `str(n)` for a non-negative integer: decimal digits, no leading zero. */
  function NatToString(n: nat): (r: String)
    ensures |r| >= 1
    ensures forall k :: 0 <= k < |r| ==> '0' <= r[k] <= '9'
    ensures r[0] == '0' ==> n == 0
  {
    if n < 10 then [DigitChar(n)]
    else NatToString(n / 10) + [DigitChar(n % 10)]
  }

  /** Lower-casing commutes with appending a character that has no case. */
  lemma LowerAppendDot(s: String)
    ensures Lower(s + ".") == Lower(s) + "."
  {
  }

  /** Upper-casing the first letter does not change the lower-case form. */
  lemma LowerCapitalize(s: String)
    requires |s| > 0
    ensures Lower(Capitalize(s)) == Lower(s)
  {
    var c := Capitalize(s);
    assert Lower(c)[0] == Lower(s)[0];
    assert forall i :: 1 <= i < |s| ==> Lower(c)[i] == Lower(s)[i];
  }

  /** Appending a '.' cannot create an occurrence of a pattern that does not
      end in '.'. */
  lemma ContainsAppendDot(s: String, p: String)
    requires |p| > 0 && p[|p| - 1] != '.'
    requires !Contains(s, p)
    ensures !Contains(s + ".", p)
  {
    var t := s + ".";
    forall i | 0 <= i <= |t| ensures !(p <= t[i..]) {
      if i + |p| <= |s| {
        assert t[i..i + |p|] == s[i..i + |p|];
        assert !(p <= s[i..]);
      } else if i + |p| == |t| {
        assert t[i + |p| - 1] == '.';
      }
    }
  }

  /** An occurrence survives appending. */
  lemma ContainsExtend(s: String, p: String, t: String)
    requires Contains(s, p)
    ensures Contains(s + t, p)
  {
    var i :| 0 <= i <= |s| && p <= s[i..];
    assert (s + t)[i..] == s[i..] + t;
  }

  /** A string without `c` contains no pattern that holds `c`. */
  lemma NoContainsOfAbsentChar(s: String, p: String, c: char)
    requires c in p && c !in s
    ensures !Contains(s, p)
  {
    var k :| 0 <= k < |p| && p[k] == c;
    forall i | 0 <= i <= |s| ensures !(p <= s[i..]) {
      if i + k < |s| {
        assert s[i + k] != c;
      }
    }
  }
  /** Python's `<` on strings: lexicographic by code point, a proper prefix
      first. */
  predicate Less(a: String, b: String) {
    if |a| == 0 then |b| > 0
    else if |b| == 0 then false
    else if a[0] == b[0] then Less(a[1..], b[1..])
    else a[0] < b[0]
  }

  lemma {:induction false} LessIrreflexive(a: String)
    ensures !Less(a, a)
  {
    if |a| > 0 {
      LessIrreflexive(a[1..]);
    }
  }

  lemma {:induction false} LessTransitive(a: String, b: String, c: String)
    requires Less(a, b) && Less(b, c)
    ensures Less(a, c)
  {
    if |a| > 0 && |b| > 0 && |c| > 0 && a[0] == b[0] == c[0] {
      LessTransitive(a[1..], b[1..], c[1..]);
    }
  }

  lemma {:induction false} LessTotal(a: String, b: String)
    requires a != b
    ensures Less(a, b) || Less(b, a)
  {
    if |a| > 0 && |b| > 0 && a[0] == b[0] {
      assert a == [a[0]] + a[1..] && b == [b[0]] + b[1..];
      LessTotal(a[1..], b[1..]);
    }
  }

  /** A finite non-empty set of strings has a least element. */
  lemma {:induction false} LeastExists(s: set<String>)
    requires s != {}
    ensures exists m :: m in s && forall y :: y in s && y != m ==> Less(m, y)
    decreases |s|
  {
    var x :| x in s;
    if s == {x} {
      assert forall y :: y in s && y != x ==> Less(x, y);
    } else {
      LeastExists(s - {x});
      var m :| m in s - {x} && forall y :: y in s - {x} && y != m ==> Less(m, y);
      if Less(m, x) {
        forall y | y in s && y != m ensures Less(m, y) {
          if y != x {
            assert y in s - {x};
          }
        }
      } else {
        LessTotal(m, x);
        forall y | y in s && y != x ensures Less(x, y) {
          if y != m {
            assert y in s - {x};
            LessTransitive(x, m, y);
          }
        }
      }
    }
  }
}
