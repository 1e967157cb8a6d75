/**
 * String helpers the bot relies on: `str.strip()` on form input, `str.lower()`
 * and `replace(" ", "-")` when naming ticket channels, and the code-point
 * ordering `sorted()` uses for category names.
 */
module Text {

  /** The characters Python's `str.isspace()` accepts, which `str.strip()` removes from both ends. */
  predicate IsSpace(c: char) {
    var n := c as int;
    n == 0x20 || (0x09 <= n <= 0x0d) || (0x1c <= n <= 0x1f) || n == 0x85 || n == 0xa0 ||
    n == 0x1680 || (0x2000 <= n <= 0x200a) || n == 0x2028 || n == 0x2029 ||
    n == 0x202f || n == 0x205f || n == 0x3000
  }

  /** Drops leading whitespace. */
  function TrimStart(s: string): string {
    if s != [] && IsSpace(s[0]) then TrimStart(s[1..]) else s
  }

  /** Drops trailing whitespace. */
  function TrimEnd(s: string): string {
    if s != [] && IsSpace(s[|s| - 1]) then TrimEnd(s[..|s| - 1]) else s
  }

  /** `TrimStart` leaves the suffix after a run of whitespace, and that suffix does not start
      with whitespace. */
  lemma {:induction false} TrimStartShape(s: string)
    ensures var r := TrimStart(s);
      |r| <= |s| && r == s[|s| - |r|..] &&
      (forall i :: 0 <= i < |s| - |r| ==> IsSpace(s[i])) &&
      (r == [] || !IsSpace(r[0]))
  {
    if s != [] && IsSpace(s[0]) {
      var t := s[1..];
      var r := TrimStart(t);
      TrimStartShape(t);
      assert r == t[|t| - |r|..];
      assert t[|t| - |r|..] == s[|s| - |r|..];
      forall i | 0 <= i < |s| - |r| ensures IsSpace(s[i]) {
        if i > 0 { assert s[i] == t[i - 1]; }
      }
    }
  }

  /** `TrimEnd` leaves the prefix before a run of whitespace, and that prefix does not end with
      whitespace. */
  lemma {:induction false} TrimEndShape(s: string)
    ensures var r := TrimEnd(s);
      |r| <= |s| && r == s[..|r|] &&
      (forall i :: |r| <= i < |s| ==> IsSpace(s[i])) &&
      (r == [] || !IsSpace(r[|r| - 1]))
  {
    if s != [] && IsSpace(s[|s| - 1]) {
      TrimEndShape(s[..|s| - 1]);
    }
  }

  /** Python's `s.strip()`. */
  function Strip(s: string): (r: string)
  {
    TrimEnd(TrimStart(s))
  }

  /** `Strip` leaves a slice of its input that neither starts nor ends with whitespace, and
      everything it cut off was whitespace. */
  lemma StripShape(s: string)
    ensures var r, k := Strip(s), |s| - |TrimStart(s)|;
      (r == [] || (!IsSpace(r[0]) && !IsSpace(r[|r| - 1]))) &&
      0 <= k <= |s| - |r| && r == s[k..k + |r|] &&
      (forall i :: 0 <= i < k ==> IsSpace(s[i])) &&
      (forall i :: k + |r| <= i < |s| ==> IsSpace(s[i]))
  {
    var t := TrimStart(s);
    var r := TrimEnd(t);
    var k := |s| - |t|;
    TrimStartShape(s);
    TrimEndShape(t);
    assert t == s[k..];
    assert r == t[..|r|];
    assert r == s[k..k + |r|];
    forall i | k + |r| <= i < |s| ensures IsSpace(s[i]) {
      assert |r| <= i - k < |t|;
      assert s[i] == t[i - k];
    }
  }

  /** Stripping twice is stripping once: `AddItemModal` and `EditItemModal` store stripped
      names, and stripping a stored name again changes nothing. */
  lemma StripIdempotent(s: string)
    ensures Strip(Strip(s)) == Strip(s)
  {
    var r := Strip(s);
    StripShape(s);
    assert TrimStart(r) == r;
    assert TrimEnd(r) == r;
  }

  /** Lower-casing of one character, for the ASCII range only. */
  function LowerChar(c: char): char {
    if 'A' <= c <= 'Z' then (c as int + 32) as char else c
  }

  predicate IsUpper(c: char) {
    'A' <= c <= 'Z'
  }

  /** Python's `s.lower()` restricted to ASCII upper-case letters. */
  function Lower(s: string): (r: string)
    ensures |r| == |s|
    ensures forall i :: 0 <= i < |s| ==> r[i] == LowerChar(s[i])
  {
    if s == [] then [] else [LowerChar(s[0])] + Lower(s[1..])
  }

  /** `s.replace(" ", "-")`. */
  function DashSpaces(s: string): (r: string)
    ensures |r| == |s|
    ensures forall i :: 0 <= i < |s| ==> r[i] == (if s[i] == ' ' then '-' else s[i])
  {
    if s == [] then [] else [if s[0] == ' ' then '-' else s[0]] + DashSpaces(s[1..])
  }

  /** The channel-name normalisation of ShopBot.py:358 and :617, `.lower().replace(" ", "-")`. */
  function ChannelName(s: string): (r: string)
  {
    DashSpaces(Lower(s))
  }

  /** A channel name has the input's length, no space and no ASCII capital; spaces became dashes
      and every other character is the input's own, lower-cased. */
  lemma ChannelNameShape(s: string)
    ensures var r := ChannelName(s);
      |r| == |s| &&
      (forall i :: 0 <= i < |r| ==> r[i] != ' ' && !IsUpper(r[i])) &&
      (forall i :: 0 <= i < |s| ==> r[i] == if s[i] == ' ' then '-' else LowerChar(s[i]))
  {
  }

  /** Normalising a channel name that is already normal changes nothing. */
  lemma ChannelNameIdempotent(s: string)
    ensures ChannelName(ChannelName(s)) == ChannelName(s)
  {
    var r := ChannelName(s);
    ChannelNameShape(s);
    ChannelNameShape(r);
    assert forall i :: 0 <= i < |r| ==> ChannelName(r)[i] == r[i];
  }

  /** Python's string comparison `a <= b`: lexicographic by code point, a prefix first. */
  predicate LexLessEq(a: string, b: string)
    decreases |a|
  {
    a == [] || (b != [] && (a[0] < b[0] || (a[0] == b[0] && LexLessEq(a[1..], b[1..]))))
  }

  lemma {:induction false} LexTotal(a: string, b: string)
    ensures LexLessEq(a, b) || LexLessEq(b, a)
    decreases |a|
  {
    if a != [] && b != [] && a[0] == b[0] {
      LexTotal(a[1..], b[1..]);
    }
  }

  lemma {:induction false} LexAntisymmetric(a: string, b: string)
    requires LexLessEq(a, b) && LexLessEq(b, a)
    ensures a == b
    decreases |a|
  {
    if a != [] {
      LexAntisymmetric(a[1..], b[1..]);
      assert a == [a[0]] + a[1..] && b == [b[0]] + b[1..];
    }
  }

  lemma {:induction false} LexTransitive(a: string, b: string, c: string)
    requires LexLessEq(a, b) && LexLessEq(b, c)
    ensures LexLessEq(a, c)
    decreases |a|
  {
    if a != [] && a[0] == b[0] && b[0] == c[0] {
      LexTransitive(a[1..], b[1..], c[1..]);
    }
  }

  predicate IsLeast(m: string, s: set<string>) {
    m in s && forall y :: y in s ==> LexLessEq(m, y)
  }

  /** Every non-empty finite set of strings has a least element. */
  lemma {:induction false} LeastExists(s: set<string>)
    requires s != {}
    ensures exists m :: IsLeast(m, s)
    decreases |s|
  {
    var x :| x in s;
    if s == {x} {
      assert LexLessEq(x, x) by { LexTotal(x, x); }
      assert IsLeast(x, s);
    } else {
      var rest := s - {x};
      LeastExists(rest);
      var m :| IsLeast(m, rest);
      LexTotal(m, x);
      if LexLessEq(m, x) {
        assert IsLeast(m, s);
      } else {
        forall y | y in s ensures LexLessEq(x, y) {
          if y == x { LexTotal(x, x); } else { LexTransitive(x, m, y); }
        }
        assert IsLeast(x, s);
      }
    }
  }

  /** Two least elements of a set are the same string. */
  lemma LeastUnique(s: set<string>)
    ensures forall m, m' :: IsLeast(m, s) && IsLeast(m', s) ==> m == m'
  {
    forall m, m' | IsLeast(m, s) && IsLeast(m', s) ensures m == m' {
      LexAntisymmetric(m, m');
    }
  }

  /** `sorted(keys)`: the set's elements in ascending code-point order, each once. */
  function SortedKeys(s: set<string>): (r: seq<string>)
    ensures |r| == |s|
    ensures forall x :: x in r <==> x in s
    ensures forall i, j :: 0 <= i < j < |r| ==> LexLessEq(r[i], r[j]) && r[i] != r[j]
    decreases |s|
  {
    if s == {} then []
    else
      LeastExists(s);
      LeastUnique(s);
      var m :| IsLeast(m, s);
      var tail := SortedKeys(s - {m});
      assert forall i :: 0 <= i < |tail| ==> tail[i] in s - {m};
      [m] + tail
  }
}
