/** Sequence and string helpers with Python's semantics: `sep.join`, `split`, `strip`, `str(int)`. */
module Text {

  /** The position of the first `x` in `s`, or `|s|` when there is none. */
  function IndexOf<T(==)>(s: seq<T>, x: T): (i: nat)
    ensures i <= |s|
    ensures i < |s| ==> s[i] == x
    ensures forall j :: 0 <= j < i ==> s[j] != x
  {
    if |s| == 0 then 0
    else if s[0] == x then 0
    else 1 + IndexOf(s[1..], x)
  }

  lemma IndexOfAfter<T>(a: seq<T>, x: T, b: seq<T>)
    requires x !in a
    ensures IndexOf(a + [x] + b, x) == |a|
  {
    assert (a + [x] + b)[|a|] == x;
  }

  lemma IndexOfAbsent<T>(a: seq<T>, x: T)
    requires x !in a
    ensures IndexOf(a, x) == |a|
  {
  }

  /** Python's `sep.join(parts)`. */
  function Join<T>(parts: seq<seq<T>>, sep: T): seq<T>
  {
    if |parts| == 0 then []
    else if |parts| == 1 then parts[0]
    else parts[0] + [sep] + Join(parts[1..], sep)
  }

  /** Python's `s.split(sep)`: the pieces between separators, always at least one. */
  function Split<T(==)>(s: seq<T>, sep: T): (parts: seq<seq<T>>)
    ensures |parts| >= 1
    ensures forall i :: 0 <= i < |parts| ==> sep !in parts[i]
    decreases |s|
  {
    var i := IndexOf(s, sep);
    if i == |s| then [s] else [s[..i]] + Split(s[i + 1..], sep)
  }

  /** Splitting a joined sequence gives back the pieces, provided none of them holds the separator. */
  lemma {:induction false} SplitJoin<T>(parts: seq<seq<T>>, sep: T)
    requires |parts| >= 1
    requires forall i :: 0 <= i < |parts| ==> sep !in parts[i]
    ensures Split(Join(parts, sep), sep) == parts
  {
    if |parts| == 1 {
      IndexOfAbsent(parts[0], sep);
    } else {
      var rest := Join(parts[1..], sep);
      var s := parts[0] + [sep] + rest;
      IndexOfAfter(parts[0], sep, rest);
      assert s[..|parts[0]|] == parts[0];
      assert s[|parts[0]| + 1..] == rest;
      SplitJoin(parts[1..], sep);
      assert [parts[0]] + parts[1..] == parts;
    }
  }

  /** Joining the pieces of a split restores the original sequence. */
  lemma {:induction false} JoinSplit<T>(s: seq<T>, sep: T)
    ensures Join(Split(s, sep), sep) == s
    decreases |s|
  {
    var i := IndexOf(s, sep);
    if i < |s| {
      var head, tail := s[..i], s[i + 1..];
      var rest := Split(tail, sep);
      JoinSplit(tail, sep);
      var parts := [head] + rest;
      assert Split(s, sep) == parts;
      assert parts[1..] == rest;
      calc {
        Join(parts, sep);
        head + [sep] + Join(rest, sep);
        head + [sep] + tail;
        { assert s == head + [sep] + tail; }
        s;
      }
    }
  }

  /** Python's `s.lstrip(c)`: drops every leading `c`. */
  function LStrip<T(==)>(s: seq<T>, c: T): (r: seq<T>)
    ensures |r| <= |s| && r == s[|s| - |r|..]
    ensures r == [] || r[0] != c
    ensures forall k :: 0 <= k < |s| - |r| ==> s[k] == c
  {
    if |s| > 0 && s[0] == c then LStrip(s[1..], c) else s
  }

  /** Python's `s.rstrip(c)`: drops every trailing `c`. */
  function RStrip<T(==)>(s: seq<T>, c: T): (r: seq<T>)
    ensures |r| <= |s| && r == s[..|r|]
    ensures r == [] || r[|r| - 1] != c
    ensures forall k :: |r| <= k < |s| ==> s[k] == c
  {
    if |s| > 0 && s[|s| - 1] == c then RStrip(s[..|s| - 1], c) else s
  }

  /** Python's `s.strip(c)`: the middle of `s` once the `c`s at both ends are gone. */
  function Strip<T(==)>(s: seq<T>, c: T): (r: seq<T>)
    ensures |r| <= |s|
    ensures r == [] || (r[0] != c && r[|r| - 1] != c)
  {
    RStrip(LStrip(s, c), c)
  }

  /** What `strip` removes is `c`s only: `Strip(s, c)` sits in `s` at `i` with only `c`s around it. */
  lemma StripMiddle<T>(s: seq<T>, c: T) returns (i: nat)
    ensures i + |Strip(s, c)| <= |s| && s[i..i + |Strip(s, c)|] == Strip(s, c)
    ensures forall k :: 0 <= k < i ==> s[k] == c
    ensures forall k :: i + |Strip(s, c)| <= k < |s| ==> s[k] == c
  {
    var l := LStrip(s, c);
    var r := RStrip(l, c);
    i := |s| - |l|;
    assert Strip(s, c) == r;
    assert l == s[i..];
    assert r == l[..|r|];
    assert s[i..i + |r|] == r;
    forall k | i + |r| <= k < |s|
      ensures s[k] == c
    {
      assert s[k] == l[k - i];
    }
  }

  /** `rstrip` removes exactly the run of `c`s appended to a sequence that does not end in `c`. */
  lemma {:induction false} RStripTrailing<T>(m: seq<T>, c: T, n: nat)
    requires m == [] || m[|m| - 1] != c
    ensures RStrip(m + seq(n, _ => c), c) == m
  {
    var s := m + seq(n, _ => c);
    if n == 0 {
      assert s == m;
    } else {
      assert s[|s| - 1] == c;
      assert s[..|s| - 1] == m + seq(n - 1, _ => c);
      RStripTrailing(m, c, n - 1);
    }
  }

  /** One leading `c` and any run of trailing `c`s come off a middle that neither starts nor ends in `c`. */
  lemma StripFramed<T>(m: seq<T>, c: T, n: nat)
    requires m != [] && m[0] != c && m[|m| - 1] != c
    ensures Strip([c] + m + seq(n, _ => c), c) == m
  {
    var t := m + seq(n, _ => c);
    assert [c] + m + seq(n, _ => c) == [c] + t;
    assert ([c] + t)[1..] == t;
    assert t[0] == m[0];
    assert LStrip([c] + t, c) == t;
    RStripTrailing(m, c, n);
  }

  /** The decimal digit for `d`. */
  function Digit(d: nat): (ch: char)
    requires d < 10
    ensures IsDigit(ch) && DigitValue(ch) == d
  {
    ('0' as int + d) as char
  }

  predicate IsDigit(ch: char) {
    '0' <= ch <= '9'
  }

  function DigitValue(ch: char): nat
    requires IsDigit(ch)
  {
    ch as int - '0' as int
  }

  /** Python's `str(n)` for a non-negative integer: decimal, no leading zeros. */
  function DecimalString(n: nat): (s: string)
    ensures |s| >= 1
    ensures forall i :: 0 <= i < |s| ==> IsDigit(s[i])
    ensures s[0] == '0' ==> n == 0
  {
    if n < 10 then [Digit(n)] else DecimalString(n / 10) + [Digit(n % 10)]
  }

  /** Python's `str(i)` for any integer. */
  function IntText(i: int): (s: string)
    ensures |s| >= 1
  {
    if i < 0 then "-" + DecimalString(-i) else DecimalString(i)
  }

  /** The value of a string of decimal digits. */
  function ParseDecimal(s: string): nat
    requires forall i :: 0 <= i < |s| ==> IsDigit(s[i])
  {
    if s == [] then 0
    else ParseDecimal(s[..|s| - 1]) * 10 + DigitValue(s[|s| - 1])
  }

  lemma {:induction false} DecimalRoundTrip(n: nat)
    ensures ParseDecimal(DecimalString(n)) == n
  {
    var s := DecimalString(n);
    if n < 10 {
      assert s[..0] == [];
    } else {
      var q, d := n / 10, n % 10;
      assert n == q * 10 + d;
      DecimalRoundTrip(q);
      assert s[..|s| - 1] == DecimalString(q);
      assert DigitValue(s[|s| - 1]) == d;
    }
  }
}
