/** The pieces of Go's `strings` and `fmt` packages that endpoint resolution relies on,
    stated over Dafny strings (sequences of Unicode scalar values). */
module GoStrings {

  // ---------------------------------------------------------------------------
  // strings.TrimSpace
  // ---------------------------------------------------------------------------

  /** unicode.IsSpace: ASCII tab, line feed, vertical tab, form feed, carriage return
      and space, plus NEL, NBSP and the other characters with the White_Space property. */
  predicate IsSpace(c: char) {
    c == ' ' || c == '\t' || c == '\n' || c == '\U{000B}' || c == '\U{000C}' || c == '\r'
    || c == '\U{0085}' || c == '\U{00A0}' || c == '\U{1680}'
    || ('\U{2000}' <= c <= '\U{200A}')
    || c == '\U{2028}' || c == '\U{2029}' || c == '\U{202F}' || c == '\U{205F}' || c == '\U{3000}'
  }

  /** Every character of `s` from index `lo` up to (not including) `hi` is white space. */
  predicate SpaceBetween(s: string, lo: int, hi: int)
    requires 0 <= lo <= hi <= |s|
  {
    forall k :: lo <= k < hi ==> IsSpace(s[k])
  }

  predicate AllSpace(s: string) {
    SpaceBetween(s, 0, |s|)
  }

  /** Where the text of `s` starts when scanning from `lo`: the first index at or after `lo`
      that is not white space, or `|s|` when there is none. */
  function ContentStart(s: string, lo: nat): (r: nat)
    requires lo <= |s|
    ensures lo <= r <= |s| && SpaceBetween(s, lo, r)
    ensures r == |s| || !IsSpace(s[r])
    decreases |s| - lo
  {
    if lo < |s| && IsSpace(s[lo]) then ContentStart(s, lo + 1) else lo
  }

  /** Where the text of `s[lo..hi]` ends: the least index after which everything up to `hi`
      is white space, and `lo` when all of it is. */
  function ContentEnd(s: string, lo: nat, hi: nat): (r: nat)
    requires lo <= hi <= |s|
    ensures lo <= r <= hi && SpaceBetween(s, r, hi)
    ensures r == lo || !IsSpace(s[r - 1])
    decreases hi
  {
    if lo < hi && IsSpace(s[hi - 1]) then ContentEnd(s, lo, hi - 1) else hi
  }

  /** strings.TrimSpace: `s` with leading and trailing white space removed. The result is the
      piece of `s` between an all-white-space prefix and an all-white-space suffix, it neither
      starts nor ends with white space, and it is empty exactly when `s` is all white space. */
  function TrimSpace(s: string): (r: string)
    ensures |r| <= |s|
    ensures exists i, j :: 0 <= i <= j <= |s| && r == s[i..j] && SpaceBetween(s, 0, i) && SpaceBetween(s, j, |s|)
    ensures r == [] || (!IsSpace(r[0]) && !IsSpace(r[|r| - 1]))
    ensures r == [] <==> AllSpace(s)
  {
    var i := ContentStart(s, 0);
    var j := ContentEnd(s, i, |s|);
    assert i < j ==> s[i..j][0] == s[i] && s[i..j][j - i - 1] == s[j - 1];
    assert i == j ==> i == |s|;
    s[i..j]
  }

  /** Trimming twice is trimming once. */
  lemma TrimSpaceIdempotent(s: string)
    ensures TrimSpace(TrimSpace(s)) == TrimSpace(s)
  {
  }

  // ---------------------------------------------------------------------------
  // strings.Split with a one-character separator, and its inverse strings.Join
  // ---------------------------------------------------------------------------

  /** strings.Join(parts, string(sep)) for a non-empty list of parts, the inverse of Split
      (which never returns an empty list); Go's Join of no parts, the empty string, is not needed. */
  function Join(parts: seq<string>, sep: char): (r: string)
    requires |parts| >= 1
    ensures |parts| == 1 ==> r == parts[0]
  {
    if |parts| == 1 then parts[0] else parts[0] + [sep] + Join(parts[1..], sep)
  }

  /** strings.Split(s, string(sep)): the pieces of `s` between occurrences of `sep`.
      There is always at least one piece (the empty string splits into one empty piece),
      no piece contains `sep`, and joining the pieces with `sep` gives `s` back. */
  function Split(s: string, sep: char): (r: seq<string>)
    ensures |r| >= 1
    ensures forall i :: 0 <= i < |r| ==> sep !in r[i]
    ensures Join(r, sep) == s
  {
    if |s| == 0 then [""]
    else
      var rest := Split(s[1..], sep);
      if s[0] == sep then
        assert s == [sep] + s[1..];
        [""] + rest
      else
        var r := [[s[0]] + rest[0]] + rest[1..];
        assert r[1..] == rest[1..];
        assert Join(r, sep) == [s[0]] + Join(rest, sep);
        assert s == [s[0]] + s[1..];
        r
  }

  /** A text that starts with a separator-free piece `p` splits into `p` glued to the
      first piece of the rest, followed by the rest's other pieces. */
  lemma {:induction false} SplitAfterPrefix(p: string, t: string, sep: char)
    requires sep !in p
    ensures Split(p + t, sep) == [p + Split(t, sep)[0]] + Split(t, sep)[1..]
    decreases |p|
  {
    var st := Split(t, sep);
    if p == [] {
      assert p + t == t;
      assert p + st[0] == st[0];
      assert st == [st[0]] + st[1..];
    } else {
      assert (p + t)[0] == p[0] != sep;
      assert (p + t)[1..] == p[1..] + t;
      SplitAfterPrefix(p[1..], t, sep);
      var rest := Split(p[1..] + t, sep);
      assert rest[0] == p[1..] + st[0];
      assert rest[1..] == st[1..];
      assert [p[0]] + (p[1..] + st[0]) == p + st[0];
    }
  }

  /** Split undoes Join: pieces that do not contain the separator are recovered exactly. */
  lemma {:induction false} SplitJoin(parts: seq<string>, sep: char)
    requires |parts| >= 1
    requires forall i :: 0 <= i < |parts| ==> sep !in parts[i]
    ensures Split(Join(parts, sep), sep) == parts
    decreases |parts|
  {
    if |parts| == 1 {
      SplitAfterPrefix(parts[0], "", sep);
      assert parts[0] + "" == parts[0];
    } else {
      var rest := Join(parts[1..], sep);
      SplitJoin(parts[1..], sep);
      assert Join(parts, sep) == parts[0] + ([sep] + rest);
      SplitAfterPrefix(parts[0], [sep] + rest, sep);
      assert ([sep] + rest)[1..] == rest;
      assert Split([sep] + rest, sep) == [""] + parts[1..];
      assert parts[0] + "" == parts[0];
      assert parts == [parts[0]] + parts[1..];
    }
  }

  // ---------------------------------------------------------------------------
  // strings.SplitN(s, string(sep), 2)
  // ---------------------------------------------------------------------------

  /** strings.SplitN(s, string(sep), 2): `s` cut at its first `sep` into the text before it
      and everything after it, or `s` alone when it holds no `sep`. */
  function SplitAtFirst(s: string, sep: char): (r: seq<string>)
    ensures |r| == 1 || |r| == 2
    ensures |r| == 1 <==> sep !in s
    ensures |r| == 1 ==> r[0] == s
    ensures |r| == 2 ==> sep !in r[0] && s == r[0] + [sep] + r[1]
  {
    if |s| == 0 then [s]
    else if s[0] == sep then
      assert s == "" + [sep] + s[1..];
      ["", s[1..]]
    else
      var t := SplitAtFirst(s[1..], sep);
      assert s == [s[0]] + s[1..];
      if |t| == 1 then [s] else [[s[0]] + t[0], t[1]]
  }

  /** The cut is unique: a text made of a separator-free head, the separator and a tail
      is cut into exactly that head and tail. */
  lemma {:induction false} SplitAtFirstOf(head: string, tail: string, sep: char)
    requires sep !in head
    ensures SplitAtFirst(head + [sep] + tail, sep) == [head, tail]
    decreases |head|
  {
    var s := head + [sep] + tail;
    if head == [] {
      assert s[0] == sep && s[1..] == tail;
    } else {
      assert s[0] == head[0] != sep;
      assert s[1..] == head[1..] + [sep] + tail;
      SplitAtFirstOf(head[1..], tail, sep);
      assert [head[0]] + head[1..] == head;
    }
  }

  // ---------------------------------------------------------------------------
  // fmt's %d verb
  // ---------------------------------------------------------------------------

  predicate IsDigits(s: string) {
    forall i :: 0 <= i < |s| ==> '0' <= s[i] <= '9'
  }

  function DigitChar(d: nat): (c: char)
    requires d < 10
    ensures '0' <= c <= '9'
  {
    (48 + d) as char
  }

  function DigitValue(c: char): (d: nat)
    requires '0' <= c <= '9'
    ensures d < 10 && DigitChar(d) == c
  {
    c as int - 48
  }

  /** %d of a non-negative integer: a non-empty string of digits with no leading zero. */
  function NatToDecimal(n: nat): (r: string)
    ensures |r| >= 1 && IsDigits(r)
    ensures r[0] == '0' ==> n == 0 && r == "0"
  {
    if n < 10 then [DigitChar(n)] else NatToDecimal(n / 10) + [DigitChar(n % 10)]
  }

  /** The number a string of decimal digits denotes. */
  function DecimalValue(s: string): nat
    requires IsDigits(s)
  {
    if s == [] then 0 else DecimalValue(s[..|s| - 1]) * 10 + DigitValue(s[|s| - 1])
  }

  /** Reading the numeral back gives the number. */
  lemma {:induction false} DecimalRoundTrip(n: nat)
    ensures DecimalValue(NatToDecimal(n)) == n
  {
    if n >= 10 {
      var s := NatToDecimal(n);
      assert s[..|s| - 1] == NatToDecimal(n / 10);
      DecimalRoundTrip(n / 10);
    }
  }

  /** %d of any integer: a minus sign in front of the numeral of a negative number. */
  function IntToDecimal(i: int): (r: string)
    ensures |r| >= 1
    ensures r[0] == '-' <==> i < 0
    ensures var d := if i < 0 then r[1..] else r;
      IsDigits(d) && DecimalValue(d) == (if i < 0 then -i else i)
    ensures var d := if i < 0 then r[1..] else r; |d| >= 1 && (d[0] == '0' ==> d == "0")
  {
    if i < 0 then
      var d := NatToDecimal(-i);
      DecimalRoundTrip(-i);
      assert ("-" + d)[1..] == d;
      "-" + d
    else
      DecimalRoundTrip(i);
      NatToDecimal(i)
  }

  /** Different integers print differently. */
  lemma IntToDecimalInjective(a: int, b: int)
    requires IntToDecimal(a) == IntToDecimal(b)
    ensures a == b
  {
    var r := IntToDecimal(a);
    assert r == IntToDecimal(b);
    assert (a < 0) == (b < 0) by {
      assert r[0] == '-' <==> a < 0;
      assert r[0] == '-' <==> b < 0;
    }
    var d := if a < 0 then r[1..] else r;
    assert DecimalValue(d) == (if a < 0 then -a else a);
    assert DecimalValue(d) == (if b < 0 then -b else b);
  }
}
