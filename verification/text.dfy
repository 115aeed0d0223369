/** String helpers with the meaning Python gives them:
    `str.split(c)` for a one-character separator, its inverse `c.join(...)`,
    the `%d` rendering of an integer and a decimal reader that undoes it,
    and the `key=value&...` layout of a URL query. */
module Text {
  import opened Wrappers

  /** Python's `s.split(c)`: the pieces between occurrences of `c`, always at
      least one, possibly empty. Joining them back with `c` gives `s`. */
  function SplitOn(s: string, c: char): (parts: seq<string>)
    ensures |parts| >= 1
    ensures forall i :: 0 <= i < |parts| ==> c !in parts[i]
    ensures JoinWith(parts, c) == s
    decreases |s|
  {
    if |s| == 0 then [""]
    else
      var rest := SplitOn(s[1..], c);
      if s[0] == c then
        assert s == [c] + s[1..];
        [""] + rest
      else
        assert s == [s[0]] + s[1..];
        [[s[0]] + rest[0]] + rest[1..]
  }

  /** Python's `c.join(parts)`. */
  function JoinWith(parts: seq<string>, c: char): string
    requires |parts| >= 1
    decreases |parts|
  {
    if |parts| == 1 then parts[0] else parts[0] + [c] + JoinWith(parts[1..], c)
  }

  /** Splitting a piece free of `c`, followed by `c` and more text, yields
      that piece and then the pieces of the rest. */
  lemma {:induction false} SplitAfterPiece(p: string, c: char, tail: string)
    requires c !in p
    ensures SplitOn(p + [c] + tail, c) == [p] + SplitOn(tail, c)
    decreases |p|
  {
    if |p| == 0 {
      assert p + [c] + tail == [c] + tail;
      assert ([c] + tail)[1..] == tail;
    } else {
      var s := p + [c] + tail;
      assert s[0] == p[0];
      assert s[1..] == p[1..] + [c] + tail;
      SplitAfterPiece(p[1..], c, tail);
      assert [p[0]] + p[1..] == p;
    }
  }

  /** A string without `c` splits into itself alone. */
  lemma {:induction false} SplitWithoutSeparator(p: string, c: char)
    requires c !in p
    ensures SplitOn(p, c) == [p]
    decreases |p|
  {
    if |p| > 0 {
      SplitWithoutSeparator(p[1..], c);
      assert [p[0]] + p[1..] == p;
    }
  }

  /** `split` undoes `join` when no piece contains the separator. */
  lemma {:induction false} SplitJoin(parts: seq<string>, c: char)
    requires |parts| >= 1
    requires forall i :: 0 <= i < |parts| ==> c !in parts[i]
    ensures SplitOn(JoinWith(parts, c), c) == parts
    decreases |parts|
  {
    if |parts| == 1 {
      SplitWithoutSeparator(parts[0], c);
    } else {
      SplitJoin(parts[1..], c);
      SplitAfterPiece(parts[0], c, JoinWith(parts[1..], c));
      assert [parts[0]] + parts[1..] == parts;
    }
  }

  /** `s.split(c)[0]`: the text before the first `c`, or all of `s`. */
  function Before(s: string, c: char): (t: string)
    ensures c !in t
    ensures t <= s
    ensures |t| < |s| ==> s[|t|] == c
  {
    var parts := SplitOn(s, c);
    FirstPieceIsPrefix(s, c);
    parts[0]
  }

  lemma {:induction false} FirstPieceIsPrefix(s: string, c: char)
    ensures SplitOn(s, c)[0] <= s
    ensures |SplitOn(s, c)[0]| < |s| ==> s[|SplitOn(s, c)[0]|] == c
    decreases |s|
  {
    if |s| > 0 && s[0] != c {
      FirstPieceIsPrefix(s[1..], c);
    }
  }

  /** The text after the first `c`, or "" when `s` has none. */
  function After(s: string, c: char): string
  {
    var b := Before(s, c);
    if |b| < |s| then s[|b| + 1..] else ""
  }

  /** `key + "=" + value` splits back into `key` and `value`. */
  lemma BeforeAfterPair(key: string, value: string)
    requires '=' !in key
    ensures Before(key + "=" + value, '=') == key
    ensures After(key + "=" + value, '=') == value
  {
    SplitAfterPiece(key, '=', value);
    assert key + "=" + value == key + ['='] + value;
    assert (key + "=" + value)[|key| + 1..] == value;
  }

  // ---------------------------------------------------------------------
  // `%d` and its inverse

  predicate IsDigit(ch: char) { '0' <= ch <= '9' }

  predicate AllDigits(s: string) { forall i :: 0 <= i < |s| ==> IsDigit(s[i]) }

  function DigitChar(d: int): (ch: char)
    requires 0 <= d < 10
    ensures IsDigit(ch) && ch as int - '0' as int == d
  {
    ('0' as int + d) as char
  }

  /** Decimal digits of `n`, most significant first, with no leading zero. */
  function NatToDigits(n: nat): (s: string)
    ensures |s| >= 1 && AllDigits(s)
    ensures |s| > 1 ==> s[0] != '0'
    decreases n
  {
    if n < 10 then [DigitChar(n)] else NatToDigits(n / 10) + [DigitChar(n % 10)]
  }

  /** The number a string of decimal digits denotes. */
  function DigitsValue(s: string): nat
    requires AllDigits(s)
    decreases |s|
  {
    if |s| == 0 then 0
    else DigitsValue(s[..|s| - 1]) * 10 + (s[|s| - 1] as int - '0' as int)
  }

  lemma {:induction false} DigitsRoundTrip(n: nat)
    ensures DigitsValue(NatToDigits(n)) == n
    decreases n
  {
    if n >= 10 {
      var s := NatToDigits(n);
      assert s[..|s| - 1] == NatToDigits(n / 10);
      DigitsRoundTrip(n / 10);
    }
  }

  /** Python's `"%d" % n`: a minus sign exactly for negative numbers, then
      a non-empty run of digits. */
  function IntToDecimal(n: int): (s: string)
    ensures |s| >= 1
    ensures s[0] == '-' <==> n < 0
    ensures n < 0 ==> |s| >= 2 && AllDigits(s[1..])
    ensures n >= 0 ==> AllDigits(s)
  {
    if n < 0 then "-" + NatToDigits(-n) else NatToDigits(n)
  }

  /** Reads an optionally signed, non-empty run of decimal digits. */
  function DecimalValue(s: string): Option<int>
  {
    if |s| > 1 && s[0] == '-' && AllDigits(s[1..]) then Some(-(DigitsValue(s[1..]) as int))
    else if |s| > 0 && AllDigits(s) then Some(DigitsValue(s))
    else None
  }

  lemma ReadSignedDigits(d: string)
    requires |d| >= 1 && AllDigits(d)
    ensures DecimalValue("-" + d) == Some(-(DigitsValue(d) as int))
  {
    assert ("-" + d)[1..] == d;
  }

  lemma ReadUnsignedDigits(d: string)
    requires |d| >= 1 && AllDigits(d)
    ensures DecimalValue(d) == Some(DigitsValue(d) as int)
  {
    assert IsDigit(d[0]);
  }

  /** Reading back what `%d` printed gives the original integer. */
  lemma DecimalRoundTrip(n: int)
    ensures DecimalValue(IntToDecimal(n)) == Some(n)
  {
    if n < 0 {
      DigitsRoundTrip(-n);
      ReadSignedDigits(NatToDigits(-n));
    } else {
      DigitsRoundTrip(n);
      ReadUnsignedDigits(NatToDigits(n));
    }
  }

  // ---------------------------------------------------------------------
  // URL query strings

  /** A query string `k1=v1&k2=v2&...` built from its pairs. */
  function RenderQuery(pairs: seq<(string, string)>): string
    requires |pairs| >= 1
  {
    JoinWith(seq(|pairs|, i requires 0 <= i < |pairs| => pairs[i].0 + "=" + pairs[i].1), '&')
  }

  /** The pairs of a query string, each split at its first `=`. */
  function ParseQuery(q: string): (pairs: seq<(string, string)>)
    ensures |pairs| == |SplitOn(q, '&')|
  {
    var parts := SplitOn(q, '&');
    seq(|parts|, i requires 0 <= i < |parts| => (Before(parts[i], '='), After(parts[i], '=')))
  }

  /** The value of the first pair named `key`. */
  function Lookup(pairs: seq<(string, string)>, key: string): Option<string>
    decreases |pairs|
  {
    if |pairs| == 0 then None
    else if pairs[0].0 == key then Some(pairs[0].1)
    else Lookup(pairs[1..], key)
  }

  /** `Lookup` finds the first pair named `key`. */
  lemma {:induction false} LookupFirst(pairs: seq<(string, string)>, i: nat, key: string)
    requires i < |pairs| && pairs[i].0 == key
    requires forall j :: 0 <= j < i ==> pairs[j].0 != key
    ensures Lookup(pairs, key) == Some(pairs[i].1)
    decreases i
  {
    if i > 0 {
      LookupFirst(pairs[1..], i - 1, key);
    }
  }

  /** Parsing a rendered query gives back its pairs, provided no key holds
      `=` or `&` and no value holds `&`. */
  lemma QueryRoundTrip(pairs: seq<(string, string)>)
    requires |pairs| >= 1
    requires forall i :: 0 <= i < |pairs| ==> '=' !in pairs[i].0 && '&' !in pairs[i].0 && '&' !in pairs[i].1
    ensures ParseQuery(RenderQuery(pairs)) == pairs
  {
    var parts := seq(|pairs|, i requires 0 <= i < |pairs| => pairs[i].0 + "=" + pairs[i].1);
    forall i | 0 <= i < |parts|
      ensures '&' !in parts[i]
    {
      assert parts[i] == pairs[i].0 + "=" + pairs[i].1;
    }
    SplitJoin(parts, '&');
    var parsed := ParseQuery(RenderQuery(pairs));
    assert |parsed| == |pairs|;
    forall i | 0 <= i < |pairs|
      ensures parsed[i] == pairs[i]
    {
      BeforeAfterPair(pairs[i].0, pairs[i].1);
    }
  }
}
