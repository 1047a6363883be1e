/**
 * String helpers shared by the connector and strategy models: Python's
 * `str.split(sep)` and `sep.join(parts)`, the two-part unpacking
 * `a, b = s.split(sep)`, hummingbot's `BASE-QUOTE` trading-pair
 * convention (`combine_to_hb_trading_pair` / `split_hb_trading_pair`)
 * and the decimal rendering of an integer.
 */
module Strings {
  import opened Wrappers

  /** Python's `s.split(sep)`: always at least one piece; no piece contains `sep`. */
  function Split(s: string, sep: char): (r: seq<string>)
    ensures |r| >= 1
    ensures forall k :: 0 <= k < |r| ==> sep !in r[k]
    decreases |s|
  {
    if s == [] then [""]
    else
      var rest := Split(s[1..], sep);
      if s[0] == sep then [""] + rest
      else [[s[0]] + rest[0]] + rest[1..]
  }

  /** Python's `sep.join(parts)`. */
  function Join(parts: seq<string>, sep: char): (r: string)
    ensures |parts| >= 1 ==> parts[0] <= r
    ensures |parts| >= 2 ==> |r| > |parts[0]| && r[|parts[0]|] == sep
  {
    if parts == [] then ""
    else if |parts| == 1 then parts[0]
    else parts[0] + [sep] + Join(parts[1..], sep)
  }

  /** Joining the pieces of a split gives back the original text. */
  lemma {:induction false} JoinSplit(s: string, sep: char)
    ensures Join(Split(s, sep), sep) == s
    decreases |s|
  {
    if s != [] {
      var rest := Split(s[1..], sep);
      JoinSplit(s[1..], sep);
      if s[0] == sep {
        assert Split(s, sep) == [""] + rest;
        assert s == [sep] + s[1..];
      } else {
        var r := Split(s, sep);
        assert r == [[s[0]] + rest[0]] + rest[1..];
        if |rest| == 1 {
          assert Join(r, sep) == [s[0]] + rest[0];
        } else {
          assert r[1..] == rest[1..];
          assert Join(r, sep) == [s[0]] + rest[0] + [sep] + Join(rest[1..], sep);
          assert Join(rest, sep) == rest[0] + [sep] + Join(rest[1..], sep);
        }
        assert s == [s[0]] + s[1..];
      }
    }
  }

  /** Splitting at a first separator: the part before it is one piece. */
  lemma {:induction false} SplitAtFirst(a: string, sep: char, b: string)
    requires sep !in a
    ensures Split(a + [sep] + b, sep) == [a] + Split(b, sep)
    decreases |a|
  {
    if a == [] {
      assert a + [sep] + b == [sep] + b;
      assert ([sep] + b)[1..] == b;
    } else {
      var s := a + [sep] + b;
      assert s[0] == a[0];
      assert s[1..] == a[1..] + [sep] + b;
      SplitAtFirst(a[1..], sep, b);
      assert a == [a[0]] + a[1..];
    }
  }

  /** A text without the separator is a single piece. */
  lemma {:induction false} SplitWithout(s: string, sep: char)
    requires sep !in s
    ensures Split(s, sep) == [s]
    decreases |s|
  {
    if s != [] {
      SplitWithout(s[1..], sep);
      assert s == [s[0]] + s[1..];
    }
  }

  /** Splitting a join gives back the parts when no part holds the separator. */
  lemma {:induction false} SplitJoin(parts: seq<string>, sep: char)
    requires |parts| >= 1
    requires forall k :: 0 <= k < |parts| ==> sep !in parts[k]
    ensures Split(Join(parts, sep), sep) == parts
    decreases |parts|
  {
    if |parts| == 1 {
      SplitWithout(parts[0], sep);
    } else {
      SplitJoin(parts[1..], sep);
      SplitAtFirst(parts[0], sep, Join(parts[1..], sep));
      assert parts == [parts[0]] + parts[1..];
    }
  }

  /** `a, b = s.split(sep)`: succeeds exactly when there are two pieces. */
  function SplitOnce(s: string, sep: char): (r: Option<(string, string)>)
    ensures r.Some? ==> sep !in r.value.0 && sep !in r.value.1
    ensures r.Some? ==> s == r.value.0 + [sep] + r.value.1
  {
    var pieces := Split(s, sep);
    if |pieces| == 2 then
      JoinSplit(s, sep);
      assert Join(pieces, sep) == pieces[0] + [sep] + Join(pieces[1..], sep);
      Some((pieces[0], pieces[1]))
    else None
  }

  /** `SplitOnce` recovers the two sides it was given, and only those. */
  lemma SplitOnceOfPair(a: string, sep: char, b: string)
    requires sep !in a && sep !in b
    ensures SplitOnce(a + [sep] + b, sep) == Some((a, b))
  {
    SplitJoin([a, b], sep);
    assert Join([a, b], sep) == a + [sep] + Join([b], sep);
  }

  /** `combine_to_hb_trading_pair(base, quote)`: `f"{base}-{quote}"`. */
  function CombinePair(base: string, quote: string): (r: string)
    ensures |r| == |base| + 1 + |quote| && r[|base|] == '-'
  {
    base + "-" + quote
  }

  /** `split_hb_trading_pair(pair)`: the base and quote, or None where Python's unpacking raises. */
  function SplitPair(pair: string): (r: Option<(string, string)>)
    ensures r.Some? ==> pair == CombinePair(r.value.0, r.value.1)
    ensures r.Some? ==> '-' !in r.value.0 && '-' !in r.value.1
  {
    SplitOnce(pair, '-')
  }

  /** Splitting a combined pair of dash-free tokens gives back the tokens. */
  lemma PairRoundTrip(base: string, quote: string)
    requires '-' !in base && '-' !in quote
    ensures SplitPair(CombinePair(base, quote)) == Some((base, quote))
  {
    assert CombinePair(base, quote) == base + ['-'] + quote;
    SplitOnceOfPair(base, '-', quote);
  }

  /** The decimal digit for 0..9. */
  function DigitChar(d: int): (c: char)
    requires 0 <= d < 10
    ensures '0' <= c <= '9' && c as int - '0' as int == d
  {
    ('0' as int + d) as char
  }

  /** The number a string of decimal digits denotes. */
  function DigitsValue(s: string): nat
    requires forall k :: 0 <= k < |s| ==> '0' <= s[k] <= '9'
    decreases |s|
  {
    if s == [] then 0 else DigitsValue(s[..|s| - 1]) * 10 + (s[|s| - 1] as int - '0' as int)
  }

  /** Python's `str(n)` for a natural number: the decimal digits that denote `n`. */
  function NatToString(n: nat): (r: string)
    ensures |r| >= 1
    ensures forall k :: 0 <= k < |r| ==> '0' <= r[k] <= '9'
    ensures DigitsValue(r) == n
    ensures r[0] == '0' ==> |r| == 1
    decreases n
  {
    if n < 10 then
      assert [DigitChar(n)][..0] == [];
      [DigitChar(n)]
    else
      var prefix := NatToString(n / 10);
      var r := prefix + [DigitChar(n % 10)];
      assert r[..|r| - 1] == prefix;
      r
  }

  /** Python's `str(n)` for an integer: a leading '-' exactly for negatives, then the digits of `|n|`. */
  function IntToString(n: int): (r: string)
    ensures |r| >= 1
    ensures (r[0] == '-') <==> n < 0
    ensures n >= 0 ==> r == NatToString(n)
    ensures n < 0 ==> r[1..] == NatToString(-n)
  {
    if n < 0 then "-" + NatToString(-n) else NatToString(n)
  }

  /** Different integers have different decimal texts. */
  lemma IntToStringInjective(a: int, b: int)
    requires IntToString(a) == IntToString(b)
    ensures a == b
  {
    if a < 0 {
      assert b < 0;
      assert DigitsValue(IntToString(a)[1..]) == -a;
    } else {
      assert b >= 0;
      assert DigitsValue(IntToString(a)) == a;
    }
  }
}
