/** Python's `sep.join(fields)` and `s.split(sep)` for a one-character
    separator, and the fact the signature strings rely on: joining fields
    that do not contain the separator and splitting the result gives the
    fields back. */
module Text {

  /** `sep.join(xs)`: the fields with one separator between neighbours. */
  function Join(xs: seq<string>, sep: char): string
    decreases |xs|
  {
    if |xs| == 0 then ""
    else if |xs| == 1 then xs[0]
    else xs[0] + [sep] + Join(xs[1..], sep)
  }

  /** `s.split(sep)`: the pieces between separators; never empty, and
      `"".split(sep)` is `[""]`. */
  function Split(s: string, sep: char): (r: seq<string>)
    ensures |r| >= 1
    decreases |s|
  {
    if |s| == 0 then [""]
    else
      var rest := Split(s[1..], sep);
      if s[0] == sep then [""] + rest
      else [[s[0]] + rest[0]] + rest[1..]
  }

  /** No field contains the separator. */
  predicate NoSep(xs: seq<string>, sep: char)
  {
    forall i :: 0 <= i < |xs| ==> sep !in xs[i]
  }

  /** The number of occurrences of `c` in `s`. */
  function Count(s: string, c: char): nat
    decreases |s|
  {
    if |s| == 0 then 0 else (if s[0] == c then 1 else 0) + Count(s[1..], c)
  }

  lemma {:induction false} SplitPlain(x: string, sep: char)
    requires sep !in x
    ensures Split(x, sep) == [x]
    decreases |x|
  {
    if |x| > 0 {
      SplitPlain(x[1..], sep);
      assert [x[0]] + x[1..] == x;
    }
  }

  lemma {:induction false} SplitField(x: string, sep: char, t: string)
    requires sep !in x
    ensures Split(x + [sep] + t, sep) == [x] + Split(t, sep)
    decreases |x|
  {
    var s := x + [sep] + t;
    if |x| == 0 {
      assert s[1..] == t;
    } else {
      assert s[1..] == x[1..] + [sep] + t;
      SplitField(x[1..], sep, t);
      assert [x[0]] + x[1..] == x;
    }
  }

  /** Splitting a join of separator-free fields recovers the fields. */
  lemma {:induction false} SplitJoin(xs: seq<string>, sep: char)
    requires |xs| > 0 && NoSep(xs, sep)
    ensures Split(Join(xs, sep), sep) == xs
    decreases |xs|
  {
    if |xs| == 1 {
      SplitPlain(xs[0], sep);
    } else {
      assert NoSep(xs[1..], sep) by {
        forall i | 0 <= i < |xs| - 1 ensures sep !in xs[1..][i] {
          assert xs[1..][i] == xs[i + 1];
        }
      }
      SplitJoin(xs[1..], sep);
      SplitField(xs[0], sep, Join(xs[1..], sep));
      assert [xs[0]] + xs[1..] == xs;
    }
  }

  lemma {:induction false} CountConcat(a: string, b: string, c: char)
    ensures Count(a + b, c) == Count(a, c) + Count(b, c)
    decreases |a|
  {
    if |a| == 0 {
      assert a + b == b;
    } else {
      assert (a + b)[1..] == a[1..] + b;
      CountConcat(a[1..], b, c);
    }
  }

  lemma {:induction false} CountAbsent(x: string, c: char)
    requires c !in x
    ensures Count(x, c) == 0
    decreases |x|
  {
    if |x| > 0 { CountAbsent(x[1..], c); }
  }

  /** A join of `n` separator-free fields holds exactly `n - 1` separators. */
  lemma {:induction false} JoinSeparatorCount(xs: seq<string>, sep: char)
    requires |xs| > 0 && NoSep(xs, sep)
    ensures Count(Join(xs, sep), sep) == |xs| - 1
    decreases |xs|
  {
    CountAbsent(xs[0], sep);
    if |xs| > 1 {
      assert NoSep(xs[1..], sep) by {
        forall i | 0 <= i < |xs| - 1 ensures sep !in xs[1..][i] {
          assert xs[1..][i] == xs[i + 1];
        }
      }
      JoinSeparatorCount(xs[1..], sep);
      CountConcat(xs[0] + [sep], Join(xs[1..], sep), sep);
      CountConcat(xs[0], [sep], sep);
      assert [sep][1..] == [];
    }
  }
}
