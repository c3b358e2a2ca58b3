/**
 * Python's `hostname.split(".")` and `".".join(parts)` on strings, the two string
 * operations the hostname model is built from.
 */
module Labels {

  const Dot: char := '.'

  /** `s.split(".")`: the maximal dot-free pieces of `s`, in order; never empty. */
  function Split(s: string): (parts: seq<string>)
    ensures |parts| >= 1
    decreases |s|
  {
    if s == [] then [[]]
    else
      var rest := Split(s[1..]);
      if s[0] == Dot then [[]] + rest
      else [[s[0]] + rest[0]] + rest[1..]
  }

  /** `".".join(parts)`. */
  function Join(parts: seq<string>): (s: string)
    ensures |parts| >= 2 ==> Dot in s
    ensures |parts| == 1 && Dot !in parts[0] ==> Dot !in s
  {
    if |parts| == 0 then []
    else if |parts| == 1 then parts[0]
    else parts[0] + [Dot] + Join(parts[1..])
  }

  /** Every piece of a split is free of dots. */
  lemma {:induction false} SplitDotFree(s: string)
    ensures forall i :: 0 <= i < |Split(s)| ==> Dot !in Split(s)[i]
    decreases |s|
  {
    if s != [] {
      SplitDotFree(s[1..]);
    }
  }

  /** Joining the pieces of a split gives the string back. */
  lemma {:induction false} JoinSplit(s: string)
    ensures Join(Split(s)) == s
    decreases |s|
  {
    if s != [] {
      var rest := Split(s[1..]);
      JoinSplit(s[1..]);
      if s[0] == Dot {
        assert ([[]] + rest)[1..] == rest;
        assert s == [Dot] + s[1..];
      } else if |rest| == 1 {
        assert s == [s[0]] + s[1..];
      } else {
        var head := [s[0]] + rest[0];
        assert ([head] + rest[1..])[1..] == rest[1..];
        assert Join(rest) == rest[0] + [Dot] + Join(rest[1..]);
        assert s == [s[0]] + s[1..];
      }
    }
  }

  /** A string splits into at least two pieces exactly when it holds a dot. */
  lemma {:induction false} SplitCount(s: string)
    ensures |Split(s)| >= 2 <==> Dot in s
    decreases |s|
  {
    if s != [] {
      SplitCount(s[1..]);
      assert Dot in s <==> s[0] == Dot || Dot in s[1..] by {
        assert s == [s[0]] + s[1..];
      }
    }
  }

  /** Splitting a dot-free prefix, a dot and the rest. */
  lemma {:induction false} SplitAfterLabel(a: string, b: string)
    requires Dot !in a
    ensures Split(a + [Dot] + b) == [a] + Split(b)
    decreases |a|
  {
    if a == [] {
      assert a + [Dot] + b == [Dot] + b;
      assert ([Dot] + b)[1..] == b;
    } else {
      var s := a + [Dot] + b;
      assert s[1..] == a[1..] + [Dot] + b;
      SplitAfterLabel(a[1..], b);
      assert [a[0]] + a[1..] == a;
    }
  }

  /** A dot-free string is a single piece. */
  lemma {:induction false} SplitLabel(a: string)
    requires Dot !in a
    ensures Split(a) == [a]
    decreases |a|
  {
    if a != [] {
      SplitLabel(a[1..]);
      assert [a[0]] + a[1..] == a;
    }
  }

  /** Splitting a join of dot-free pieces gives the pieces back. */
  lemma {:induction false} SplitJoin(parts: seq<string>)
    requires |parts| >= 1
    requires forall i :: 0 <= i < |parts| ==> Dot !in parts[i]
    ensures Split(Join(parts)) == parts
    decreases |parts|
  {
    if |parts| == 1 {
      SplitLabel(parts[0]);
    } else {
      SplitJoin(parts[1..]);
      SplitAfterLabel(parts[0], Join(parts[1..]));
      assert [parts[0]] + parts[1..] == parts;
    }
  }

  /** Joining two non-empty lists of pieces puts one dot between their joins. */
  lemma {:induction false} JoinAppend(a: seq<string>, b: seq<string>)
    requires |a| >= 1 && |b| >= 1
    ensures Join(a + b) == Join(a) + [Dot] + Join(b)
    decreases |a|
  {
    if |a| == 1 {
      assert (a + b)[1..] == b;
    } else {
      JoinAppend(a[1..], b);
      assert (a + b)[1..] == a[1..] + b;
    }
  }
}
