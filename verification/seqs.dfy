/** Sequence utilities shared by the byte-level key layout and the text handling of admin commands. */
module Seqs {
  import opened Wrappers

  /** Rust's `splitn(2, |x| x == sep)`: the part before the first `sep`, and everything after
      that `sep` when there is one. The remainder may itself contain `sep`. */
  function SplitFirst<T(==)>(s: seq<T>, sep: T): (r: (seq<T>, Option<seq<T>>))
    ensures sep !in r.0
    ensures r.1.None? <==> sep !in s
    ensures r.1.None? ==> r.0 == s
    ensures r.1.Some? ==> s == r.0 + [sep] + r.1.value
  {
    if |s| == 0 then ([], None)
    else if s[0] == sep then ([], Some(s[1..]))
    else
      var rest := SplitFirst(s[1..], sep);
      assert s == [s[0]] + s[1..];
      ([s[0]] + rest.0, rest.1)
  }

  /** Splitting `a ++ [sep] ++ b` at the first `sep` gives back `a` and `b` whenever `a` is free of `sep`. */
  lemma {:induction false} SplitFirstOfConcat<T>(a: seq<T>, sep: T, b: seq<T>)
    requires sep !in a
    ensures SplitFirst(a + [sep] + b, sep) == (a, Some(b))
  {
    if |a| == 0 {
      assert a + [sep] + b == [sep] + b;
    } else {
      var s := a + [sep] + b;
      assert s[1..] == a[1..] + [sep] + b;
      SplitFirstOfConcat(a[1..], sep, b);
      assert [a[0]] + a[1..] == a;
    }
  }

  /** Rust's `join` with a one-element separator. */
  function Join<T>(parts: seq<seq<T>>, sep: T): seq<T>
  {
    if |parts| == 0 then []
    else if |parts| == 1 then parts[0]
    else parts[0] + [sep] + Join(parts[1..], sep)
  }

  /** Rust's `split`: the pieces between successive occurrences of `sep`. */
  function SplitAll<T(==)>(s: seq<T>, sep: T): (r: seq<seq<T>>)
    ensures |r| >= 1
    ensures forall i :: 0 <= i < |r| ==> sep !in r[i]
    decreases |s|
  {
    var first := SplitFirst(s, sep);
    match first.1
    case None => [first.0]
    case Some(rest) => [first.0] + SplitAll(rest, sep)
  }

  /** `split` undoes `join` on a non-empty list of pieces that are free of the separator. */
  lemma {:induction false} SplitAllOfJoin<T>(parts: seq<seq<T>>, sep: T)
    requires |parts| >= 1
    requires forall i :: 0 <= i < |parts| ==> sep !in parts[i]
    ensures SplitAll(Join(parts, sep), sep) == parts
    decreases |parts|
  {
    if |parts| == 1 {
      assert SplitFirst(parts[0], sep) == (parts[0], None);
    } else {
      SplitFirstOfConcat(parts[0], sep, Join(parts[1..], sep));
      SplitAllOfJoin(parts[1..], sep);
      assert [parts[0]] + parts[1..] == parts;
    }
  }

  /** `join` undoes `split`: nothing of the input is lost or reordered. */
  lemma {:induction false} JoinOfSplitAll<T>(s: seq<T>, sep: T)
    ensures Join(SplitAll(s, sep), sep) == s
    decreases |s|
  {
    var first := SplitFirst(s, sep);
    match first.1
    case None =>
    case Some(rest) =>
      JoinOfSplitAll(rest, sep);
      assert SplitAll(s, sep) == [first.0] + SplitAll(rest, sep);
      assert (([first.0] + SplitAll(rest, sep))[1..]) == SplitAll(rest, sep);
  }
}
