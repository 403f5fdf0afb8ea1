/** Failure-carrying results shared by every module. */
module Results {
  datatype Option<+T> = None | Some(value: T)

  datatype Result<+T, +E> = Ok(value: T) | Err(error: E)
}

/** The string operations the daemon borrows from its host language. */
module Text {

  /** The Unicode White_Space property, which `str::trim` uses. */
  predicate IsWhitespace(c: char) {
    var n := c as int;
    || 0x0009 <= n <= 0x000D
    || n == 0x0020 || n == 0x0085 || n == 0x00A0 || n == 0x1680
    || 0x2000 <= n <= 0x200A
    || n == 0x2028 || n == 0x2029 || n == 0x202F || n == 0x205F || n == 0x3000
  }

  /** Of the ASCII characters these six are white space. */
  lemma AsciiWhitespace(c: char)
    requires c as int < 0x80
    ensures IsWhitespace(c) <==> c == ' ' || c == '\t' || c == '\n' || c == '\r' || c == '\U{0B}' || c == '\U{0C}'
  {
  }

  /** `s.trim().is_empty()`. */
  predicate IsBlank(s: string) {
    forall c | c in s :: IsWhitespace(c)
  }

  function TrimStart(s: string): string {
    if s != [] && IsWhitespace(s[0]) then TrimStart(s[1..]) else s
  }

  function TrimEnd(s: string): string {
    if s != [] && IsWhitespace(s[|s| - 1]) then TrimEnd(s[..|s| - 1]) else s
  }

  function Trim(s: string): string {
    TrimEnd(TrimStart(s))
  }
}

/** Lists kept in strictly increasing key order. */
module Ordering {

  ghost predicate StrictlyOrdered<T>(key: T -> int, xs: seq<T>) {
    forall i, j :: 0 <= i < j < |xs| ==> key(xs[i]) < key(xs[j])
  }

  /** Collecting `xs` into an ordered set over `universe` and back into a list. */
  function Collect<T(==,!new)>(universe: seq<T>, xs: seq<T>): (r: seq<T>)
    ensures forall x :: x in r <==> x in universe && x in xs
  {
    if universe == [] then []
    else (if universe[0] in xs then [universe[0]] else []) + Collect(universe[1..], xs)
  }

  lemma {:induction false} CollectIsOrdered<T(!new)>(key: T -> int, universe: seq<T>, xs: seq<T>)
    requires StrictlyOrdered(key, universe)
    ensures StrictlyOrdered(key, Collect(universe, xs))
  {
    if universe != [] {
      CollectIsOrdered(key, universe[1..], xs);
      assert forall x | x in Collect(universe[1..], xs) :: key(universe[0]) < key(x);
    }
  }

  /** A strictly ordered list is determined by its members. */
  lemma {:induction false} SameMembersSameList<T(!new)>(key: T -> int, xs: seq<T>, ys: seq<T>)
    requires StrictlyOrdered(key, xs) && StrictlyOrdered(key, ys)
    requires forall x :: x in xs <==> x in ys
    ensures xs == ys
    decreases |xs|
  {
    assert xs != [] ==> xs[0] in ys;
    assert ys != [] ==> ys[0] in xs;
    if xs != [] && ys != [] {
      assert xs[0] == ys[0];
      forall x
        ensures x in xs[1..] <==> x in ys[1..]
      {
        assert x in xs[1..] ==> x in xs && x != xs[0];
        assert x in ys[1..] ==> x in ys && x != ys[0];
        assert x in xs && x != xs[0] ==> x in xs[1..];
        assert x in ys && x != ys[0] ==> x in ys[1..];
      }
      SameMembersSameList(key, xs[1..], ys[1..]);
      assert xs == [xs[0]] + xs[1..] && ys == [ys[0]] + ys[1..];
    }
  }
}
