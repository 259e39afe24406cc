/** Traces of the requests and messages a bounded retry loop issues, and how to count them. */
module Traces {

  /** `block` repeated `m` times, each repetition appended at the end. */
  function Repeat<T>(block: seq<T>, m: nat): seq<T>
  {
    if m == 0 then [] else Repeat(block, m - 1) + block
  }

  /** The number of occurrences of `x` in `s`. */
  function Count<T(==)>(s: seq<T>, x: T): (n: nat)
    ensures n <= |s|
    ensures n == 0 <==> x !in s
  {
    if s == [] then 0
    else
      assert s == s[..|s| - 1] + [s[|s| - 1]];
      Count(s[..|s| - 1], x) + (if s[|s| - 1] == x then 1 else 0)
  }

  lemma {:induction false} CountConcat<T>(a: seq<T>, b: seq<T>, x: T)
    ensures Count(a + b, x) == Count(a, x) + Count(b, x)
    decreases |b|
  {
    if b == [] {
      assert a + b == a;
    } else {
      var b' := b[..|b| - 1];
      assert (a + b)[..|a + b| - 1] == a + b';
      CountConcat(a, b', x);
    }
  }

  lemma {:induction false} CountRepeat<T>(block: seq<T>, m: nat, x: T)
    ensures Count(Repeat(block, m), x) == m * Count(block, x)
  {
    if m > 0 {
      var c := Count(block, x);
      CountRepeat(block, m - 1, x);
      CountConcat(Repeat(block, m - 1), block, x);
      assert (m - 1) * c + c == m * c;
    }
  }

  lemma {:induction false} RepeatMembers<T>(block: seq<T>, m: nat, y: T)
    requires y in Repeat(block, m)
    ensures y in block
  {
    if m > 0 && y !in block {
      RepeatMembers(block, m - 1, y);
    }
  }

  lemma {:induction false} RepeatHead<T>(block: seq<T>, m: nat)
    requires m > 0 && |block| > 0
    ensures |Repeat(block, m)| > 0 && Repeat(block, m)[0] == block[0]
  {
    if m > 1 {
      RepeatHead(block, m - 1);
    }
  }

  /** Counting in a pair [x, y] with x different from y. */
  lemma CountPair<T>(x: T, y: T)
    requires x != y
    ensures Count([x, y], x) == 1 && Count([x, y], y) == 1
  {
    assert [x, y][..1] == [x];
    assert [x][..0] == [];
  }
}
