/** Append-only logs: counting the occurrences of an entry. */
module Logs {

  /** Number of occurrences of `x` in `s`, counted from the end so that
      appending to a log adds to the count of its prefix. */
  function Count<T(==)>(s: seq<T>, x: T): (n: nat)
    ensures n <= |s|
    ensures n == 0 <==> x !in s
  {
    if s == [] then 0
    else
      var init := s[..|s| - 1];
      assert s == init + [s[|s| - 1]];
      Count(init, x) + (if s[|s| - 1] == x then 1 else 0)
  }

  /** Counting distributes over concatenation of logs. */
  lemma {:induction false} CountConcat<T>(a: seq<T>, b: seq<T>, x: T)
    ensures Count(a + b, x) == Count(a, x) + Count(b, x)
  {
    if b == [] {
      assert a + b == a;
    } else {
      var b' := b[..|b| - 1];
      assert (a + b)[..|a + b| - 1] == a + b';
      CountConcat(a, b', x);
    }
  }

  /** `n` copies of `s`, one after another. */
  function Repeat<T>(s: seq<T>, n: nat): (r: seq<T>)
    ensures |r| == n * |s|
  {
    if n == 0 then [] else Repeat(s, n - 1) + s
  }

  /** Each copy of `s` in a repetition adds its own occurrences of `x`. */
  lemma {:induction false} CountRepeat<T>(s: seq<T>, n: nat, x: T)
    ensures Count(Repeat(s, n), x) == n * Count(s, x)
  {
    if n > 0 {
      CountRepeat(s, n - 1, x);
      CountConcat(Repeat(s, n - 1), s, x);
      assert n * Count(s, x) == (n - 1) * Count(s, x) + Count(s, x);
    }
  }
}
