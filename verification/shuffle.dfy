/** `TypeExtensions.Shuffle`: the Fisher-Yates shuffle of a read-only list.
    The static random generator becomes an explicit sequence of draws, the
    i-th of which is the value `rng.Next(n + 1)` returns in the i-th round. */
module TypeExtensions {

  /** The draws a random source can produce for a list of `len` elements:
      one per round, the round that swaps into position `n` drawing from
      `[0, n]`. */
  predicate ValidDraws(len: nat, draws: seq<int>) {
    && |draws| >= len - 1
    && forall i :: 0 <= i < len - 1 ==> 0 <= draws[i] <= len - 1 - i
  }

  /** The list with the elements at `i` and `j` exchanged. */
  function Swap<T>(s: seq<T>, i: nat, j: nat): (r: seq<T>)
    requires i < |s| && j < |s|
    ensures |r| == |s| && r[i] == s[j] && r[j] == s[i]
    ensures forall k :: 0 <= k < |s| && k != i && k != j ==> r[k] == s[k]
  {
    s[i := s[j]][j := s[i]]
  }

  /** The rounds of the shuffle that remain while the counter is `n`: the
      counter is decremented, the drawn element and the one at the counter
      are exchanged, until at most one position is left. */
  function Shuffled<T>(s: seq<T>, n: nat, draws: seq<int>): (r: seq<T>)
    requires n <= |s| && ValidDraws(n, draws)
    decreases n
  {
    if n <= 1 then s
    else
      assert ValidDraws(n - 1, draws[1..]) by {
        forall i | 0 <= i < n - 2 ensures 0 <= draws[1..][i] <= n - 2 - i {
          assert draws[1..][i] == draws[i + 1];
        }
      }
      Shuffled(Swap(s, draws[0], n - 1), n - 1, draws[1..])
  }

  /** Swapping two positions keeps the elements. */
  lemma SwapPermutes<T>(s: seq<T>, i: nat, j: nat)
    requires i < |s| && j < |s|
    ensures multiset(Swap(s, i, j)) == multiset(s)
  {
    if i != j {
      var t := s[i := s[j]];
      assert multiset(t) == multiset(s) - multiset{s[i]} + multiset{s[j]};
      assert multiset(t[j := s[i]]) == multiset(t) - multiset{t[j]} + multiset{s[i]};
    }
  }

  /** Every round only swaps, so the shuffled list is a permutation of the
      input, and the positions at or after the counter are never touched. */
  lemma {:induction false} ShuffledPermutes<T>(s: seq<T>, n: nat, draws: seq<int>)
    requires n <= |s| && ValidDraws(n, draws)
    ensures |Shuffled(s, n, draws)| == |s|
    ensures multiset(Shuffled(s, n, draws)) == multiset(s)
    ensures forall k :: n <= k < |s| ==> Shuffled(s, n, draws)[k] == s[k]
    decreases n
  {
    if n > 1 {
      var t := Swap(s, draws[0], n - 1);
      SwapPermutes(s, draws[0], n - 1);
      assert ValidDraws(n - 1, draws[1..]) by {
        forall i | 0 <= i < n - 2 ensures 0 <= draws[1..][i] <= n - 2 - i {
          assert draws[1..][i] == draws[i + 1];
        }
      }
      ShuffledPermutes(t, n - 1, draws[1..]);
    }
  }

  /** `Shuffle<T>()`: works on a copy, so the input list is left as it was;
      the result is the input's elements in the order the draws select,
      which is a permutation of the input, and a list of at most one element
      comes back unchanged. */
  method Shuffle<T>(xs: seq<T>, draws: seq<int>) returns (r: seq<T>)
    requires ValidDraws(|xs|, draws)
    ensures r == Shuffled(xs, |xs|, draws)
    ensures |r| == |xs| && multiset(r) == multiset(xs)
    ensures |xs| <= 1 ==> r == xs
  {
    var list := new T[|xs|](i requires 0 <= i < |xs| => xs[i]);
    var n := list.Length;
    var round := 0;
    assert list[..] == xs && draws[round..] == draws;
    while n > 1
      invariant 0 <= n <= list.Length == |xs|
      invariant n > 0 ==> round == |xs| - n
      invariant n == 0 ==> round == 0 && |xs| == 0
      invariant ValidDraws(n, draws[round..])
      invariant Shuffled(list[..], n, draws[round..]) == Shuffled(xs, |xs|, draws)
    {
      ghost var before := list[..];
      assert draws[round..][0] == draws[round];
      assert draws[round..][1..] == draws[round + 1..];
      n := n - 1;
      var k := draws[round];
      var value := list[k];
      list[k] := list[n];
      list[n] := value;
      assert list[..] == Swap(before, k, n);
      round := round + 1;
    }
    r := list[..];
    assert |xs| <= 1 ==> r == xs;
    ShuffledPermutes(xs, |xs|, draws);
  }
}
