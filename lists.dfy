/**
 * Python list operations the experiment relies on: `reverse()` and repeated
 * `pop()` from the end, where a pop on an empty list raises IndexError.
 */
module Lists {

  datatype Option<T> = None | Some(value: T)

  /** The list after an in-place `reverse()`. */
  function Reversed<T>(s: seq<T>): (r: seq<T>)
    ensures |r| == |s|
    ensures forall i :: 0 <= i < |s| ==> r[i] == s[|s| - 1 - i]
  {
    if s == [] then [] else Reversed(s[1..]) + [s[0]]
  }

  /**
   * `n` successive `pop()` calls on `s`: the popped items in the order they
   * came out and what is left, or None when one of the pops hits an empty
   * list (IndexError).
   */
  function PopN<T>(s: seq<T>, n: nat): (r: Option<(seq<T>, seq<T>)>)
    ensures r.Some? <==> n <= |s|
    ensures r.Some? ==> |r.value.0| == n && r.value.1 == s[..|s| - n]
  {
    if n == 0 then Some(([], s))
    else match PopN(s, n - 1)
      case None => None
      case Some((popped, rest)) =>
        if rest == [] then None
        else Some((popped + [rest[|rest| - 1]], rest[..|rest| - 1]))
  }

  /** Reversing twice gives the list back. */
  lemma ReversedTwice<T>(s: seq<T>)
    ensures Reversed(Reversed(s)) == s
  {
    assert forall i :: 0 <= i < |s| ==> Reversed(Reversed(s))[i] == s[i];
  }

  /** Reversal keeps every element with its multiplicity. */
  lemma {:induction false} ReversedSameElements<T>(s: seq<T>)
    ensures multiset(Reversed(s)) == multiset(s)
  {
    if s != [] {
      ReversedSameElements(s[1..]);
      assert s == [s[0]] + s[1..];
    }
  }

  /**
   * Popping a list that was reversed first yields the items in their original
   * order: after k pops the first k items have come out and the rest is still
   * waiting, reversed.
   */
  lemma {:induction false} PopNReversed<T>(s: seq<T>, k: nat)
    requires k <= |s|
    ensures PopN(Reversed(s), k) == Some((s[..k], Reversed(s[k..])))
  {
    if k > 0 {
      PopNReversed(s, k - 1);
      PopStep(Reversed(s), k);
      ReversedDropFront(s, k);
      assert s[..k - 1] + [s[k - 1]] == s[..k];
    }
  }

  /** The front of a reversed list is the reversal of the list without its first k items. */
  lemma {:induction false} ReversedDropFront<T>(s: seq<T>, k: nat)
    requires k <= |s|
    ensures Reversed(s)[..|s| - k] == Reversed(s[k..])
  {
    if k == 0 {
      assert s[k..] == s;
    } else {
      ReversedDropFront(s, k - 1);
      var t := s[k - 1..];
      assert t[1..] == s[k..];
      assert Reversed(t) == Reversed(s[k..]) + [t[0]];
      assert Reversed(s)[..|s| - k] == Reversed(t)[..|t| - 1];
    }
  }

  /** The n-th pop takes the item n places from the end. */
  lemma PopStep<T>(s: seq<T>, n: nat)
    requires 0 < n <= |s|
    ensures PopN(s, n) == Some((PopN(s, n - 1).value.0 + [s[|s| - n]], s[..|s| - n]))
  {
    var rest := s[..|s| - n + 1];
    assert rest[|rest| - 1] == s[|s| - n] && rest[..|rest| - 1] == s[..|s| - n];
  }

  /**
   * The first k pops take the last k items, last one first, and leave the
   * first |s| - k items in place.
   */
  lemma {:induction false} PopNTakesSuffix<T>(s: seq<T>, k: nat)
    requires k <= |s|
    ensures PopN(s, k) == Some((Reversed(s[|s| - k..]), s[..|s| - k]))
  {
    if k > 0 {
      PopNTakesSuffix(s, k - 1);
      var tail := s[|s| - k..];
      assert tail[1..] == s[|s| - k + 1..];
      assert Reversed(tail) == Reversed(s[|s| - k + 1..]) + [s[|s| - k]];
      assert s[..|s| - k + 1][..|s| - k] == s[..|s| - k];
    }
  }

  /** Popping a whole list yields it in reverse and leaves it empty. */
  lemma PopAll<T>(s: seq<T>)
    ensures PopN(s, |s|) == Some((Reversed(s), []))
  {
    PopNTakesSuffix(s, |s|);
    assert s[0..] == s;
  }

  /** One pop takes the last item and leaves the rest. */
  lemma PopOne<T>(s: seq<T>)
    requires s != []
    ensures PopN(s, 1) == Some(([s[|s| - 1]], s[..|s| - 1]))
  {
    var zero := PopN(s, 0);
    assert zero == Some(([], s));
    assert [] + [s[|s| - 1]] == [s[|s| - 1]];
  }

  /** No item occurs twice. */
  predicate NoRepeats<T(==)>(s: seq<T>)
  {
    forall j, k :: 0 <= j < k < |s| ==> s[j] != s[k]
  }

  /** Two equal items at different positions make that item occur at least twice. */
  lemma EqualItemsCountTwice<T>(s: seq<T>, j: nat, k: nat)
    requires j < k < |s|
    ensures s[j] == s[k] ==> multiset(s)[s[j]] >= 2
  {
    assert s == s[..j] + [s[j]] + s[j + 1..k] + [s[k]] + s[k + 1..];
  }
}
