/** The two `List<T>` operations the inventory relies on: `IndexOf` and `RemoveAt`. */
module Lists {

  /** `List<T>.IndexOf`: the position of the first element equal to `x`, or -1 when there is none. */
  function IndexOf<T(==)>(s: seq<T>, x: T): (i: int)
    ensures -1 <= i < |s|
    ensures i == -1 <==> x !in s
    ensures 0 <= i ==> s[i] == x && x !in s[..i]
  {
    if s == [] then -1
    else if s[0] == x then 0
    else
      var j := IndexOf(s[1..], x);
      assert s[1..][..j + 1] == s[1..j + 2] by { assert j + 2 <= |s|; }
      if j == -1 then -1 else j + 1
  }

  /** `List<T>.RemoveAt` at a valid position: the element at `i` is gone, the rest keep their order. */
  function RemoveAt<T>(s: seq<T>, i: nat): (r: seq<T>)
    requires i < |s|
    ensures |r| == |s| - 1
    ensures forall k :: 0 <= k < i ==> r[k] == s[k]
    ensures forall k :: i <= k < |r| ==> r[k] == s[k + 1]
  {
    s[..i] + s[i + 1..]
  }

  /** Removing the first occurrence takes exactly one copy of `x` out of the multiset of elements. */
  lemma RemoveFirstMultiset<T>(s: seq<T>, x: T)
    requires x in s
    ensures multiset(RemoveAt(s, IndexOf(s, x))) == multiset(s) - multiset{x}
  {
    RemoveAtMultiset(s, IndexOf(s, x));
  }

  lemma RemoveAtMultiset<T>(s: seq<T>, i: nat)
    requires i < |s|
    ensures multiset(RemoveAt(s, i)) == multiset(s) - multiset{s[i]}
  {
    var before, after := s[..i], s[i + 1..];
    assert s == before + [s[i]] + after;
    assert RemoveAt(s, i) == before + after;
  }

  /** Appending an element that is not yet present and then removing it restores the list. */
  lemma AppendThenRemoveFresh<T>(s: seq<T>, x: T)
    requires x !in s
    ensures IndexOf(s + [x], x) == |s|
    ensures RemoveAt(s + [x], IndexOf(s + [x], x)) == s
  {
    var t := s + [x];
    assert t[..|s|] == s;
    assert t[|s|] == x;
  }

  /**
    Appending an element that is already present and then removing it takes out the EARLIER copy:
    the result is the list with its first `x` removed, followed by the appended `x`.
  */
  lemma AppendThenRemoveExisting<T>(s: seq<T>, x: T)
    requires x in s
    ensures IndexOf(s + [x], x) == IndexOf(s, x)
    ensures RemoveAt(s + [x], IndexOf(s + [x], x)) == RemoveAt(s, IndexOf(s, x)) + [x]
  {
    var i := IndexOf(s, x);
    var t := s + [x];
    assert t[..i] == s[..i];
    IndexOfPrefix(s, [x], x);
  }

  /** `IndexOf` on a list only looks at the part before the first match. */
  lemma {:induction false} IndexOfPrefix<T>(s: seq<T>, tail: seq<T>, x: T)
    requires x in s
    ensures IndexOf(s + tail, x) == IndexOf(s, x)
  {
    if s[0] == x {
      assert (s + tail)[0] == x;
    } else {
      assert (s + tail)[1..] == s[1..] + tail;
      assert x in s[1..] by { assert s == [s[0]] + s[1..]; }
      IndexOfPrefix(s[1..], tail, x);
    }
  }
}
