/** The two array operations the scene's shape list relies on: `indexOf`
    (search by identity, `-1` when absent) and `splice(i, 1)` (delete one
    element in place, closing the gap). Both are stated on values; the scene
    reassigns its list field with their results. */
module Lists {

  /** First position of `x` in `s`, or -1 when `x` does not occur. */
  function IndexOf<T(==)>(s: seq<T>, x: T): (i: int)
    ensures -1 <= i < |s|
    ensures i == -1 <==> x !in s
    ensures 0 <= i ==> s[i] == x && forall k :: 0 <= k < i ==> s[k] != x
  {
    if s == [] then -1
    else if s[0] == x then 0
    else
      var j := IndexOf(s[1..], x);
      if j < 0 then -1
      else
        j + 1
  }

  /** `s` with its element at `i` deleted and every later element moved one
      place to the front. */
  function RemoveAt<T>(s: seq<T>, i: nat): (r: seq<T>)
    requires i < |s|
    ensures |r| == |s| - 1
    ensures forall k :: 0 <= k < i ==> r[k] == s[k]
    ensures forall k :: i <= k < |r| ==> r[k] == s[k + 1]
  {
    s[..i] + s[i + 1..]
  }

  /** Deleting the first occurrence of `x` takes away exactly one copy of
      `x` and nothing else. */
  lemma RemoveFirstMultiset<T>(s: seq<T>, x: T)
    requires x in s
    ensures multiset(RemoveAt(s, IndexOf(s, x))) == multiset(s) - multiset{x}
  {
    var i := IndexOf(s, x);
    var front, back := s[..i], s[i + 1..];
    assert s == front + [x] + back;
    assert RemoveAt(s, i) == front + back;
    calc {
      multiset(s);
      multiset(front + [x] + back);
      multiset(front) + multiset{x} + multiset(back);
    }
  }

  /** Copies of `x` after the first one survive its removal: the count of
      `x` drops by exactly one. */
  lemma RemoveFirstKeepsLaterCopies<T>(s: seq<T>, x: T)
    requires x in s
    ensures multiset(RemoveAt(s, IndexOf(s, x)))[x] == multiset(s)[x] - 1
  {
    RemoveFirstMultiset(s, x);
  }

  /** The position of an element already in `s` does not move when more
      elements are appended. */
  lemma IndexOfAppend<T>(s: seq<T>, t: seq<T>, x: T)
    requires x in s
    ensures IndexOf(s + t, x) == IndexOf(s, x)
  {
    var i := IndexOf(s, x);
    assert (s + t)[i] == x;
    assert (s + t)[..i] == s[..i];
  }

  /** Removing an element that was appended to a list not containing it gives
      the list back: appending and removing are inverse. */
  lemma RemoveAppended<T>(s: seq<T>, x: T)
    requires x !in s
    ensures IndexOf(s + [x], x) == |s|
    ensures RemoveAt(s + [x], IndexOf(s + [x], x)) == s
  {
  }

  /** Appending a second copy of an element and then removing that element
      deletes the EARLIER copy and keeps the new last one. */
  lemma RemoveAppendedDuplicate<T>(s: seq<T>, x: T)
    requires x in s
    ensures RemoveAt(s + [x], IndexOf(s + [x], x)) == RemoveAt(s, IndexOf(s, x)) + [x]
  {
    IndexOfAppend(s, [x], x);
    var i := IndexOf(s, x);
    assert (s + [x])[..i] == s[..i];
    assert (s + [x])[i + 1..] == s[i + 1..] + [x];
  }
}
