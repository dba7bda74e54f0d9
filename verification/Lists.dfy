// The linked lists of structure/LinkedList1.h as sequences: no element twice, removal in place.
module Lists {
  ghost predicate NoDup<T>(s: seq<T>) {
    forall i, j :: 0 <= i < j < |s| ==> s[i] != s[j]
  }

  // LinkedList1_Remove
  function Remove<T(==)>(list: seq<T>, x: T): (r: seq<T>)
    ensures x !in list ==> r == list
  {
    if list == [] then [] else if list[0] == x then list[1..] else [list[0]] + Remove(list[1..], x)
  }

  lemma {:induction false} RemoveFacts<T>(list: seq<T>, x: T)
    requires NoDup(list)
    ensures NoDup(Remove(list, x))
    ensures forall y <- Remove(list, x) :: y in list && y != x
    ensures forall y <- list :: y != x ==> y in Remove(list, x)
    ensures x in list ==> |Remove(list, x)| == |list| - 1
  {
    if list != [] {
      var rest := list[1..];
      assert list == [list[0]] + rest;
      assert list[0] !in rest;
      RemoveFacts(rest, x);
    }
  }

  lemma {:induction false} RemoveAt<T>(list: seq<T>, i: nat)
    requires i < |list| && forall j :: 0 <= j < i ==> list[j] != list[i]
    ensures Remove(list, list[i]) == list[..i] + list[i + 1..]
  {
    if i > 0 {
      RemoveAt(list[1..], i - 1);
    }
  }
}
