/** The list operations the store and the handlers are built from: the
    first-match search `next((x for x in xs if x.id == id), None)`, Python's
    `list.remove`, and the ordering that auto-increment ids give a list. */
module Lists {
  import opened Wrappers

  /** The position of the first element whose key is `id`, or None when no
      element has that key. */
  function FirstIndex<T>(s: seq<T>, id: nat, key: T -> nat): (r: Option<nat>)
    ensures r.Some? ==> r.value < |s| && key(s[r.value]) == id
    ensures r.Some? ==> forall j :: 0 <= j < r.value ==> key(s[j]) != id
    ensures r.None? <==> forall j :: 0 <= j < |s| ==> key(s[j]) != id
  {
    if s == [] then None
    else if key(s[0]) == id then Some(0)
    else
      match FirstIndex(s[1..], id, key)
      case None => None
      case Some(k) => Some(k + 1)
  }

  /** Python's `s.remove(x)`: drops the first element equal to `x`. The source
      raises when `x` is absent; its callers never reach that. */
  function RemoveFirst<T(==)>(s: seq<T>, x: T): (r: seq<T>)
    requires x in s
    ensures |r| == |s| - 1
  {
    if s[0] == x then s[1..] else [s[0]] + RemoveFirst(s[1..], x)
  }

  /** `list.remove` takes out exactly one occurrence of `x` and nothing else. */
  lemma {:induction false} RemoveFirstOne<T>(s: seq<T>, x: T)
    requires x in s
    ensures multiset(RemoveFirst(s, x)) + multiset{x} == multiset(s)
  {
    assert s == [s[0]] + s[1..];
    if s[0] != x {
      RemoveFirstOne(s[1..], x);
    }
  }

  /** Keys strictly increase along the list: what appending ids taken from a
      counter that only rises produces. */
  ghost predicate Increasing<T>(s: seq<T>, key: T -> nat) {
    forall i, j :: 0 <= i < j < |s| ==> key(s[i]) < key(s[j])
  }

  /** The set of keys that occur in the list. */
  ghost function Keys<T>(s: seq<T>, key: T -> nat): set<nat> {
    set m | 0 <= m < |s| :: key(s[m])
  }

  lemma KeysAppend<T>(s: seq<T>, x: T, key: T -> nat)
    ensures Keys(s + [x], key) == Keys(s, key) + {key(x)}
  {
    var t := s + [x];
    assert forall m :: 0 <= m < |s| ==> t[m] == s[m];
    assert t[|s|] == x;
  }

  lemma KeysRemoveAt<T>(s: seq<T>, i: nat, key: T -> nat)
    requires i < |s|
    ensures Keys(s[..i] + s[i + 1..], key) <= Keys(s, key)
  {
    var t := s[..i] + s[i + 1..];
    assert forall m :: 0 <= m < |t| ==> t[m] == s[if m < i then m else m + 1];
  }

  lemma KeysUpdate<T>(s: seq<T>, i: nat, x: T, key: T -> nat)
    requires i < |s| && key(x) == key(s[i])
    ensures Keys(s[i := x], key) == Keys(s, key)
  {
    var t := s[i := x];
    assert forall m :: 0 <= m < |s| ==> key(t[m]) == key(s[m]);
  }

  /** `list.remove` of the element at position `i`, when no earlier element
      equals it, takes out exactly position `i`. */
  lemma {:induction false} RemoveFirstAt<T>(s: seq<T>, i: nat)
    requires i < |s| && forall j :: 0 <= j < i ==> s[j] != s[i]
    ensures s[i] in s && RemoveFirst(s, s[i]) == s[..i] + s[i + 1..]
  {
    if i > 0 {
      var t := s[1..];
      assert t[i - 1] == s[i];
      assert forall j :: 0 <= j < i - 1 ==> t[j] == s[j + 1];
      RemoveFirstAt(t, i - 1);
      calc {
        RemoveFirst(s, s[i]);
        [s[0]] + RemoveFirst(t, t[i - 1]);
        [s[0]] + (t[..i - 1] + t[i..]);
        { assert t[..i - 1] == s[1..i] && t[i..] == s[i + 1..]; }
        [s[0]] + (s[1..i] + s[i + 1..]);
        { assert [s[0]] + s[1..i] == s[..i]; }
        s[..i] + s[i + 1..];
      }
    }
  }

  /** Removing the element found by the search by id takes out exactly that
      position and keeps the order of the others. */
  lemma {:induction false} RemoveFound<T>(s: seq<T>, id: nat, key: T -> nat)
    requires FirstIndex(s, id, key).Some?
    ensures var i := FirstIndex(s, id, key).value;
      s[i] in s && RemoveFirst(s, s[i]) == s[..i] + s[i + 1..]
  {
    var i := FirstIndex(s, id, key).value;
    assert forall j :: 0 <= j < i ==> key(s[j]) != key(s[i]);
    RemoveFirstAt(s, i);
  }

  /** In a list with increasing keys, removing position `i` leaves the keys
      increasing and no element with the removed key. */
  lemma RemoveAtIncreasing<T>(s: seq<T>, i: nat, key: T -> nat)
    requires Increasing(s, key) && i < |s|
    ensures Increasing(s[..i] + s[i + 1..], key)
    ensures FirstIndex(s[..i] + s[i + 1..], key(s[i]), key).None?
  {
  }

  /** Appending an element whose key exceeds every key keeps the keys increasing,
      and the search then finds it at the end. */
  lemma {:induction false} AppendGreater<T>(s: seq<T>, x: T, key: T -> nat)
    requires Increasing(s, key)
    requires forall j :: 0 <= j < |s| ==> key(s[j]) < key(x)
    ensures Increasing(s + [x], key)
    ensures FirstIndex(s + [x], key(x), key) == Some(|s|)
  {
    if s != [] {
      AppendGreater(s[1..], x, key);
      assert (s + [x])[1..] == s[1..] + [x];
    }
  }
}
