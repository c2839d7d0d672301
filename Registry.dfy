/**
 * The client registry seen through its ids.
 *
 * Both server variants keep their clients in a `List<ClientModel>` and look
 * clients up with `clients.Where(x => x.Id.Equals(id)).FirstOrDefault()`.
 * This module states, on the sequence of ids of that list, what a first-match
 * lookup, an append and a first-match removal do, and proves that unique ids
 * survive removal, that removal is idempotent, and that any run of additions
 * and removals leaves exactly the ids added and not removed since.
 */
module Registry {

  /** A client identifier: the string form of a `Guid`. */
  type Id = string

  datatype Option<T> = None | Some(value: T)

  /** No id occurs twice. */
  predicate NoDup(s: seq<Id>) {
    forall i, j :: 0 <= i < j < |s| ==> s[i] != s[j]
  }

  /** The set of ids in `s`. */
  function Members(s: seq<Id>): set<Id> {
    set x | x in s
  }

  /** The index of the first occurrence of `x` in `s`, as `FirstOrDefault` finds it. */
  function FirstIndex(s: seq<Id>, x: Id): (r: Option<nat>)
    ensures r.None? <==> x !in s
    ensures r.Some? ==> r.value < |s| && s[r.value] == x
    ensures r.Some? ==> forall j :: 0 <= j < r.value ==> s[j] != x
  {
    if s == [] then None
    else if s[0] == x then Some(0)
    else match FirstIndex(s[1..], x)
      case None => None
      case Some(k) => Some(k + 1)
  }

  /** `s` with its element at `k` taken out and the rest kept in order. */
  function RemoveAt<T>(s: seq<T>, k: nat): seq<T>
    requires k < |s|
  {
    s[..k] + s[k + 1..]
  }

  /** `List.Remove` of the client that `FirstOrDefault` found: the first occurrence of `x` goes. */
  function Without(s: seq<Id>, x: Id): (r: seq<Id>)
    ensures x !in s ==> r == s
    ensures x in s ==> |r| == |s| - 1
    ensures multiset(r) == multiset(s) - multiset{x}
  {
    match FirstIndex(s, x)
    case None => s
    case Some(k) =>
      assert s == s[..k] + [s[k]] + s[k + 1..];
      RemoveAt(s, k)
  }

  lemma NoDupAppend(s: seq<Id>, x: Id)
    ensures NoDup(s + [x]) <==> NoDup(s) && x !in s
  {
    assert forall i :: 0 <= i < |s| ==> (s + [x])[i] == s[i];
    if x in s {
      var i :| 0 <= i < |s| && s[i] == x;
      assert (s + [x])[i] == (s + [x])[|s|];
    }
  }

  /** Taking one element out of a list with unique ids keeps them unique. */
  lemma RemoveAtNoDup(s: seq<Id>, k: nat)
    requires NoDup(s) && k < |s|
    ensures NoDup(RemoveAt(s, k))
  {
    var r := RemoveAt(s, k);
    forall i, j | 0 <= i < j < |r| ensures r[i] != r[j] {
      var i' := if i < k then i else i + 1;
      var j' := if j < k then j else j + 1;
      assert r[i] == s[i'] && r[j] == s[j'];
    }
  }

  /** With unique ids, what is left after taking out the element at `k` is everything but it. */
  lemma RemoveAtMembers(s: seq<Id>, k: nat, y: Id)
    requires NoDup(s) && k < |s|
    ensures y in RemoveAt(s, k) <==> y in s && y != s[k]
  {
    assert s == s[..k] + [s[k]] + s[k + 1..];
    assert s[k] !in s[..k] + s[k + 1..] by {
      forall j | 0 <= j < |s| && j != k ensures s[j] != s[k] {}
    }
  }

  /** Removal keeps ids unique and takes the removed id out for good. */
  lemma WithoutUnique(s: seq<Id>, x: Id)
    requires NoDup(s)
    ensures NoDup(Without(s, x))
    ensures x !in Without(s, x)
    ensures Members(Without(s, x)) == Members(s) - {x}
  {
    match FirstIndex(s, x)
    case None =>
    case Some(k) =>
      RemoveAtNoDup(s, k);
      forall y ensures y in Without(s, x) <==> y in s && y != x {
        RemoveAtMembers(s, k, y);
      }
  }

  /** With unique ids, removing an id twice is the same as removing it once. */
  lemma WithoutIdempotent(s: seq<Id>, x: Id)
    requires NoDup(s)
    ensures Without(Without(s, x), x) == Without(s, x)
  {
    WithoutUnique(s, x);
  }

  /** The first occurrence of an id that was appended when it was new is the appended one. */
  lemma FirstIndexAppended(s: seq<Id>, x: Id)
    requires x !in s
    ensures FirstIndex(s + [x], x) == Some(|s|)
  {
    assert (s + [x])[|s|] == x;
    assert forall j :: 0 <= j < |s| ==> (s + [x])[j] == s[j];
  }

  /** Removing the id that was just appended, when it was new, restores the list. */
  lemma WithoutAppended(s: seq<Id>, x: Id)
    requires x !in s
    ensures Without(s + [x], x) == s
  {
    FirstIndexAppended(s, x);
    assert (s + [x])[..|s|] == s;
  }

  /** One registry change: `AddClient` of a client with this id, or `RemoveClient(id)`. */
  datatype Change = Join(id: Id) | Part(id: Id)

  /** The ids of the registry after the changes, applied in order. */
  function Replay(s: seq<Id>, changes: seq<Change>): seq<Id>
    decreases |changes|
  {
    if changes == [] then s
    else match changes[0]
      case Join(x) => Replay(s + [x], changes[1..])
      case Part(x) => Replay(Without(s, x), changes[1..])
  }

  /** The ids that were present or added, and not removed after their last addition. */
  function Live(m: set<Id>, changes: seq<Change>): set<Id>
    decreases |changes|
  {
    if changes == [] then m
    else match changes[0]
      case Join(x) => Live(m + {x}, changes[1..])
      case Part(x) => Live(m - {x}, changes[1..])
  }

  /** Every added id is new at the time it is added, as a fresh `Guid` is. */
  predicate FreshJoins(s: seq<Id>, changes: seq<Change>)
    decreases |changes|
  {
    changes == [] ||
    match changes[0]
      case Join(x) => x !in s && FreshJoins(s + [x], changes[1..])
      case Part(x) => FreshJoins(Without(s, x), changes[1..])
  }

  /**
   * Any run of additions of fresh ids and removals keeps ids unique and leaves
   * exactly the ids added and not removed since.
   */
  lemma {:induction false} ReplayLive(s: seq<Id>, changes: seq<Change>)
    requires NoDup(s) && FreshJoins(s, changes)
    ensures NoDup(Replay(s, changes))
    ensures Members(Replay(s, changes)) == Live(Members(s), changes)
    decreases |changes|
  {
    if changes != [] {
      match changes[0]
      case Join(x) =>
        NoDupAppend(s, x);
        assert Members(s + [x]) == Members(s) + {x};
        ReplayLive(s + [x], changes[1..]);
      case Part(x) =>
        WithoutUnique(s, x);
        ReplayLive(Without(s, x), changes[1..]);
    }
  }
}
