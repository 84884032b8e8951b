/**
 * The back ends' `WATCHLISTS` dictionary: user id to the list of movie ids on
 * that user's watchlist. Adding appends an id only when it is absent, so no
 * list ever holds an id twice; removing deletes the id from a list that holds
 * it. The three variants (app_connexion.py, routes/default_controller.py,
 * app.py) each keep their own dictionary with this behaviour.
 */
module WatchlistStore {
  import opened Wrappers
  import opened Seqs

  /** What a watchlist handler answers: the ids, a success message, or an error status and message. */
  datatype Response = Ids(ids: seq<int>) | Done(message: string) | Failed(status: nat, error: string)

  /** The `X-User-ID` request header, `'anonymous'` when it is absent. */
  function UserKey(header: Option<string>): string {
    header.GetOr("anonymous")
  }

  /** Python's `lst.remove(x)`: deletes the first occurrence of `x`, keeping the rest in order. */
  function RemoveFirst(s: seq<int>, x: int): (r: seq<int>)
    requires x in s
    ensures |r| == |s| - 1
    ensures multiset(r) == multiset(s) - multiset{x}
  {
    assert s == [s[0]] + s[1..];
    if s[0] == x then s[1..] else [s[0]] + RemoveFirst(s[1..], x)
  }

  /** The index of the first occurrence of `x`, Python's `lst.index(x)`. */
  function IndexOf(s: seq<int>, x: int): (i: nat)
    requires x in s
    ensures i < |s| && s[i] == x
    ensures forall k :: 0 <= k < i ==> s[k] != x
  {
    if s[0] == x then 0 else 1 + IndexOf(s[1..], x)
  }

  /** The removal is at the first occurrence: the elements before it and after it stay in place. */
  lemma {:induction false} RemoveFirstAt(s: seq<int>, x: int)
    requires x in s
    ensures RemoveFirst(s, x) == s[..IndexOf(s, x)] + s[IndexOf(s, x) + 1..]
  {
    if s[0] != x {
      var t := s[1..];
      RemoveFirstAt(t, x);
      var j := IndexOf(t, x);
      assert IndexOf(s, x) == j + 1;
      assert RemoveFirst(s, x) == [s[0]] + (t[..j] + t[j + 1..]);
      SplitAround(s, j);
    }
  }

  /** Cutting `s` around index `j + 1` is cutting its tail around `j`. */
  lemma SplitAround(s: seq<int>, j: nat)
    requires j + 1 < |s|
    ensures [s[0]] + (s[1..][..j] + s[1..][j + 1..]) == s[..j + 1] + s[j + 2..]
  {
    assert [s[0]] + s[1..][..j] == s[..j + 1];
    assert s[1..][j + 1..] == s[j + 2..];
  }

  /** Removing an element that was appended to a list not holding it gives the list back. */
  lemma {:induction false} RemoveAppended(s: seq<int>, x: int)
    requires x !in s
    ensures RemoveFirst(s + [x], x) == s
  {
    if s != [] {
      assert (s + [x])[1..] == s[1..] + [x];
      RemoveAppended(s[1..], x);
    }
  }

  /** `WATCHLISTS.get(user, [])`. */
  function Lookup(lists: map<string, seq<int>>, user: string): seq<int> {
    if user in lists then lists[user] else []
  }

  /** The dictionary after a successful add: the user gets a list, and the id is appended when absent. */
  function Added(lists: map<string, seq<int>>, user: string, id: int): map<string, seq<int>> {
    var current := Lookup(lists, user);
    lists[user := if id in current then current else current + [id]]
  }

  /** The dictionary after a successful remove of an id the user's list holds. */
  function Removed(lists: map<string, seq<int>>, user: string, id: int): map<string, seq<int>>
    requires id in Lookup(lists, user)
  {
    lists[user := RemoveFirst(lists[user], id)]
  }

  /** No user's list holds an id twice. */
  ghost predicate AllDistinct(lists: map<string, seq<int>>) {
    forall u :: u in lists ==> NoDuplicates(lists[u])
  }

  /**
   * Adding keeps the lists distinct, leaves the id on the user's list exactly
   * once, keeps what was there in order, and touches no other user.
   */
  lemma AddedSpec(lists: map<string, seq<int>>, user: string, id: int)
    requires AllDistinct(lists)
    ensures var after := Added(lists, user, id);
      && AllDistinct(after)
      && user in after
      && Count(Lookup(after, user), id) == 1
      && Lookup(after, user)[..|Lookup(lists, user)|] == Lookup(lists, user)
      && (forall v :: v != user ==> (v in after <==> v in lists) && Lookup(after, v) == Lookup(lists, v))
  {
    var current := Lookup(lists, user);
    var after := Added(lists, user, id);
    var list := if id in current then current else current + [id];
    assert after == lists[user := list];
    assert NoDuplicates(list) by {
      if id !in current {
        AppendFreshNoDuplicates(current, id);
      }
    }
    assert Lookup(after, user) == list;
    assert list[..|current|] == current;
    CountNoDuplicates(list, id);
    forall u | u in after ensures NoDuplicates(after[u]) {
      if u != user {
        assert after[u] == lists[u];
      }
    }
    forall v | v != user ensures (v in after <==> v in lists) && Lookup(after, v) == Lookup(lists, v) {
    }
  }

  /** Appending an element a list without duplicates does not hold keeps it without duplicates. */
  lemma AppendFreshNoDuplicates(s: seq<int>, x: int)
    requires NoDuplicates(s) && x !in s
    ensures NoDuplicates(s + [x])
  {
    forall i, j | 0 <= i < j < |s + [x]| ensures (s + [x])[i] != (s + [x])[j] {
      if j == |s| {
        assert (s + [x])[i] == s[i];
      }
    }
  }

  /** Adding the same id twice is adding it once. */
  lemma AddIdempotent(lists: map<string, seq<int>>, user: string, id: int)
    ensures Added(Added(lists, user, id), user, id) == Added(lists, user, id)
  {
  }

  /** Removing from a list without duplicates leaves a list without duplicates and without `x`. */
  lemma {:induction false} RemoveFirstDistinct(s: seq<int>, x: int)
    requires NoDuplicates(s) && x in s
    ensures NoDuplicates(RemoveFirst(s, x)) && x !in RemoveFirst(s, x)
    ensures multiset(RemoveFirst(s, x)) == multiset(s) - multiset{x}
  {
    assert s == [s[0]] + s[1..];
    if s[0] == x {
      assert x !in s[1..];
    } else {
      var t := RemoveFirst(s[1..], x);
      RemoveFirstDistinct(s[1..], x);
      assert s[0] !in s[1..];
      assert s[0] !in multiset(t);
      assert RemoveFirst(s, x) == [s[0]] + t;
    }
  }

  /**
   * Removing an id the user's list holds keeps the lists distinct, leaves the
   * id off that list, keeps every other id of it, and touches no other user.
   */
  lemma RemovedSpec(lists: map<string, seq<int>>, user: string, id: int)
    requires AllDistinct(lists) && id in Lookup(lists, user)
    ensures var after := Removed(lists, user, id);
      && AllDistinct(after)
      && id !in Lookup(after, user)
      && multiset(Lookup(after, user)) == multiset(Lookup(lists, user)) - multiset{id}
      && (forall v :: v != user ==> (v in after <==> v in lists) && Lookup(after, v) == Lookup(lists, v))
  {
    RemoveFirstDistinct(lists[user], id);
  }

  /** Adding an id that was absent and removing it again gives the user's list back. */
  lemma AddThenRemove(lists: map<string, seq<int>>, user: string, id: int)
    requires id !in Lookup(lists, user)
    ensures id in Lookup(Added(lists, user, id), user)
    ensures Lookup(Removed(Added(lists, user, id), user, id), user) == Lookup(lists, user)
  {
    RemoveAppended(Lookup(lists, user), id);
  }

  /** One `WATCHLISTS` dictionary, whose lists the handlers change in place. */
  class Store {
    var lists: map<string, seq<int>>

    ghost predicate Valid()
      reads this
    {
      AllDistinct(lists)
    }

    /** `WATCHLISTS = {}`. */
    constructor ()
      ensures Valid() && lists == map[]
    {
      lists := map[];
    }

    /** `WATCHLISTS.get(user, [])`: an unknown user reads as the empty list. */
    function Get(user: string): seq<int>
      reads this
    {
      Lookup(lists, user)
    }

    /** Creates the user's list when missing, then appends `id` unless it is already there. */
    method Add(user: string, id: int)
      requires Valid()
      modifies this
      ensures Valid()
      ensures lists == Added(old(lists), user, id)
      ensures Count(Get(user), id) == 1
    {
      AddedSpec(lists, user, id);
      ghost var after := Added(lists, user, id);
      if user !in lists {
        lists := lists[user := []];
      }
      assert lists[user] == Lookup(old(lists), user);
      if id !in lists[user] {
        lists := lists[user := lists[user] + [id]];
      }
      assert lists == after;
    }

    /** Removes `id` from the user's list when it is there, and reports whether it was. */
    method Remove(user: string, id: int) returns (found: bool)
      requires Valid()
      modifies this
      ensures Valid()
      ensures found <==> id in old(Get(user))
      ensures found ==> lists == Removed(old(lists), user, id) && id !in Get(user)
      ensures !found ==> lists == old(lists)
    {
      found := user in lists && id in lists[user];
      if found {
        RemovedSpec(lists, user, id);
        lists := lists[user := RemoveFirst(lists[user], id)];
      }
    }
  }
}
