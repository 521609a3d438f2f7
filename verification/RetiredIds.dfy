/** The bounded sets of finished request ids (`remember_request_id` in `server.rs` and
    `transport/mod.rs`) and the provider's cancellation registry that consults them (`server.rs`). */
module RetiredIds {
  import opened Common

  type Id = nat

  const MAX_RETIRED_REQUEST_IDS: nat := 1024
  const MAX_CANCELLATION_ENTRIES: nat := 1024

  // ---------------------------------------------------------------- eviction

  ghost predicate IsLeast(least: Id, ids: set<Id>) {
    least in ids && forall k :: k in ids ==> least <= k
  }

  /** A nonempty set of ids has a smallest one, which a `BTreeSet` iterates first. */
  lemma HasLeast(ids: set<Id>) returns (least: Id)
    requires ids != {}
    ensures IsLeast(least, ids)
  {
    var x :| x in ids;
    least := x;
    var rest := ids - {x};
    while rest != {}
      invariant rest <= ids && least in ids
      invariant forall k :: k in ids && k !in rest ==> least <= k
    {
      var y :| y in rest;
      if y < least { least := y; }
      rest := rest - {y};
    }
  }

  ghost function Least(ids: set<Id>): (least: Id)
    requires ids != {}
    ensures IsLeast(least, ids)
  {
    assert exists least :: IsLeast(least, ids) by { var least := HasLeast(ids); }
    var least :| IsLeast(least, ids); least
  }

  /** What eviction does: only the smallest ids go, and only down to one below the limit. */
  ghost predicate Evicts(before: set<Id>, after: set<Id>, limit: nat) {
    && after <= before
    && (|before| < limit ==> after == before)
    && (|before| >= limit ==> |after| == if limit == 0 then 0 else limit - 1)
    && (forall k, d :: k in after && d in before && d !in after ==> d < k)
  }

  ghost function EvictSmallest(ids: set<Id>, limit: nat): (left: set<Id>)
    ensures Evicts(ids, left, limit)
    decreases |ids|
  {
    if |ids| >= limit && ids != {} then EvictSmallest(ids - {Least(ids)}, limit) else ids
  }

  /** The eviction loop shared by every bounded registry. */
  method Evict(ids: set<Id>, limit: nat) returns (left: set<Id>)
    ensures left == EvictSmallest(ids, limit)
  {
    left := ids;
    while |left| >= limit && left != {}
      invariant EvictSmallest(left, limit) == EvictSmallest(ids, limit)
      decreases |left|
    {
      ghost var least := Least(left);
      var oldest :| oldest in left && forall k :: k in left ==> oldest <= k;
      assert oldest == least;
      left := left - {oldest};
    }
  }

  /** `remember_request_id`: make room, then insert. */
  method Remember(ids: set<Id>, id: Id, limit: nat) returns (kept: set<Id>)
    ensures kept == EvictSmallest(ids, limit) + {id}
  {
    var left := Evict(ids, limit);
    kept := left + {id};
  }

  // ---------------------------------------------------------------- a whole history of finished ids

  ghost function Elements(xs: seq<Id>): set<Id> { set x | x in xs }

  /** The registry after remembering the ids of a history, oldest first. */
  ghost function Registry(xs: seq<Id>, limit: nat): set<Id> {
    if xs == [] then {}
    else EvictSmallest(Registry(xs[..|xs| - 1], limit), limit) + {xs[|xs| - 1]}
  }

  /** The `count` largest ids of a set, or all of them when there are fewer. */
  ghost predicate Largest(part: set<Id>, whole: set<Id>, count: nat) {
    && part <= whole
    && |part| == (if |whole| < count then |whole| else count)
    && forall k, d :: k in part && d in whole && d !in part ==> d < k
  }

  lemma DistinctSize(xs: seq<Id>)
    requires Distinct(xs)
    ensures |Elements(xs)| == |xs|
  {
    if xs != [] {
      var last := |xs| - 1;
      assert Elements(xs) == Elements(xs[..last]) + {xs[last]};
      assert xs[last] !in Elements(xs[..last]);
      DistinctSize(xs[..last]);
    }
  }

  lemma LargestUnique(a: set<Id>, b: set<Id>, whole: set<Id>, count: nat)
    requires Largest(a, whole, count) && Largest(b, whole, count)
    ensures a == b
  {
    if x :| x in a && x !in b {
      if forall y :: y in b ==> y in a { SmallerSubset(b, a); }
    } else if y :| y in b && y !in a {
      SmallerSubset(a, b);
    }
  }

  lemma SmallerSubset(a: set<Id>, b: set<Id>)
    requires a < b
    ensures |a| < |b|
  {
    assert b == a + (b - a);
    assert |b| == |a| + |b - a|;
  }

  /** One more id: what eviction leaves of the newest id and the largest before it is the largest
      of them all. */
  lemma EvictionKeepsLargest(earlier: set<Id>, newest: Id, kept: set<Id>, left: set<Id>, limit: nat)
    requires limit >= 1 && newest !in earlier && Largest(kept, earlier, limit - 1)
    requires Evicts(kept + {newest}, left, limit)
    ensures Largest(left, earlier + {newest}, limit - 1)
  {
    var before := kept + {newest};
    assert |before| == |kept| + 1;
    forall k, d | k in left && d in earlier + {newest} && d !in left ensures d < k {
      if d !in before {
        // d is below every kept id, and if the newest id stays then a kept one was evicted below it
        assert kept < earlier;
        SmallerSubset(kept, earlier);
        var e := Evicted(before, left);
      }
    }
  }

  lemma Evicted(before: set<Id>, left: set<Id>) returns (e: Id)
    requires left <= before && |left| < |before|
    ensures e in before && e !in left
  {
    assert before == left + (before - left);
    e :| e in before - left;
  }

  /** After remembering distinct ids, the registry is exactly the newest id together with the
      `limit - 1` largest of those before it. */
  lemma {:induction false} RegistryIsLargest(xs: seq<Id>, limit: nat)
    requires limit >= 1 && Distinct(xs) && |xs| > 0
    ensures xs[|xs| - 1] in Registry(xs, limit)
    ensures Largest(Registry(xs, limit) - {xs[|xs| - 1]}, Elements(xs[..|xs| - 1]), limit - 1)
    decreases |xs|
  {
    var n := |xs| - 1;
    var ys := xs[..n];
    var left := EvictSmallest(Registry(ys, limit), limit);
    if n > 0 {
      RegistryIsLargest(ys, limit);
      RememberOneMore(ys, Registry(ys, limit), left, limit);
    }
    assert xs[n] !in Elements(ys);
    assert Registry(xs, limit) - {xs[n]} == left;
  }

  lemma RememberOneMore(ys: seq<Id>, registry: set<Id>, left: set<Id>, limit: nat)
    requires limit >= 1 && Distinct(ys) && |ys| > 0 && Evicts(registry, left, limit)
    requires ys[|ys| - 1] in registry
    requires Largest(registry - {ys[|ys| - 1]}, Elements(ys[..|ys| - 1]), limit - 1)
    ensures Largest(left, Elements(ys), limit - 1)
  {
    var m := |ys| - 1;
    var kept := registry - {ys[m]};
    assert registry == kept + {ys[m]};
    NewestApart(ys);
    EvictionKeepsLargest(Elements(ys[..m]), ys[m], kept, left, limit);
  }

  lemma NewestApart(ys: seq<Id>)
    requires Distinct(ys) && |ys| > 0
    ensures ys[|ys| - 1] !in Elements(ys[..|ys| - 1])
    ensures Elements(ys) == Elements(ys[..|ys| - 1]) + {ys[|ys| - 1]}
  {
  }

  ghost predicate Increasing(xs: seq<Id>) {
    forall i, j :: 0 <= i < j < |xs| ==> xs[i] < xs[j]
  }

  /** When ids only grow, as the host issues them, the registry is exactly the last `limit` of them,
      so a replay of any of those is recognised. */
  lemma IncreasingKeepsLast(xs: seq<Id>, limit: nat)
    requires limit >= 1 && |xs| > 0 && Increasing(xs)
    ensures Registry(xs, limit) == Elements(xs[if |xs| < limit then 0 else |xs| - limit..])
  {
    RegistryIsLargest(xs, limit);
    LargestOfIncreasing(xs, Registry(xs, limit), limit);
  }

  lemma LargestOfIncreasing(xs: seq<Id>, registry: set<Id>, limit: nat)
    requires limit >= 1 && |xs| > 0 && Increasing(xs) && xs[|xs| - 1] in registry
    requires Largest(registry - {xs[|xs| - 1]}, Elements(xs[..|xs| - 1]), limit - 1)
    ensures registry == Elements(xs[if |xs| < limit then 0 else |xs| - limit..])
  {
    var n := |xs| - 1;
    var ys := xs[..n];
    var from := if |xs| < limit then 0 else |xs| - limit;
    TailIsLargest(ys, from, limit - 1);
    LargestUnique(registry - {xs[n]}, Elements(ys[from..]), Elements(ys), limit - 1);
    JoinNewest(xs, registry, from);
  }

  lemma JoinNewest(xs: seq<Id>, registry: set<Id>, from: nat)
    requires from < |xs| && xs[|xs| - 1] in registry
    requires registry - {xs[|xs| - 1]} == Elements(xs[..|xs| - 1][from..])
    ensures registry == Elements(xs[from..])
  {
    var older, newest := xs[..|xs| - 1][from..], xs[|xs| - 1];
    assert xs[from..] == older + [newest];
    assert Elements(older + [newest]) == Elements(older) + {newest};
    assert registry == (registry - {newest}) + {newest};
  }

  lemma TailIsLargest(xs: seq<Id>, from: nat, count: nat)
    requires from == (if |xs| < count then 0 else |xs| - count) && Increasing(xs)
    ensures Largest(Elements(xs[from..]), Elements(xs), count)
  {
    var tail := xs[from..];
    DistinctSize(xs);
    DistinctSize(tail);
    assert forall j :: from <= j < |xs| ==> xs[j] == tail[j - from];
    forall k, d | k in Elements(tail) && d in Elements(xs) && d !in Elements(tail) ensures d < k {
      var i :| 0 <= i < |tail| && tail[i] == k;
      var j :| 0 <= j < |xs| && xs[j] == d;
    }
  }

  // ---------------------------------------------------------------- the provider's request registry

  /** A cancellation entry: `registered` when a request holds its token. */
  datatype Entry = Entry(registered: bool, cancelled: bool)

  predicate Refused(entries: map<Id, Entry>, retired: set<Id>, id: Id) {
    id in retired || (id in entries && entries[id].registered)
  }

  class RequestRegistry {
    var entries: map<Id, Entry>
    var retired: set<Id>

    constructor ()
      ensures entries == map[] && retired == {}
    {
      entries, retired := map[], {};
    }

    /** `register_request`: refuses a live or remembered id; otherwise the token starts cancelled when
        the cancellation came first. */
    method Register(id: Id) returns (token: Option<bool>)
      modifies this`entries
      ensures token.None? <==> id in retired || (id in old(entries) && old(entries)[id].registered)
      ensures token.None? <==> Refused(old(entries), retired, id)
      ensures token.None? ==> entries == old(entries)
      ensures token.Some? ==>
        && token == Some(id in old(entries) && old(entries)[id].cancelled)
        && entries == old(entries)[id := Entry(true, token.value)]
    {
      if id in retired {
        return None;
      }
      if id in entries && entries[id].registered {
        return None;
      }
      var wasCancelled := id in entries && entries[id].cancelled;
      entries := entries[id := Entry(true, wasCancelled)];
      token := Some(wasCancelled);
    }

    /** `remove_request`: the id leaves the live entries and is remembered. */
    method Finish(id: Id)
      modifies this
      ensures entries == old(entries) - {id}
      ensures retired == EvictSmallest(old(retired), MAX_RETIRED_REQUEST_IDS) + {id}
    {
      entries := entries - {id};
      retired := Remember(retired, id, MAX_RETIRED_REQUEST_IDS);
    }

    /** `cancel_request`: marks a known id; an unknown one is noted after making room. */
    method CancelRequest(id: Id)
      modifies this`entries
      ensures id in old(entries) ==> entries == old(entries)[id := old(entries)[id].(cancelled := true)]
      ensures id !in old(entries) ==>
        && id in entries && entries[id] == Entry(false, true)
        && entries.Keys - {id} == EvictSmallest(old(entries).Keys, MAX_CANCELLATION_ENTRIES)
        && (forall k :: k in entries && k != id ==> entries[k] == old(entries)[k])
    {
      if id in entries {
        entries := entries[id := entries[id].(cancelled := true)];
        return;
      }
      var left := Evict(entries.Keys, MAX_CANCELLATION_ENTRIES);
      var kept := map k | k in left :: entries[k];
      assert id !in left;
      entries := kept[id := Entry(false, true)];
      assert entries.Keys - {id} == left;
    }
  }

  lemma {:induction false} RecentlyRemembered(xs: seq<Id>, limit: nat, i: nat)
    requires limit >= 1 && Increasing(xs) && |xs| - limit <= i < |xs|
    ensures xs[i] in Registry(xs, limit)
  {
    IncreasingKeepsLast(xs, limit);
    var from := if |xs| < limit then 0 else |xs| - limit;
    assert xs[from..][i - from] == xs[i];
  }

  /** Once increasing request ids have finished, a replay of any of the last 1024 is refused. */
  lemma ReplayRefused(xs: seq<Id>, entries: map<Id, Entry>, i: nat)
    requires Increasing(xs) && |xs| - MAX_RETIRED_REQUEST_IDS <= i < |xs|
    ensures Refused(entries, Registry(xs, MAX_RETIRED_REQUEST_IDS), xs[i])
  {
    RecentlyRemembered(xs, MAX_RETIRED_REQUEST_IDS, i);
  }
}
