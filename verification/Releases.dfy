/** The release directories and the `current` link of the `release` strategy
    (src/pipeline/pipeline-runner.ts and src/deployment/rollback-manager.ts). */
module Releases {
  import opened Records

  /** The directories under `releases/` with their modification times, and where `current` points. */
  datatype Store = Store(releases: map<Id, Millis>, current: Option<Id>)

  const EMPTY: Store := Store(map[], None)

  /** `current` does not dangle. */
  predicate Safe(s: Store)
  {
    s.current.Some? ==> s.current.value in s.releases
  }

  predicate IsCurrent(s: Store, id: Id)
  {
    s.current == Some(id) && id in s.releases
  }

  /** A directory listing: every release once, in any order. */
  predicate Listing(s: Store, ids: seq<Id>)
  {
    && (forall id :: id in ids ==> id in s.releases)
    && (forall id :: id in s.releases ==> id in ids)
    && (forall i, j :: 0 <= i < j < |ids| ==> ids[i] != ids[j])
  }

  // Sorting by modification time, newest first

  predicate Distinct(ids: seq<Id>)
  {
    forall i, j :: 0 <= i < j < |ids| ==> ids[i] != ids[j]
  }

  predicate NewestFirst(releases: map<Id, Millis>, ids: seq<Id>)
    requires forall id :: id in ids ==> id in releases
  {
    forall i, j :: 0 <= i < j < |ids| ==> releases[ids[i]] >= releases[ids[j]]
  }

  function Insert(releases: map<Id, Millis>, id: Id, sorted: seq<Id>): (r: seq<Id>)
    requires id in releases && forall x :: x in sorted ==> x in releases
    ensures |r| == |sorted| + 1
    ensures forall x :: x in r <==> x == id || x in sorted
  {
    if sorted == [] || releases[id] >= releases[sorted[0]] then [id] + sorted
    else [sorted[0]] + Insert(releases, id, sorted[1..])
  }

  /** The stable `entries.sort((a, b) => b.mtime - a.mtime)`. */
  function SortNewestFirst(releases: map<Id, Millis>, ids: seq<Id>): (r: seq<Id>)
    requires forall id :: id in ids ==> id in releases
    ensures |r| == |ids|
    ensures forall id :: id in r <==> id in ids
  {
    if ids == [] then [] else Insert(releases, ids[0], SortNewestFirst(releases, ids[1..]))
  }

  lemma {:induction false} InsertSorted(releases: map<Id, Millis>, id: Id, sorted: seq<Id>)
    requires id in releases && forall x :: x in sorted ==> x in releases
    requires id !in sorted && Distinct(sorted) && NewestFirst(releases, sorted)
    ensures Distinct(Insert(releases, id, sorted)) && NewestFirst(releases, Insert(releases, id, sorted))
  {
    if sorted != [] && releases[id] < releases[sorted[0]] {
      var rest := Insert(releases, id, sorted[1..]);
      InsertSorted(releases, id, sorted[1..]);
      forall x | x in rest
        ensures x != sorted[0] && releases[sorted[0]] >= releases[x]
      {
      }
      ConsSorted(releases, sorted[0], rest);
    } else {
      ConsSorted(releases, id, sorted);
    }
  }

  lemma ConsSorted(releases: map<Id, Millis>, id: Id, rest: seq<Id>)
    requires id in releases && forall x :: x in rest ==> x in releases
    requires Distinct(rest) && NewestFirst(releases, rest)
    requires id !in rest && forall x :: x in rest ==> releases[id] >= releases[x]
    ensures Distinct([id] + rest) && NewestFirst(releases, [id] + rest)
  {
    var r := [id] + rest;
    assert forall j :: 0 < j < |r| ==> r[j] == rest[j - 1] && r[j] in rest;
  }

  lemma {:induction false} SortSorts(releases: map<Id, Millis>, ids: seq<Id>)
    requires Distinct(ids) && forall id :: id in ids ==> id in releases
    ensures Distinct(SortNewestFirst(releases, ids))
    ensures NewestFirst(releases, SortNewestFirst(releases, ids))
  {
    if ids != [] {
      SortSorts(releases, ids[1..]);
      InsertSorted(releases, ids[0], SortNewestFirst(releases, ids[1..]));
    }
  }

  function Without(ids: seq<Id>, id: Id): (r: seq<Id>)
    ensures forall x :: x in r <==> x in ids && x != id
  {
    if ids == [] then [] else (if ids[0] == id then [] else [ids[0]]) + Without(ids[1..], id)
  }

  // Operations

  /** `mkdir` of the release directory, and every later write that changes its modification time. */
  function Touched(s: Store, id: Id, mtime: Millis): Store
  {
    s.(releases := s.releases[id := mtime])
  }

  function Activated(s: Store, id: Id): Store
  {
    s.(current := Some(id))
  }

  /** Whether pruning recognises the active release: its resolved path must be the listed path. */
  predicate Protected(s: Store, id: Id, canonical: bool)
  {
    canonical && IsCurrent(s, id)
  }

  /** Directories after pruning; `removable` are those whose removal succeeds. */
  function Pruned(s: Store, listing: seq<Id>, keep: nat, canonical: bool, removable: set<Id>): Store
    requires Listing(s, listing)
  {
    var sorted := SortNewestFirst(s.releases, listing);
    Swept(s, sorted, keep, |sorted|, canonical, removable)
  }

  function OrphanCleaned(s: Store, id: Id, removed: bool): Store
  {
    if id in s.releases && !IsCurrent(s, id) && removed then s.(releases := s.releases - {id}) else s
  }

  /** The newest release other than the failed one. */
  function PreviousRelease(s: Store, listing: seq<Id>, failed: Id): Option<Id>
    requires Listing(s, listing)
  {
    var others := SortNewestFirst(s.releases, Without(listing, failed));
    if others == [] then None else Some(others[0])
  }

  /** `current` is moved to the previous release unless it is there already, then the failed directory goes. */
  function RolledBackTo(s: Store, previous: Id, failed: Id, removed: bool): Store
  {
    var linked := if IsCurrent(s, previous) then s else Activated(s, previous);
    if removed then linked.(releases := linked.releases - {failed}) else linked
  }

  class ReleaseStore {
    var store: Store

    constructor ()
      ensures store == EMPTY
    {
      store := EMPTY;
    }

    /** The removal loop of the `cleanup-releases` step. */
    method PruneReleases(listing: seq<Id>, releasesToKeep: nat, canonical: bool, removable: set<Id>)
      requires Listing(store, listing)
      modifies this
      ensures store == Pruned(old(store), listing, if releasesToKeep > 1 then releasesToKeep else 1, canonical, removable)
    {
      var keep := if releasesToKeep > 1 then releasesToKeep else 1;
      var entries := SortNewestFirst(store.releases, listing);
      var activeTarget := if store.current.Some? && store.current.value in store.releases then store.current else None;
      ghost var before := store;
      var i := keep;
      SweptEnds(before, entries, keep, keep, canonical, removable);
      while i < |entries|
        invariant keep <= i
        invariant store == Swept(before, entries, keep, i, canonical, removable)
      {
        SweptNext(before, entries, keep, i, canonical, removable);
        var rel := entries[i];
        if !(canonical && activeTarget == Some(rel)) {
          if rel in removable {
            store := store.(releases := store.releases - {rel});
          }
        }
        i := i + 1;
      }
      SweptEnds(before, entries, keep, i, canonical, removable);
    }
  }

  /** Removable, unprotected entries between two positions of the sorted listing. */
  function Doomed(s: Store, entries: seq<Id>, from: nat, to: nat, canonical: bool, removable: set<Id>): set<Id>
  {
    set i | from <= i < to && i < |entries| && entries[i] in removable && !Protected(s, entries[i], canonical) :: entries[i]
  }

  /** The store after the loop has handled the positions below `to`. */
  function Swept(s: Store, entries: seq<Id>, from: nat, to: nat, canonical: bool, removable: set<Id>): Store
  {
    s.(releases := s.releases - Doomed(s, entries, from, to, canonical, removable))
  }

  lemma SweptNext(s: Store, entries: seq<Id>, from: nat, to: nat, canonical: bool, removable: set<Id>)
    requires from <= to < |entries|
    ensures var swept := Swept(s, entries, from, to, canonical, removable);
      Swept(s, entries, from, to + 1, canonical, removable)
        == if entries[to] in removable && !Protected(s, entries[to], canonical)
           then swept.(releases := swept.releases - {entries[to]}) else swept
  {
    var more := if entries[to] in removable && !Protected(s, entries[to], canonical) then {entries[to]} else {};
    assert Doomed(s, entries, from, to + 1, canonical, removable) == Doomed(s, entries, from, to, canonical, removable) + more;
  }

  lemma SweptEnds(s: Store, entries: seq<Id>, from: nat, to: nat, canonical: bool, removable: set<Id>)
    ensures Swept(s, entries, from, from, canonical, removable) == s
    ensures to >= |entries| ==>
      Swept(s, entries, from, to, canonical, removable) == Swept(s, entries, from, |entries|, canonical, removable)
  {
    assert Doomed(s, entries, from, from, canonical, removable) == {};
    if to >= |entries| {
      assert Doomed(s, entries, from, to, canonical, removable) == Doomed(s, entries, from, |entries|, canonical, removable);
    }
  }

  // Pruning

  /** With canonical paths, what survives is the newest `keep` releases and the active one. */
  lemma PruneKeepsNewestAndActive(s: Store, listing: seq<Id>, keep: nat)
    requires Listing(s, listing)
    ensures var after := Pruned(s, listing, keep, true, s.releases.Keys);
      var sorted := SortNewestFirst(s.releases, listing);
      forall id :: id in after.releases <==> id in s.releases && (id in sorted[..Least(keep, |sorted|)] || IsCurrent(s, id))
  {
    var sorted := SortNewestFirst(s.releases, listing);
    var after := Pruned(s, listing, keep, true, s.releases.Keys);
    var kept := Least(keep, |sorted|);
    SortSorts(s.releases, listing);
    forall id | id in s.releases
      ensures id in after.releases <==> id in sorted[..kept] || IsCurrent(s, id)
    {
      InPrefix(sorted, kept, id);
    }
  }

  /** In general: a release survives exactly when it is among the newest, is the active one, or cannot be removed; and the
      link and the times of the survivors stay. */
  lemma PrunedExactly(s: Store, listing: seq<Id>, keep: nat, removable: set<Id>)
    requires Listing(s, listing)
    ensures var after := Pruned(s, listing, keep, true, removable);
      var sorted := SortNewestFirst(s.releases, listing);
      && after.current == s.current
      && (forall id :: id in after.releases <==>
            id in s.releases && (id in sorted[..Least(keep, |sorted|)] || s.current == Some(id) || id !in removable))
      && (forall id :: id in after.releases ==> after.releases[id] == s.releases[id])
  {
    var sorted := SortNewestFirst(s.releases, listing);
    SortSorts(s.releases, listing);
    forall id | id in s.releases
      ensures id in Doomed(s, sorted, keep, |sorted|, true, removable) <==>
        id in removable && s.current != Some(id) && id !in sorted[..Least(keep, |sorted|)]
    {
      InPrefix(sorted, Least(keep, |sorted|), id);
    }
  }

  /** In a list without repetition, an element is in a prefix or past it, never both. */
  lemma InPrefix(ids: seq<Id>, n: nat, id: Id)
    requires Distinct(ids) && n <= |ids| && id in ids
    ensures id in ids[..n] <==> !exists i :: n <= i < |ids| && ids[i] == id
  {
    assert ids == ids[..n] + ids[n..];
    if id in ids[n..] {
      var j :| 0 <= j < |ids[n..]| && ids[n..][j] == id;
      assert ids[n + j] == id;
    }
  }

  function Least(a: nat, b: nat): nat
  {
    if a < b then a else b
  }

  /** When every removal succeeds at most one release more than `keep` remains. */
  lemma PruneBound(s: Store, listing: seq<Id>, keep: nat)
    requires Listing(s, listing)
    ensures |Pruned(s, listing, keep, true, s.releases.Keys).releases.Keys| <= keep + 1
  {
    PruneKeepsNewestAndActive(s, listing, keep);
    var sorted := SortNewestFirst(s.releases, listing);
    var kept := sorted[..Least(keep, |sorted|)];
    var after := Pruned(s, listing, keep, true, s.releases.Keys);
    var ids := set x | x in kept;
    assert after.releases.Keys <= ids + (if s.current.Some? then {s.current.value} else {});
    SetOfSeq(kept);
    AtMost(after.releases.Keys, ids + (if s.current.Some? then {s.current.value} else {}));
  }

  lemma {:induction false} SetOfSeq(ids: seq<Id>)
    ensures |set x | x in ids| <= |ids|
  {
    if ids != [] {
      SetOfSeq(ids[1..]);
      assert (set x | x in ids) == {ids[0]} + (set x | x in ids[1..]);
    } else {
      assert (set x | x in ids) == {};
    }
  }

  lemma AtMost(a: set<Id>, b: set<Id>)
    requires a <= b
    ensures |a| <= |b|
  {
    assert b == a + (b - a);
  }

  /** Pruning keeps `current` valid exactly when it recognises the active release, or has no reason or no means to remove it. */
  lemma PruneSafety(s: Store, listing: seq<Id>, keep: nat, canonical: bool, removable: set<Id>)
    requires Safe(s) && Listing(s, listing)
    ensures var sorted := SortNewestFirst(s.releases, listing);
      Safe(Pruned(s, listing, keep, canonical, removable)) <==>
        || s.current.None? || canonical || s.current.value !in removable
        || s.current.value in sorted[..Least(keep, |sorted|)]
  {
    if s.current.Some? {
      var active := s.current.value;
      var sorted := SortNewestFirst(s.releases, listing);
      SortSorts(s.releases, listing);
      InPrefix(sorted, Least(keep, |sorted|), active);
    }
  }

  // Every sequence of operations

  datatype Op =
    | Touch(id: Id, mtime: Millis)
    | Activate(id: Id)
    | Prune(listing: seq<Id>, keep: nat, removable: set<Id>)
    | CleanOrphan(id: Id, removed: bool)
    | Rollback(listing: seq<Id>, failed: Id, removed: bool)

  /** A deployment activates only its own directory, which it created; listings are of the real directory. */
  predicate Permitted(s: Store, op: Op)
  {
    match op
    case Activate(id) => id in s.releases
    case Prune(listing, _, _) => Listing(s, listing)
    case Rollback(listing, _, _) => Listing(s, listing)
    case _ => true
  }

  function Apply(s: Store, op: Op): Store
    requires Permitted(s, op)
  {
    match op
    case Touch(id, mtime) => Touched(s, id, mtime)
    case Activate(id) => Activated(s, id)
    case Prune(listing, keep, removable) => Pruned(s, listing, keep, true, removable)
    case CleanOrphan(id, removed) => OrphanCleaned(s, id, removed)
    case Rollback(listing, failed, removed) =>
      match PreviousRelease(s, listing, failed)
      case None => s
      case Some(previous) => RolledBackTo(s, previous, failed, removed)
  }

  predicate PermittedRun(s: Store, ops: seq<Op>)
    decreases |ops|
  {
    ops != [] ==> Permitted(s, ops[0]) && PermittedRun(Apply(s, ops[0]), ops[1..])
  }

  function Run(s: Store, ops: seq<Op>): Store
    requires PermittedRun(s, ops)
    decreases |ops|
  {
    if ops == [] then s else Run(Apply(s, ops[0]), ops[1..])
  }

  lemma ApplyIsSafe(s: Store, op: Op)
    requires Safe(s) && Permitted(s, op)
    ensures Safe(Apply(s, op))
  {
    match op
    case Prune(listing, keep, removable) => PruneSafety(s, listing, keep, true, removable);
    case Rollback(listing, failed, removed) =>
      var others := SortNewestFirst(s.releases, Without(listing, failed));
      if others != [] {
        assert others[0] in others;
      }
    case _ =>
  }

  /** `current` never points to a missing release. */
  lemma {:induction false} CurrentIsNeverDangling(s: Store, ops: seq<Op>)
    requires Safe(s) && PermittedRun(s, ops)
    ensures Safe(Run(s, ops))
    decreases |ops|
  {
    if ops != [] {
      ApplyIsSafe(s, ops[0]);
      CurrentIsNeverDangling(Apply(s, ops[0]), ops[1..]);
    }
  }
}
