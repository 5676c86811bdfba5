/**
 * The in-memory store of services/reservationStore.ts: a `Map` from
 * reservation id to the stored reservation, its risk report and the time it
 * was saved. The clock is a parameter: `now` is the time of saving, in
 * milliseconds.
 */
module ReservationStore {
  import opened Wrappers
  import opened Reservations
  import opened RuleRegistry
  import opened RiskScorer

  datatype StoredReservation = StoredReservation(reservation: NormalizedReservation, riskReport: RiskReport, createdAt: int)

  /** Newest first: `createdAt` never increases along the sequence. */
  ghost predicate NewestFirst(s: seq<StoredReservation>) {
    forall i, j :: 0 <= i < j < |s| ==> s[i].createdAt >= s[j].createdAt
  }

  /** The entries of `s` saved at time `t`, in the order of `s`. */
  function SavedAt(s: seq<StoredReservation>, t: int): seq<StoredReservation> {
    if s == [] then []
    else (if s[0].createdAt == t then [s[0]] else []) + SavedAt(s[1..], t)
  }

  /**
   * Inserts `x` into a newest-first sequence, after every entry at least as
   * new as `x`: one step of a stable sort by `b.createdAt - a.createdAt`.
   */
  function Insert(t: seq<StoredReservation>, x: StoredReservation): seq<StoredReservation> {
    if t == [] then [x]
    else if t[0].createdAt >= x.createdAt then [t[0]] + Insert(t[1..], x)
    else [x] + t
  }

  /** `Array.prototype.sort` with the comparator of `list`, which is a stable sort. */
  function SortNewestFirst(s: seq<StoredReservation>): seq<StoredReservation> {
    if s == [] then [] else Insert(SortNewestFirst(s[..|s| - 1]), s[|s| - 1])
  }

  lemma {:induction false} SavedAtAppend(a: seq<StoredReservation>, b: seq<StoredReservation>, t: int)
    ensures SavedAt(a + b, t) == SavedAt(a, t) + SavedAt(b, t)
  {
    if a == [] {
      assert a + b == b;
    } else {
      var h := if a[0].createdAt == t then [a[0]] else [];
      assert (a + b)[0] == a[0] && (a + b)[1..] == a[1..] + b;
      assert SavedAt(a + b, t) == h + SavedAt(a[1..] + b, t);
      SavedAtAppend(a[1..], b, t);
      assert h + (SavedAt(a[1..], t) + SavedAt(b, t)) == (h + SavedAt(a[1..], t)) + SavedAt(b, t);
    }
  }

  lemma {:induction false} SavedAtOlder(s: seq<StoredReservation>, t: int)
    requires NewestFirst(s) && s != [] && s[0].createdAt < t
    ensures SavedAt(s, t) == []
  {
    if |s| > 1 {
      SavedAtOlder(s[1..], t);
    }
  }

  lemma {:induction false} InsertPermutes(t: seq<StoredReservation>, x: StoredReservation)
    ensures multiset(Insert(t, x)) == multiset(t) + multiset{x}
  {
    if t != [] && t[0].createdAt >= x.createdAt {
      InsertPermutes(t[1..], x);
      assert t == [t[0]] + t[1..];
    }
  }

  /** An entry newer than the head of a newest-first sequence can go in front of it. */
  lemma InFront(t: seq<StoredReservation>, x: StoredReservation)
    requires NewestFirst(t) && (t == [] || t[0].createdAt <= x.createdAt)
    ensures NewestFirst([x] + t)
  {
    var r := [x] + t;
    forall i, j | 0 <= i < j < |r| ensures r[i].createdAt >= r[j].createdAt {
      if i == 0 {
        assert r[j] == t[j - 1];
      } else {
        assert r[i] == t[i - 1] && r[j] == t[j - 1];
      }
    }
  }

  lemma {:induction false} InsertSorted(t: seq<StoredReservation>, x: StoredReservation)
    requires NewestFirst(t)
    ensures NewestFirst(Insert(t, x))
  {
    if t == [] {
      InFront(t, x);
    } else if t[0].createdAt >= x.createdAt {
      var rest := Insert(t[1..], x);
      InsertSorted(t[1..], x);
      InsertPermutes(t[1..], x);
      forall j | 0 <= j < |rest| ensures rest[j].createdAt <= t[0].createdAt {
        assert rest[j] in multiset(t[1..]) + multiset{x} by {
          assert rest[j] in multiset(rest);
        }
      }
      InFront(rest, t[0]);
    } else {
      InFront(t, x);
    }
  }

  lemma {:induction false} InsertStable(t: seq<StoredReservation>, x: StoredReservation, c: int)
    requires NewestFirst(t)
    ensures SavedAt(Insert(t, x), c) == SavedAt(t, c) + (if x.createdAt == c then [x] else [])
  {
    if t == [] {
      assert [x][1..] == [];
    } else if t[0].createdAt >= x.createdAt {
      InsertStable(t[1..], x, c);
      SavedAtAppend([t[0]], Insert(t[1..], x), c);
      assert [t[0]][1..] == [];
    } else {
      SavedAtAppend([x], t, c);
      assert [x][1..] == [];
      if x.createdAt == c {
        SavedAtOlder(t, c);
      }
    }
  }

  /**
   * The sorted list is newest first, holds exactly the entries given, and
   * keeps entries saved at the same time in their original order.
   */
  lemma {:induction false} SortNewestFirstSpec(s: seq<StoredReservation>)
    ensures NewestFirst(SortNewestFirst(s))
    ensures multiset(SortNewestFirst(s)) == multiset(s)
    ensures |SortNewestFirst(s)| == |s|
    ensures forall c :: SavedAt(SortNewestFirst(s), c) == SavedAt(s, c)
  {
    if s != [] {
      var n := |s| - 1;
      SortNewestFirstSpec(s[..n]);
      InsertSorted(SortNewestFirst(s[..n]), s[n]);
      InsertPermutes(SortNewestFirst(s[..n]), s[n]);
      assert s == s[..n] + [s[n]];
      forall c ensures SavedAt(SortNewestFirst(s), c) == SavedAt(s, c) {
        InsertStable(SortNewestFirst(s[..n]), s[n], c);
        SavedAtAppend(s[..n], [s[n]], c);
        assert [s[n]][1..] == [];
      }
      assert |SortNewestFirst(s)| == |multiset(SortNewestFirst(s))|;
    }
  }

  /** The module-level `reservations` map; `order` holds its keys in insertion order. */
  class Store {
    var order: seq<string>
    var entries: map<string, StoredReservation>

    ghost predicate Valid()
      reads this
    {
      && Distinct(order)
      && (forall i :: 0 <= i < |order| ==> order[i] in entries)
      && (forall id :: id in entries ==> id in order)
    }

    constructor ()
      ensures Valid() && order == [] && entries == map[]
    {
      order := [];
      entries := map[];
    }

    /**
     * `save(id, reservation, riskReport)`: sets the entry, stamped with
     * `now`. An existing id is overwritten and keeps its place in the map's
     * order; a new id goes last.
     */
    method Save(id: string, reservation: NormalizedReservation, riskReport: RiskReport, now: int)
      requires Valid()
      modifies this
      ensures Valid()
      ensures entries == old(entries)[id := StoredReservation(reservation, riskReport, now)]
      ensures order == if id in old(entries) then old(order) else old(order) + [id]
    {
      if id !in entries {
        order := order + [id];
      }
      entries := entries[id := StoredReservation(reservation, riskReport, now)];
    }

    /** `get(id)`: the entry, or none for an id never saved. */
    function Get(id: string): (r: Option<StoredReservation>)
      reads this
      ensures r.Some? <==> id in entries
      ensures r.Some? ==> r.value == entries[id]
    {
      if id in entries then Some(entries[id]) else None
    }

    /** `reservations.values()`, in insertion order. */
    function Values(): (vs: seq<StoredReservation>)
      reads this
      requires Valid()
      ensures |vs| == |order|
      ensures forall i :: 0 <= i < |order| ==> vs[i] == entries[order[i]]
    {
      seq(|order|, i requires 0 <= i < |order| && order[i] in entries reads this => entries[order[i]])
    }

    /** `list()`: every stored entry, newest first. Reading it changes nothing. */
    function List(): (rs: seq<StoredReservation>)
      reads this
      requires Valid()
      ensures |rs| == |entries|
      ensures NewestFirst(rs)
      ensures multiset(rs) == multiset(Values())
      ensures forall id :: id in entries ==> entries[id] in rs
      ensures forall x :: x in rs ==> exists id :: id in entries && entries[id] == x
      ensures forall c :: SavedAt(rs, c) == SavedAt(Values(), c)
    {
      var vs := Values();
      SortedEntries(order, entries, vs);
      SortNewestFirst(vs)
    }
  }

  /**
   * Sorting the values of a map, listed once per key, gives each entry once,
   * newest first.
   */
  lemma SortedEntries(order: seq<string>, entries: map<string, StoredReservation>, vs: seq<StoredReservation>)
    requires Distinct(order)
    requires forall i :: 0 <= i < |order| ==> order[i] in entries
    requires forall id :: id in entries ==> id in order
    requires |vs| == |order| && forall i :: 0 <= i < |order| ==> vs[i] == entries[order[i]]
    ensures var rs := SortNewestFirst(vs);
      && |rs| == |entries|
      && NewestFirst(rs)
      && multiset(rs) == multiset(vs)
      && (forall id :: id in entries ==> entries[id] in rs)
      && (forall x :: x in rs ==> exists id :: id in entries && entries[id] == x)
      && (forall c :: SavedAt(rs, c) == SavedAt(vs, c))
  {
    var rs := SortNewestFirst(vs);
    SortNewestFirstSpec(vs);
    KeysCount(order, entries);
    forall id | id in entries ensures entries[id] in rs {
      var i :| 0 <= i < |order| && order[i] == id;
      assert vs[i] == entries[id];
      assert entries[id] in multiset(vs);
    }
    forall x | x in rs ensures exists id :: id in entries && entries[id] == x {
      assert x in multiset(rs);
      var i :| 0 <= i < |vs| && vs[i] == x;
      assert entries[order[i]] == x;
    }
  }

  /** A distinct list of exactly the keys of a map is as long as the map. */
  lemma {:induction false} KeysCount(order: seq<string>, m: map<string, StoredReservation>)
    requires Distinct(order)
    requires forall i :: 0 <= i < |order| ==> order[i] in m
    requires forall id :: id in m ==> id in order
    ensures |order| == |m|
  {
    if order == [] {
      assert m.Keys == {};
    } else {
      var n := |order| - 1;
      var last := order[n];
      var m' := map id | id in m && id != last :: m[id];
      forall id | id in m' ensures id in order[..n] {
        var i :| 0 <= i < |order| && order[i] == id;
        assert i != n;
      }
      KeysCount(order[..n], m');
      assert m.Keys == m'.Keys + {last};
    }
  }

  /** Saving then reading back, on a fresh store: the entry is there, stamped with the time of saving. */
  method SaveThenGet(id: string, other: string, reservation: NormalizedReservation, riskReport: RiskReport, now: int)
    returns (got: Option<StoredReservation>, missing: Option<StoredReservation>, listed: seq<StoredReservation>)
    requires other != id
    ensures got == Some(StoredReservation(reservation, riskReport, now))
    ensures missing == None
    ensures listed == [StoredReservation(reservation, riskReport, now)]
  {
    var store := new Store();
    store.Save(id, reservation, riskReport, now);
    got := store.Get(id);
    missing := store.Get(other);
    listed := store.List();
    assert store.Values() == [StoredReservation(reservation, riskReport, now)];
  }

  /** Saving an id twice keeps one entry, the later one. */
  method OverwriteKeepsOne(id: string, r1: NormalizedReservation, rep1: RiskReport, r2: NormalizedReservation, rep2: RiskReport, t1: int, t2: int)
    returns (got: Option<StoredReservation>, listed: seq<StoredReservation>)
    ensures got == Some(StoredReservation(r2, rep2, t2))
    ensures listed == [StoredReservation(r2, rep2, t2)]
  {
    var store := new Store();
    store.Save(id, r1, rep1, t1);
    store.Save(id, r2, rep2, t2);
    got := store.Get(id);
    listed := store.List();
    assert store.Values() == [StoredReservation(r2, rep2, t2)];
  }
}
