/** Copy-on-write host maps: editable maps, frozen snapshots of them behind a published
    slot, and the reference counts that keep the hosts alive. */
module HostMaps {
  import opened FilterTypes

  type Host = nat
  type Key = string
  type Table = map<Key, Host>

  datatype HostMap = HostMap(refs: nat, table: Table)

  datatype Snapshot = Snapshot(refs: nat, store: nat)

  /** The live maps in which a host is stored under its own address. */
  function Holders(maps: map<nat, HostMap>, address: Host -> Key, h: Host): set<nat> {
    set m | m in maps && address(h) in maps[m].table && maps[m].table[address(h)] == h
  }

  function Count(counts: map<Host, nat>, h: Host): nat {
    if h in counts then counts[h] else 0
  }

  predicate Keyed(table: Table, address: Host -> Key) {
    forall k :: k in table ==> address(table[k]) == k
  }

  lemma HoldersSet(maps: map<nat, HostMap>, address: Host -> Key, m: nat, to: HostMap, h: Host)
    ensures var holds := address(h) in to.table && to.table[address(h)] == h;
            Holders(maps[m := to], address, h) ==
              if holds then Holders(maps, address, h) + {m} else Holders(maps, address, h) - {m}
  {}

  predicate Holds(table: Table, address: Host -> Key, h: Host) {
    address(h) in table && table[address(h)] == h
  }

  /** How a change of one table changes the number of holders of a host. */
  lemma HoldersCount(maps: map<nat, HostMap>, address: Host -> Key, m: nat, to: HostMap, h: Host)
    requires m in maps
    ensures |Holders(maps[m := to], address, h)| + (if Holds(maps[m].table, address, h) then 1 else 0)
            == |Holders(maps, address, h)| + (if Holds(to.table, address, h) then 1 else 0)
  {
    HoldersSet(maps, address, m, to, h);
    var was := Holders(maps, address, h);
    assert m in was <==> Holds(maps[m].table, address, h);
    assert m in was ==> was - {m} + {m} == was;
    assert m !in was ==> was - {m} == was;
    assert m in was ==> was + {m} == was;
  }

  lemma HoldersGone(maps: map<nat, HostMap>, address: Host -> Key, m: nat, h: Host)
    requires m in maps && maps[m].table == map[]
    ensures Holders(maps - {m}, address, h) == Holders(maps, address, h)
  {}

  lemma Smaller(table: Table, k: Key)
    requires k in table
    ensures |table - {k}| < |table|
  {
    assert table.Keys == (table - {k}).Keys + {k};
    assert |table.Keys| == |table| && |(table - {k}).Keys| == |table - {k}|;
  }

  /** A host's reference count is the number of live maps that hold it plus what else refers to
      it. */
  ghost predicate CountedBy(
    maps: map<nat, HostMap>, refs: map<Host, nat>, outside: map<Host, nat>, address: Host -> Key)
  {
    forall h :: Count(refs, h) == |Holders(maps, address, h)| + Count(outside, h)
  }

  lemma StoredCounted(
    maps: map<nat, HostMap>, refs: map<Host, nat>, outside: map<Host, nat>, address: Host -> Key, m: nat, h: Host)
    requires CountedBy(maps, refs, outside, address) && m in maps && Holds(maps[m].table, address, h)
    ensures Count(refs, h) > 0
  {
    assert m in Holders(maps, address, h);
  }

  /** The counts after host h took the place of whoever is stored under its address in map m. */
  lemma {:induction false} ReplacedCounts(
    maps: map<nat, HostMap>, address: Host -> Key, m: nat, h: Host, refs: map<Host, nat>, after: map<Host, nat>,
    outside: map<Host, nat>)
    requires m in maps && CountedBy(maps, refs, outside, address)
    requires forall x :: Count(after, x) == Count(refs, x) + (if x == h then 1 else 0) -
               (if Holds(maps[m].table, address, x) && address(x) == address(h) then 1 else 0)
    ensures var to := HostMap(maps[m].refs, maps[m].table[address(h) := h]);
            CountedBy(maps[m := to], after, outside, address)
  {
    hide Holders;
    var table, to := maps[m].table, HostMap(maps[m].refs, maps[m].table[address(h) := h]);
    var changed := maps[m := to];
    forall x ensures Count(after, x) == |Holders(changed, address, x)| + Count(outside, x) {
      HoldersCount(maps, address, m, to, x);
      assert Holds(to.table, address, x) == (x == h || (Holds(table, address, x) && address(x) != address(h)));
      assert Count(refs, x) == |Holders(maps, address, x)| + Count(outside, x);
    }
  }

  /** An outside reference is given up. */
  lemma TakenCounted(
    maps: map<nat, HostMap>, refs: map<Host, nat>, outside: map<Host, nat>, address: Host -> Key, h: Host)
    requires CountedBy(maps, refs, outside, address) && Count(outside, h) > 0
    ensures Count(refs, h) > 0
    ensures CountedBy(maps, refs[h := Count(refs, h) - 1], outside[h := Count(outside, h) - 1], address)
  {
    hide Holders;
  }

  /** The snapshots after one reference to one of them was given up. */
  function Released(snaps: map<nat, Snapshot>, s: Option<nat>): map<nat, Snapshot>
    requires s.Some? ==> s.value in snaps && snaps[s.value].refs > 0
  {
    if s.None? then snaps
    else if snaps[s.value].refs == 1 then snaps - {s.value}
    else snaps[s.value := Snapshot(snaps[s.value].refs - 1, snaps[s.value].store)]
  }

  /** The maps after that: a snapshot's own map goes with it. */
  function Kept(maps: map<nat, HostMap>, snaps: map<nat, Snapshot>, s: Option<nat>): map<nat, HostMap>
    requires s.Some? ==> s.value in snaps
  {
    if s.Some? && snaps[s.value].refs == 1 then maps - {snaps[s.value].store} else maps
  }

  /** Every snapshot is referred to and owns a map of its own; the published one is among them. */
  ghost predicate OwnedBy(maps: map<nat, HostMap>, snaps: map<nat, Snapshot>, published: Option<nat>, next: nat) {
    (forall s :: s in snaps ==>
       s < next && snaps[s].refs > 0 && snaps[s].store in maps && maps[snaps[s].store].refs == 1) &&
    (forall s, t :: s in snaps && t in snaps && s != t ==> snaps[s].store != snaps[t].store) &&
    (published.Some? ==> published.value in snaps)
  }

  /** A new snapshot with a new map. */
  lemma FrozenOwned(
    maps: map<nat, HostMap>, after: map<nat, HostMap>, snaps: map<nat, Snapshot>, published: Option<nat>, next: nat,
    store: nat)
    requires OwnedBy(maps, snaps, published, next) && store !in maps && store in after && after[store].refs == 1
    requires forall x :: x in maps ==> x in after && after[x] == maps[x]
    ensures OwnedBy(after, snaps[next := Snapshot(1, store)], published, next + 1) && next !in snaps
  {}

  lemma ReleasedOwned(maps: map<nat, HostMap>, snaps: map<nat, Snapshot>, published: Option<nat>, next: nat, s: nat)
    requires OwnedBy(maps, snaps, published, next) && s in snaps && (published == Some(s) ==> snaps[s].refs > 1)
    ensures snaps[s].refs > 0 && snaps[s].store in maps
    ensures OwnedBy(Kept(maps, snaps, Some(s)), Released(snaps, Some(s)), published, next)
    ensures forall t :: t in snaps ==> snaps[t].store in maps && (t != s ==> snaps[t].store != snaps[s].store)
  {}

  lemma OwnedLater(maps: map<nat, HostMap>, snaps: map<nat, Snapshot>, published: Option<nat>, next: nat, later: nat)
    requires OwnedBy(maps, snaps, published, next) && next <= later
    ensures OwnedBy(maps, snaps, published, later)
  {}

  class Registry {
    var maps: map<nat, HostMap>
    var snaps: map<nat, Snapshot>
    var published: Option<nat>
    var refs: map<Host, nat>
    /** References held by anything other than a map. */
    var outside: map<Host, nat>
    var next: nat
    const address: Host -> Key

    constructor (address: Host -> Key)
      ensures Valid() && maps == map[] && snaps == map[] && published == None && this.address == address
    {
      this.address := address;
      maps, snaps, published, refs, outside, next := map[], map[], None, map[], map[], 0;
    }

    /** Each key is its host's address, and a host's reference count is the number of live
        maps that hold it plus the outside references. */
    ghost predicate Counted()
      reads this`maps, this`refs, this`outside, this`next
    {
      (forall m :: m in maps ==> m < next && Keyed(maps[m].table, address)) && CountedBy(maps, refs, outside, address)
    }

    /** Every snapshot owns a map of its own. */
    ghost predicate Owned()
      reads this
    {
      OwnedBy(maps, snaps, published, next)
    }

    ghost predicate Valid()
      reads this
    {
      Counted() && Owned()
    }

    /** Maps that no snapshot owns may be edited. */
    ghost predicate Editable(m: nat)
      reads this
    {
      m in maps && forall s :: s in snaps ==> snaps[s].store != m
    }

    /** Nothing changed but the table of map m. */
    twostate predicate OnlyTable(m: nat)
      reads this
    {
      maps.Keys == old(maps).Keys && m in maps && maps[m].refs == old(maps)[m].refs && next == old(next) &&
      snaps == old(snaps) && published == old(published) &&
      forall x :: x in maps && x != m ==> maps[x] == old(maps)[x]
    }

    /** The snapshots that are still there read as they did. */
    twostate predicate SnapshotsKept()
      reads this
    {
      forall s :: s in snaps && s in old(snaps) && snaps[s].store in maps && old(snaps)[s].store in old(maps) ==>
        maps[snaps[s].store].table == old(maps)[old(snaps)[s].store].table
    }

    /** Replacing an entry: the new host gains a reference and the old one loses its own. */
    method Replace(m: nat, h: Host)
      requires Counted() && m in maps
      modifies this`maps, this`refs
      ensures Counted() && OnlyTable(m)
      ensures maps[m].table == old(maps)[m].table[address(h) := h]
    {
      hide Holders, CountedBy;
      var table, k := maps[m].table, address(h);
      refs := refs[h := Count(refs, h) + 1];
      if k in table {
        var gone := table[k];
        StoredCounted(maps, old(refs), outside, address, m, gone);
        refs := refs[gone := Count(refs, gone) - 1];
      }
      ReplacedCounts(maps, address, m, h, old(refs), refs, outside);
      maps := maps[m := maps[m].(table := table[k := h])];
    }

    /** Dropping an entry and the reference that went with it. */
    method Drop(m: nat, k: Key)
      requires Counted() && m in maps && k in maps[m].table
      modifies this`maps, this`refs
      ensures Counted() && OnlyTable(m)
      ensures maps[m].table == old(maps)[m].table - {k}
    {
      hide Holders;
      var gone := maps[m].table[k];
      StoredCounted(maps, refs, outside, address, m, gone);
      refs := refs[gone := Count(refs, gone) - 1];
      ghost var before := maps;
      maps := maps[m := maps[m].(table := maps[m].table - {k})];
      forall x ensures Count(refs, x) == |Holders(maps, address, x)| + Count(outside, x)
      {
        HoldersCount(before, address, m, maps[m], x);
      }
    }

    method NewMap() returns (m: nat)
      requires Counted()
      modifies this`maps, this`next
      ensures Counted() && m == old(next) && next == old(next) + 1 && m !in old(maps)
      ensures maps == old(maps)[m := HostMap(1, map[])]
    {
      m := next;
      next := next + 1;
      ghost var before := maps;
      maps := maps[m := HostMap(1, map[])];
      forall x ensures Holders(maps, address, x) == Holders(before, address, x)
      {
        HoldersSet(before, address, m, maps[m], x);
      }
    }

    /** The map takes a reference of its own. */
    method Add(m: nat, h: Host)
      requires Valid() && Editable(m)
      modifies this`maps, this`refs
      ensures Valid() && OnlyTable(m) && SnapshotsKept()
      ensures maps[m].table == old(maps)[m].table[address(h) := h]
    {
      Replace(m, h);
    }

    /** The map takes over a reference of the caller's. */
    method AddTake(m: nat, h: Host)
      requires Valid() && Editable(m) && Count(outside, h) > 0
      modifies this`maps, this`refs, this`outside
      ensures Valid() && OnlyTable(m) && SnapshotsKept()
      ensures maps[m].table == old(maps)[m].table[address(h) := h]
      ensures outside == old(outside)[h := Count(old(outside), h) - 1]
    {
      hide CountedBy;
      TakenCounted(maps, refs, outside, address, h);
      outside := outside[h := Count(outside, h) - 1];
      refs := refs[h := Count(refs, h) - 1];
      Replace(m, h);
    }

    /** Removal goes by address: whichever host is stored there goes. */
    method Remove(m: nat, h: Host) returns (found: bool)
      requires Valid() && Editable(m)
      modifies this`maps, this`refs
      ensures Valid() && OnlyTable(m) && SnapshotsKept()
      ensures found == (address(h) in old(maps)[m].table)
      ensures maps[m].table == old(maps)[m].table - {address(h)}
    {
      found := address(h) in maps[m].table;
      if found { Drop(m, address(h)); }
    }

    /** Filling an empty map with the hosts of another, one by one. */
    method Fill(m: nat, source: Table)
      requires Counted() && m in maps && maps[m].table == map[] && Keyed(source, address)
      modifies this`maps, this`refs
      ensures Counted() && OnlyTable(m) && maps[m].table == source
    {
      var todo := source.Keys;
      while todo != {}
        invariant Counted() && OnlyTable(m) && todo <= source.Keys
        invariant maps[m].table == source - todo
        decreases |todo|
      {
        var k :| k in todo;
        todo := todo - {k};
        Replace(m, source[k]);
      }
    }

    /** A snapshot holds what the map holds, and freezing changes neither. */
    method Freeze(m: nat) returns (s: nat)
      requires Valid() && m in maps
      modifies this`maps, this`refs, this`snaps, this`next
      ensures Valid() && SnapshotsKept() && s !in old(snaps) && published == old(published)
      ensures s in snaps && snaps == old(snaps)[s := Snapshot(1, snaps[s].store)] && snaps[s].store !in old(maps)
      ensures maps == old(maps)[snaps[s].store := HostMap(1, old(maps)[m].table)]
    {
      hide Holders, CountedBy, OwnedBy;
      var source := maps[m].table;
      var store := NewMap();
      Fill(store, source);
      FrozenOwned(old(maps), maps, snaps, published, next, store) by {
        OwnedLater(old(maps), snaps, published, old(next), next);
      }
      s := next;
      next := next + 1;
      snaps := snaps[s := Snapshot(1, store)];
    }

    /** A fresh editable map with the contents of a snapshot. */
    method CloneFromSnapshot(s: nat) returns (m: nat)
      requires Valid() && s in snaps
      modifies this`maps, this`refs, this`next
      ensures Valid() && Editable(m) && SnapshotsKept() && m !in old(maps) && snaps == old(snaps) &&
              published == old(published)
      ensures maps == old(maps)[m := HostMap(1, old(maps)[old(snaps)[s].store].table)]
    {
      hide Holders;
      var source := maps[snaps[s].store].table;
      m := NewMap();
      Fill(m, source);
    }

    /** The last reference destroys the map and releases its hosts. */
    method Destroy(m: nat)
      requires Counted() && m in maps
      modifies this`maps, this`refs
      ensures Counted() && maps == old(maps) - {m}
    {
      Empty(m);
      forall x ensures Holders(maps - {m}, address, x) == Holders(maps, address, x) {
        HoldersGone(maps, address, m, x);
      }
      maps := maps - {m};
    }

    method Empty(m: nat)
      requires Counted() && m in maps
      modifies this`maps, this`refs
      ensures Counted() && OnlyTable(m) && maps[m].table == map[]
    {
      hide Holders, Counted;
      while maps[m].table != map[]
        invariant Counted() && OnlyTable(m)
        decreases |maps[m].table|
      {
        var k :| k in maps[m].table;
        Smaller(maps[m].table, k);
        Drop(m, k);
      }
    }

    method UnrefMap(m: nat)
      requires Valid() && Editable(m) && maps[m].refs > 0
      modifies this`maps, this`refs
      ensures Valid() && SnapshotsKept() && snaps == old(snaps)
      ensures maps == if old(maps)[m].refs == 1 then old(maps) - {m}
                      else old(maps)[m := HostMap(old(maps)[m].refs - 1, old(maps)[m].table)]
    {
      hide Holders, Counted;
      if maps[m].refs == 1 {
        Destroy(m);
      } else {
        SetRefs(m, maps[m].refs - 1);
      }
    }

    method SetRefs(m: nat, n: nat)
      requires Counted() && m in maps
      modifies this`maps
      ensures Counted() && maps == old(maps)[m := HostMap(n, old(maps)[m].table)]
    {
      ghost var before := maps;
      maps := maps[m := HostMap(n, maps[m].table)];
      forall x ensures Holders(maps, address, x) == Holders(before, address, x) {
        HoldersSet(before, address, m, maps[m], x);
      }
    }

    method RefSnap(s: nat)
      requires Valid() && s in snaps
      modifies this`snaps
      ensures Valid() && SnapshotsKept() &&
              snaps == old(snaps)[s := Snapshot(old(snaps)[s].refs + 1, old(snaps)[s].store)]
    {
      snaps := snaps[s := Snapshot(snaps[s].refs + 1, snaps[s].store)];
    }

    /** The last reference to a snapshot destroys its map; the published slot holds one. */
    method UnrefSnap(s: nat)
      requires Valid() && s in snaps && (published == Some(s) ==> snaps[s].refs > 1)
      modifies this`maps, this`refs, this`snaps
      ensures Valid() && SnapshotsKept() && published == old(published)
      ensures snaps == Released(old(snaps), Some(s)) && maps == Kept(old(maps), old(snaps), Some(s))
    {
      hide Holders, Counted, OwnedBy;
      ReleasedOwned(maps, snaps, published, next, s);
      if snaps[s].refs == 1 {
        var store := snaps[s].store;
        snaps := snaps - {s};
        Destroy(store);
      } else {
        snaps := snaps[s := Snapshot(snaps[s].refs - 1, snaps[s].store)];
      }
    }

    /** Publishing hands the caller's reference to the slot; the previous snapshot loses the
        slot's, and is gone with its map if that was the last. All other snapshots and maps stay
        as they are, so readers of any snapshot still see what they saw. */
    method Publish(s: Option<nat>)
      requires Valid() && published != s && (s.Some? ==> s.value in snaps)
      modifies this`maps, this`refs, this`snaps, this`published
      ensures Valid() && SnapshotsKept() && published == s
      ensures snaps == Released(old(snaps), old(published)) && maps == Kept(old(maps), old(snaps), old(published))
    {
      hide Holders, Counted;
      var previous := published;
      published := s;
      if previous.Some? { UnrefSnap(previous.value); }
    }

    /** Publishing with a reference of the slot's own; the caller keeps its one. */
    method SetRef(s: Option<nat>)
      requires Valid() && published != s && (s.Some? ==> s.value in snaps)
      modifies this`maps, this`refs, this`snaps, this`published
      ensures Valid() && SnapshotsKept() && published == s
      ensures var held := if s.None? then old(snaps)
                          else old(snaps)[s.value := Snapshot(old(snaps)[s.value].refs + 1, old(snaps)[s.value].store)];
              snaps == Released(held, old(published)) && maps == Kept(old(maps), held, old(published))
    {
      hide Holders, Counted;
      if s.Some? { RefSnap(s.value); }
      Publish(s);
    }
  }
}
