/**
 * The map from threads to implicit producers: a chain of open-addressing tables, the newest the main one, with
 * tombstones for exited threads. Each lookup-or-insert and each thread exit is one step.
 */
module ProducerHash {
  import opened Common
  import opened Blocks
  import opened Words

  datatype Key = Empty | Reusable | Id(id: nat)

  datatype Table = Table(keys: seq<Key>, values: seq<nat>)

  /**
   * `tables` from the oldest to the main one; `inactive` per producer in the order they were created. `owner`, a
   * record, is what the map is meant to be: the producer of each thread that has one and has not exited.
   */
  datatype State = State(tables: seq<Table>, count: nat, inactive: seq<bool>, owner: map<nat, nat>)
  {
    function Main(): nat
      requires |tables| > 0
    {
      |tables| - 1
    }
  }

  function Init(capacity: nat): State {
    State([Fresh(capacity)], 0, [], map[])
  }

  function Fresh(capacity: nat): (t: Table)
    ensures |t.keys| == |t.values| == capacity
  {
    Table(seq(capacity, _ => Empty), seq(capacity, _ => 0))
  }

  /** The slot `d` probes after the one hash `h` selects. */
  function At(cap: nat, h: nat, d: nat): (p: nat)
    requires cap > 0
    ensures p < cap
  {
    Wrap(cap, h + d)
  }

  /** Probing for `id` from its hash on: its slot, or none if an empty slot comes first. */
  function Find(keys: seq<Key>, h: nat, id: nat, d: nat): (p: Option<nat>)
    ensures p.Some? ==> p.value < |keys| && keys[p.value] == Id(id)
    decreases |keys| - d
  {
    if d >= |keys| then None
    else
      var p := At(|keys|, h, d);
      if keys[p] == Id(id) then Some(p) else if keys[p] == Empty then None else Find(keys, h, id, d + 1)
  }

  /** Probing for a slot to write: the first that is empty or reusable. */
  function Free(keys: seq<Key>, h: nat, d: nat): (p: nat)
    ensures |keys| > 0 ==> p < |keys|
    decreases |keys| - d
  {
    if d >= |keys| then 0
    else
      var p := At(|keys|, h, d);
      if keys[p].Id? then Free(keys, h, d + 1) else p
  }

  function Put(t: Table, p: nat, id: nat, producer: nat): Table
    requires p < |t.keys| == |t.values|
  {
    Table(t.keys[p := Id(id)], t.values[p := producer])
  }

  /** The newest of the first `n` tables in which probing finds `id`. */
  function Newest(tables: seq<Table>, h: nat, id: nat, n: nat): (i: Option<nat>)
    requires n <= |tables|
    ensures i.Some? ==> i.value < n && Find(tables[i.value].keys, h, id, 0).Some?
    ensures forall j :: 0 <= j < n && (i.None? || i.value < j) ==> Find(tables[j].keys, h, id, 0).None?
  {
    if n == 0 then None
    else if Find(tables[n - 1].keys, h, id, 0).Some? then Some(n - 1)
    else Newest(tables, h, id, n - 1)
  }

  /** The newest inactive producer of the list: the first one `recycle_or_create_producer` comes to. */
  function Recycled(inactive: seq<bool>, n: nat): (p: Option<nat>)
    requires n <= |inactive|
    ensures p.Some? ==> p.value < n && inactive[p.value]
    ensures p.None? ==> forall i :: 0 <= i < n ==> !inactive[i]
  {
    if n == 0 then None else if inactive[n - 1] then Some(n - 1) else Recycled(inactive, n - 1)
  }

  /** Doubling until `n` is under half of the capacity. */
  function Grown(capacity: nat, n: nat): (c: nat)
    requires capacity > 0
    ensures n < c / 2 && c >= 2 * capacity
    decreases n + 1 - capacity
  {
    if n < capacity then 2 * capacity else Grown(2 * capacity, n)
  }

  /** `d` is `c` doubled any number of times. */
  predicate Doubles(c: nat, d: nat) {
    d == c || (d > c && d % 2 == 0 && Doubles(c, d / 2))
  }

  lemma {:induction false} DoublesOn(c: nat, d: nat)
    requires c > 0 && Doubles(2 * c, d)
    ensures Doubles(c, d) && d >= 2 * c
    decreases d
  {
    if d != 2 * c {
      DoublesOn(c, d / 2);
    }
  }

  lemma {:induction false} DoublesFrom(c: nat, d: nat)
    requires c > 0 && Doubles(c, d)
    ensures d == c || Doubles(2 * c, d)
    decreases d
  {
    if d != c && d / 2 != c {
      DoublesFrom(c, d / 2);
      DoublesOn(c, d / 2);
    }
  }

  lemma {:induction false} GrownDoubles(capacity: nat, n: nat)
    requires capacity > 0
    ensures Doubles(2 * capacity, Grown(capacity, n))
    decreases n + 1 - capacity
  {
    if n >= capacity {
      GrownDoubles(2 * capacity, n);
      DoublesOn(2 * capacity, Grown(capacity, n));
    }
  }

  /** The new capacity is the least of the doublings of the old one that `n` is under half of. */
  lemma {:induction false} GrownIsLeast(capacity: nat, n: nat, d: nat)
    requires capacity > 0 && Doubles(2 * capacity, d) && n < d / 2
    ensures Grown(capacity, n) <= d
    decreases n + 1 - capacity
  {
    DoublesOn(capacity, d);
    if n >= capacity {
      DoublesFrom(2 * capacity, d);
      GrownIsLeast(2 * capacity, n, d);
    }
  }

  predicate Shape(s: State) {
    && |s.tables| > 0
    && forall i :: 0 <= i < |s.tables| ==> |s.tables[i].keys| == |s.tables[i].values| > 0
  }

  /** `get_or_add_implicit_producer` for thread `id` with hash `h`. */
  function GetOrAdd(s: State, id: nat, h: nat, mallocOk: bool, createOk: bool): (r: (State, Option<nat>))
    requires Shape(s)
    ensures Shape(r.0)
  {
    match Newest(s.tables, h, id, |s.tables|)
    case Some(i) =>
      var v := s.tables[i].values[Find(s.tables[i].keys, h, id, 0).value];
      if i == s.Main() then (s, Some(v))
      else
        var t := s.tables[s.Main()];
        (s.(tables := s.tables[s.Main() := Put(t, Free(t.keys, h, 0), id, v)]), Some(v))
    case None =>
      var n := s.count + 1;
      var cap := |s.tables[s.Main()].keys|;
      if n >= cap / 2 && !mallocOk then (s, None)
      else Insert(if n >= cap / 2 then s.(tables := s.tables + [Fresh(Grown(cap, n))]) else s, id, h, createOk)
  }

  /** The part of it that takes a producer and a slot. */
  function Insert(s: State, id: nat, h: nat, createOk: bool): (r: (State, Option<nat>))
    requires Shape(s)
    ensures Shape(r.0)
  {
    var t := s.tables[s.Main()];
    var p := Free(t.keys, h, 0);
    var recycled := Recycled(s.inactive, |s.inactive|);
    if recycled.None? && !createOk then (s, None)
    else
      var producer := if recycled.Some? then recycled.value else |s.inactive|;
      (State(s.tables[s.Main() := Put(t, p, id, producer)],
             if t.keys[p] == Reusable then s.count else s.count + 1,
             if recycled.Some? then s.inactive[producer := false] else s.inactive + [false],
             s.owner[id := producer]),
       Some(producer))
  }

  function Tombstoned(t: Table, h: nat, id: nat): (z: Table)
    ensures |z.keys| == |t.keys| && z.values == t.values
  {
    var p := Find(t.keys, h, id, 0);
    if p.Some? then t.(keys := t.keys[p.value := Reusable]) else t
  }

  /** `implicit_producer_thread_exited`. */
  function Exit(s: State, id: nat, h: nat): (z: State)
    requires Shape(s) && id in s.owner
    ensures Shape(z)
  {
    var p := s.owner[id];
    State(seq(|s.tables|, i requires 0 <= i < |s.tables| => Tombstoned(s.tables[i], h, id)), s.count,
          if p < |s.inactive| then s.inactive[p := true] else s.inactive, s.owner - {id})
  }

  // ---------------------------------------------------------------- one table

  /** Probing from `h` passes no empty slot before slot `p`. */
  ghost predicate Passes(keys: seq<Key>, h: nat, p: nat)
    requires |keys| > 0
  {
    forall d :: 0 <= d < Wrap(|keys|, p - h) ==> keys[At(|keys|, h, d)] != Empty
  }

  /** Every key is reachable from its hash without passing an empty slot, and no key is there twice. */
  ghost predicate Probed(keys: seq<Key>, hash: nat -> nat) {
    && |keys| > 0
    && (forall p :: 0 <= p < |keys| && keys[p].Id? ==> Passes(keys, hash(keys[p].id), p))
    && forall p, q :: 0 <= p < q < |keys| && keys[p].Id? ==> keys[q] != keys[p]
  }

  ghost function Used(keys: seq<Key>): set<nat> {
    set p: nat | p < |keys| && keys[p] != Empty
  }

  lemma Reach(cap: nat, h: nat, p: nat)
    requires p < cap
    ensures At(cap, h, Wrap(cap, p - h)) == p
  {
    WrapAdd(cap, p - h, h);
    WrapIs(cap, p, 0, p);
  }

  /** An empty slot ends every probe, and probing finds a key just when it is there. */
  lemma {:induction false} FindIsRight(keys: seq<Key>, hash: nat -> nat, id: nat, d: nat, q: nat)
    requires Probed(keys, hash) && q < |keys| && keys[q] == Empty && d <= Wrap(|keys|, q - hash(id))
    requires forall e :: 0 <= e < d ==> var k := keys[At(|keys|, hash(id), e)]; k != Empty && k != Id(id)
    ensures Find(keys, hash(id), id, d).Some? <==> Id(id) in keys
    decreases |keys| - d
  {
    hide At;
    var h, cap := hash(id), |keys|;
    Reach(cap, h, q);
    var k := keys[At(cap, h, d)];
    if k != Id(id) && k != Empty {
      FindIsRight(keys, hash, id, d + 1, q);
    } else if k == Empty {
      AbsentBehindEmpty(keys, hash, id, d);
    }
  }

  lemma AbsentBehindEmpty(keys: seq<Key>, hash: nat -> nat, id: nat, d: nat)
    requires Probed(keys, hash) && keys[At(|keys|, hash(id), d)] == Empty
    requires forall e :: 0 <= e < d ==> keys[At(|keys|, hash(id), e)] != Id(id)
    ensures Id(id) !in keys
  {
    hide At;
    forall p | 0 <= p < |keys|
      ensures keys[p] != Id(id)
    {
      Reach(|keys|, hash(id), p);
      assert keys[p] == Id(id) ==> Passes(keys, hash(id), p);
    }
  }

  /** The slot taken is not in use by another thread, and every slot probed before it is. */
  lemma {:induction false} FreeIsRight(keys: seq<Key>, h: nat, d: nat, q: nat)
    requires q < |keys| && keys[q] == Empty && d <= Wrap(|keys|, q - h)
    requires forall e :: 0 <= e < d ==> keys[At(|keys|, h, e)].Id?
    ensures var p := Free(keys, h, d);
      p < |keys| && !keys[p].Id? && Passes(keys, h, p)
    decreases |keys| - d
  {
    hide At;
    var cap := |keys|;
    Reach(cap, h, q);
    if keys[At(cap, h, d)].Id? {
      FreeIsRight(keys, h, d + 1, q);
    } else {
      Distance(cap, h, d);
    }
  }

  lemma Distance(cap: nat, h: nat, d: nat)
    requires d < cap
    ensures Wrap(cap, At(cap, h, d) - h) == d
  {
    WrapAdd(cap, h + d, -(h as int));
    WrapIs(cap, d, 0, d);
  }

  lemma PassesUpdate(keys: seq<Key>, h: nat, q: nat, p: nat, k: Key)
    requires |keys| > 0 && Passes(keys, h, q) && p < |keys| && k != Empty
    ensures Passes(keys[p := k], h, q)
  {
    hide At;
  }

  lemma PutProbed(keys: seq<Key>, hash: nat -> nat, id: nat, p: nat)
    requires Probed(keys, hash) && Id(id) !in keys && p < |keys| && !keys[p].Id? && Passes(keys, hash(id), p)
    ensures Probed(keys[p := Id(id)], hash)
    ensures |Used(keys[p := Id(id)])| == |Used(keys)| + if keys[p] == Empty then 1 else 0
  {
    hide At, Passes;
    var zs := keys[p := Id(id)];
    assert Used(zs) == Used(keys) + {p};
    assert p in Used(keys) <==> keys[p] != Empty;
    if keys[p] != Empty {
      assert Used(zs) == Used(keys);
    }
    forall q | 0 <= q < |zs| && zs[q].Id?
      ensures Passes(zs, hash(zs[q].id), q)
    {
      PassesUpdate(keys, hash(zs[q].id), q, p, Id(id));
    }
  }

  lemma TombstoneProbed(keys: seq<Key>, hash: nat -> nat, p: nat)
    requires Probed(keys, hash) && p < |keys| && keys[p].Id?
    ensures Probed(keys[p := Reusable], hash) && Used(keys[p := Reusable]) == Used(keys)
    ensures keys[p] !in keys[p := Reusable]
    ensures forall k: Key :: k.Id? && k != keys[p] ==> (k in keys[p := Reusable] <==> k in keys)
  {
    hide At, Passes;
    var zs := keys[p := Reusable];
    forall q | 0 <= q < |zs| && zs[q].Id?
      ensures Passes(zs, hash(zs[q].id), q)
    {
      PassesUpdate(keys, hash(zs[q].id), q, p, Reusable);
    }
    forall k: Key | k.Id? && k != keys[p] && k in keys
      ensures k in zs
    {
      var q :| 0 <= q < |keys| && keys[q] == k;
      assert zs[q] == k;
    }
  }

  /** A table less than full has an empty slot. */
  lemma NotFull(keys: seq<Key>) returns (q: nat)
    requires |Used(keys)| < |keys|
    ensures q < |keys| && keys[q] == Empty
  {
    var all: set<nat> := Range(0, |keys|);
    assert Used(keys) <= all;
    assert |all - Used(keys)| == |all| - |Used(keys)|;
    q :| q in all - Used(keys);
  }

  // ---------------------------------------------------------------- the whole map

  ghost predicate TableOk(t: Table, hash: nat -> nat, owner: map<nat, nat>) {
    && |t.keys| == |t.values| && Probed(t.keys, hash) && |Used(t.keys)| < |t.keys|
    && forall p :: 0 <= p < |t.keys| && t.keys[p].Id? ==> t.keys[p].id in owner && t.values[p] == owner[t.keys[p].id]
  }

  ghost predicate Tables(tables: seq<Table>, hash: nat -> nat, owner: map<nat, nat>) {
    forall i :: 0 <= i < |tables| ==> TableOk(tables[i], hash, owner)
  }

  ghost predicate Known(tables: seq<Table>, id: nat) {
    exists i :: 0 <= i < |tables| && Id(id) in tables[i].keys
  }

  /** Threads that are in older tables only. */
  ghost function OlderOnly(main: seq<Key>, owner: map<nat, nat>): set<nat> {
    set id | id in owner && Id(id) !in main
  }

  ghost predicate Owners(owner: map<nat, nat>, inactive: seq<bool>) {
    && (forall id :: id in owner ==> owner[id] < |inactive| && !inactive[owner[id]])
    && forall a, b :: a in owner && b in owner && a != b ==> owner[a] != owner[b]
  }

  ghost predicate Inv(s: State, hash: nat -> nat) {
    && |s.tables| > 0
    && Tables(s.tables, hash, s.owner)
    && (forall id :: id in s.owner ==> Known(s.tables, id))
    && Owners(s.owner, s.inactive)
    && |Used(s.tables[s.Main()].keys)| + |OlderOnly(s.tables[s.Main()].keys, s.owner)| <= s.count
    && (s.count == 0 || s.count < |s.tables[s.Main()].keys| / 2)
  }

  lemma FoundIn(t: Table, hash: nat -> nat, owner: map<nat, nat>, id: nat)
    requires TableOk(t, hash, owner)
    ensures Find(t.keys, hash(id), id, 0).Some? <==> Id(id) in t.keys
    ensures Find(t.keys, hash(id), id, 0).Some? ==>
      id in owner && t.values[Find(t.keys, hash(id), id, 0).value] == owner[id]
  {
    var q := NotFull(t.keys);
    FindIsRight(t.keys, hash, id, 0, q);
  }

  lemma NewestIsRight(s: State, hash: nat -> nat, id: nat)
    requires Inv(s, hash)
    ensures Newest(s.tables, hash(id), id, |s.tables|).Some? <==> id in s.owner
  {
    hide TableOk, Find, Probed;
    forall i | 0 <= i < |s.tables|
      ensures Find(s.tables[i].keys, hash(id), id, 0).Some? <==> Id(id) in s.tables[i].keys
      ensures Find(s.tables[i].keys, hash(id), id, 0).Some? ==> id in s.owner
    {
      FoundIn(s.tables[i], hash, s.owner, id);
    }
  }

  lemma PutOk(t: Table, hash: nat -> nat, owner: map<nat, nat>, id: nat, v: nat)
    requires |t.keys| == |t.values| && Probed(t.keys, hash) && |Used(t.keys)| + 1 < |t.keys| && Id(id) !in t.keys
    requires forall p :: 0 <= p < |t.keys| && t.keys[p].Id? ==>
      t.keys[p].id in owner && t.values[p] == owner[t.keys[p].id]
    requires id in owner && owner[id] == v
    ensures var p := Free(t.keys, hash(id), 0);
      && p < |t.keys| && TableOk(Put(t, p, id, v), hash, owner)
      && |Used(Put(t, p, id, v).keys)| == |Used(t.keys)| + (if t.keys[p] == Reusable then 0 else 1)
      && OlderOnly(Put(t, p, id, v).keys, owner) == OlderOnly(t.keys, owner) - {id}
  {
    var q := NotFull(t.keys);
    FreeIsRight(t.keys, hash(id), 0, q);
    var p := Free(t.keys, hash(id), 0);
    PutProbed(t.keys, hash, id, p);
    hide Probed, Used;
    var z := Put(t, p, id, v);
    forall x | x in owner
      ensures Id(x) in z.keys <==> Id(x) in t.keys || x == id
    {
      assert z.keys[p] == Id(id);
      if Id(x) in t.keys {
        var r :| 0 <= r < |t.keys| && t.keys[r] == Id(x);
        assert r != p && z.keys[r] == Id(x);
      }
    }
  }

  /** The main table has one more thread in it, and the others are as they were. */
  ghost predicate MainGains(ts: seq<Table>, zs: seq<Table>, id: nat)
    requires |ts| > 0
  {
    var m := |ts| - 1;
    && |zs| == |ts| && zs[..m] == ts[..m] && |zs[m].keys| == |ts[m].keys|
    && forall x :: Id(x) in zs[m].keys <==> Id(x) in ts[m].keys || x == id
  }

  /** A thread that has a producer gets it back, and is in the main table from then on. */
  lemma FindsOwn(s: State, hash: nat -> nat, id: nat, mallocOk: bool, createOk: bool)
    requires Shape(s) && Inv(s, hash) && id in s.owner
    ensures var r := GetOrAdd(s, id, hash(id), mallocOk, createOk);
      && r.1 == Some(s.owner[id]) && Inv(r.0, hash)
      && r.0.owner == s.owner && r.0.count == s.count && r.0.inactive == s.inactive
      && MainGains(s.tables, r.0.tables, id) && (Id(id) in s.tables[s.Main()].keys ==> r.0 == s)
  {
    NewestIsRight(s, hash, id);
    hide Probed, Find, Newest, Free;
    var i := Newest(s.tables, hash(id), id, |s.tables|).value;
    FoundIn(s.tables[i], hash, s.owner, id);
    FoundIn(s.tables[s.Main()], hash, s.owner, id);
    if i != s.Main() {
      AddToMain(s, hash, id);
      PutGains(s, id, Free(s.tables[s.Main()].keys, hash(id), 0), s.owner[id]);
    }
  }

  lemma PutGains(s: State, id: nat, p: nat, v: nat)
    requires Shape(s) && p < |s.tables[s.Main()].keys| && !s.tables[s.Main()].keys[p].Id?
    ensures MainGains(s.tables, s.tables[s.Main() := Put(s.tables[s.Main()], p, id, v)], id)
  {
    var keys := s.tables[s.Main()].keys;
    forall x | Id(x) in keys || x == id
      ensures Id(x) in keys[p := Id(id)]
    {
      if x == id {
        assert keys[p := Id(id)][p] == Id(id);
      } else {
        var q :| 0 <= q < |keys| && keys[q] == Id(x);
        assert keys[p := Id(id)][q] == Id(x);
      }
    }
  }

  lemma AddToMain(s: State, hash: nat -> nat, id: nat)
    requires Shape(s) && Inv(s, hash) && id in s.owner && Id(id) !in s.tables[s.Main()].keys
    ensures var t := s.tables[s.Main()];
      var p := Free(t.keys, hash(id), 0);
      && p < |t.keys| && !t.keys[p].Id?
      && Inv(s.(tables := s.tables[s.Main() := Put(t, p, id, s.owner[id])]), hash)
  {
    hide Probed, Find, Free, Used, TableOk, Owners;
    var t := s.tables[s.Main()];
    SlotNotUsed(t.keys, hash, id) by { TableParts(t, hash, s.owner); }
    assert TableOk(t, hash, s.owner);
    assert id in OlderOnly(t.keys, s.owner);
    TableParts(t, hash, s.owner);
    PutOk(t, hash, s.owner, id, s.owner[id]);
    var p := Free(t.keys, hash(id), 0);
    var z := s.(tables := s.tables[s.Main() := Put(t, p, id, s.owner[id])]);
    forall x | x in s.owner
      ensures Known(z.tables, x)
    {
      var i :| 0 <= i < |s.tables| && Id(x) in s.tables[i].keys;
      if i == s.Main() {
        assert x !in OlderOnly(t.keys, s.owner);
      }
      assert x !in OlderOnly(z.tables[z.Main()].keys, s.owner) || i != s.Main();
      assert Id(x) in z.tables[i].keys;
    }
  }

  lemma TableParts(t: Table, hash: nat -> nat, owner: map<nat, nat>)
    requires TableOk(t, hash, owner)
    ensures |t.keys| == |t.values| && Probed(t.keys, hash) && |Used(t.keys)| < |t.keys|
    ensures forall p :: 0 <= p < |t.keys| && t.keys[p].Id? ==>
      t.keys[p].id in owner && t.values[p] == owner[t.keys[p].id]
  {
  }

  lemma FreshOk(n: nat, hash: nat -> nat, owner: map<nat, nat>)
    requires n > 0
    ensures TableOk(Fresh(n), hash, owner) && Used(Fresh(n).keys) == {}
  {
  }

  /** Growing keeps the invariant: the count already covers every thread the new table is to hold. */
  lemma GrowOk(s: State, hash: nat -> nat, n: nat)
    requires Shape(s) && Inv(s, hash) && n == s.count + 1
    ensures var cap := |s.tables[s.Main()].keys|;
      var z := s.(tables := s.tables + [Fresh(Grown(cap, n))]);
      Inv(z, hash) && n < |z.tables[z.Main()].keys| / 2
  {
    var t := s.tables[s.Main()];
    var cap := |t.keys|;
    var z := s.(tables := s.tables + [Fresh(Grown(cap, n))]);
    FreshOk(Grown(cap, n), hash, s.owner);
    OwnersCount(t, hash, s.owner);
    hide Probed, Used, TableOk, Owners, Grown;
    assert OlderOnly(Fresh(Grown(cap, n)).keys, s.owner) == s.owner.Keys;
    forall id | id in s.owner
      ensures Known(z.tables, id)
    {
      var i :| 0 <= i < |s.tables| && Id(id) in s.tables[i].keys;
      assert z.tables[i] == s.tables[i];
    }
  }

  /** Each thread with a producer is counted by its slot in the main table or as one in older tables only. */
  lemma OwnersCount(t: Table, hash: nat -> nat, owner: map<nat, nat>)
    requires TableOk(t, hash, owner)
    ensures |owner.Keys| <= |Used(t.keys)| + |OlderOnly(t.keys, owner)|
  {
    var inMain := set id | id in owner && Id(id) in t.keys;
    assert owner.Keys == inMain + OlderOnly(t.keys, owner);
    IdsCount(t.keys, inMain, Used(t.keys));
  }

  lemma {:induction false} IdsCount(keys: seq<Key>, ids: set<nat>, slots: set<nat>)
    requires forall id :: id in ids ==> exists p :: p in slots && p < |keys| && keys[p] == Id(id)
    ensures |ids| <= |slots|
    decreases |ids|
  {
    if ids != {} {
      var id :| id in ids;
      var p :| p in slots && p < |keys| && keys[p] == Id(id);
      forall x | x in ids - {id}
        ensures exists q :: q in slots - {p} && q < |keys| && keys[q] == Id(x)
      {
        var q :| q in slots && q < |keys| && keys[q] == Id(x);
        assert q in slots - {p};
      }
      IdsCount(keys, ids - {id}, slots - {p});
    }
  }

  lemma OwnersGrow(owner: map<nat, nat>, inactive: seq<bool>, id: nat, p: nat)
    requires Owners(owner, inactive) && id !in owner
    ensures p < |inactive| && inactive[p] ==> Owners(owner[id := p], inactive[p := false])
    ensures p == |inactive| ==> Owners(owner[id := p], inactive + [false])
    ensures (p < |inactive| && inactive[p]) || p == |inactive| ==> forall x :: x in owner ==> owner[x] != p
  {
  }

  /** The slot and the table part of an insertion. */
  lemma InsertsSlot(s: State, hash: nat -> nat, id: nat, v: nat)
    requires Shape(s) && Inv(s, hash) && id !in s.owner && s.count + 1 < |s.tables[s.Main()].keys| / 2
    ensures var t := s.tables[s.Main()];
      var p := Free(t.keys, hash(id), 0);
      var ts := s.tables[s.Main() := Put(t, p, id, v)];
      var owner := s.owner[id := v];
      && p < |t.keys| && Tables(ts, hash, owner) && (forall x :: x in owner ==> Known(ts, x))
      && |Used(ts[s.Main()].keys)| + |OlderOnly(ts[s.Main()].keys, owner)|
           <= s.count + (if t.keys[p] == Reusable then 0 else 1)
      && |ts[s.Main()].keys| == |t.keys|
      && (Reusable !in t.keys ==> t.keys[p] != Reusable && Reusable !in ts[s.Main()].keys)
  {
    hide Probed, Find, Free, Used, At, TableOk;
    var t := s.tables[s.Main()];
    assert TableOk(t, hash, s.owner);
    TableParts(t, hash, s.owner);
    NotThere(t, hash, s.owner, id);
    var owner := s.owner[id := v];
    PutOk(t, hash, owner, id, v);
    assert OlderOnly(t.keys, owner) - {id} == OlderOnly(t.keys, s.owner);
    var p := Free(t.keys, hash(id), 0);
    var ts := s.tables[s.Main() := Put(t, p, id, v)];
    InsertedTables(s.tables, ts, hash, s.owner, id, v);
    hide Tables;
    SlotNotUsed(t.keys, hash, id);
    InsertedKnown(s, s.(tables := ts, owner := owner), id, p);
  }

  lemma SlotNotUsed(keys: seq<Key>, hash: nat -> nat, id: nat)
    requires |Used(keys)| < |keys|
    ensures var p := Free(keys, hash(id), 0); p < |keys| && !keys[p].Id?
  {
    var q := NotFull(keys);
    FreeIsRight(keys, hash(id), 0, q);
  }

  /** A thread with no producer gets one that no thread has. */
  lemma InsertsNew(s: State, hash: nat -> nat, id: nat, createOk: bool)
    requires Shape(s) && Inv(s, hash) && id !in s.owner && s.count + 1 < |s.tables[s.Main()].keys| / 2
    ensures var r := Insert(s, id, hash(id), createOk);
      && Inv(r.0, hash) && |r.0.tables| == |s.tables|
      && (r.1.None? <==> !createOk && forall p :: 0 <= p < |s.inactive| ==> !s.inactive[p])
      && (r.1.None? ==> r.0 == s)
      && (r.1.Some? ==> r.0.owner == s.owner[id := r.1.value] && forall x :: x in s.owner ==> s.owner[x] != r.1.value)
      && s.count <= r.0.count <= s.count + 1
      && (r.1.Some? && Reusable !in s.tables[s.Main()].keys ==> r.0.count == s.count + 1)
      && (Reusable !in s.tables[s.Main()].keys ==> Reusable !in r.0.tables[r.0.Main()].keys)
      && |r.0.tables[r.0.Main()].keys| == |s.tables[s.Main()].keys|
  {
    var r := Insert(s, id, hash(id), createOk);
    hide Free, Used, Tables, OlderOnly, Known, Recycled;
    if r.1.Some? {
      OwnersGrow(s.owner, s.inactive, id, r.1.value);
      InsertsSlot(s, hash, id, r.1.value);
      hide Owners;
    }
  }

  lemma NotThere(t: Table, hash: nat -> nat, owner: map<nat, nat>, id: nat)
    requires TableOk(t, hash, owner) && id !in owner
    ensures Id(id) !in t.keys
  {
    hide Probed;
  }

  lemma InsertedTables(tables: seq<Table>, ztables: seq<Table>, hash: nat -> nat, owner: map<nat, nat>, id: nat, v: nat)
    requires Tables(tables, hash, owner) && id !in owner && |tables| > 0 && |ztables| == |tables|
    requires forall i :: 0 <= i < |tables| - 1 ==> ztables[i] == tables[i]
    requires TableOk(ztables[|tables| - 1], hash, owner[id := v])
    ensures Tables(ztables, hash, owner[id := v])
  {
    hide Probed, Used;
    forall i | 0 <= i < |ztables|
      ensures TableOk(ztables[i], hash, owner[id := v])
    {
      if i < |tables| - 1 {
        assert TableOk(tables[i], hash, owner);
      }
    }
  }

  lemma InsertedKnown(s: State, z: State, id: nat, p: nat)
    requires |s.tables| > 0 && |z.tables| == |s.tables| && p < |s.tables[s.Main()].keys|
    requires forall i :: 0 <= i < |s.tables| - 1 ==> z.tables[i] == s.tables[i]
    requires !s.tables[s.Main()].keys[p].Id? && z.tables[z.Main()].keys == s.tables[s.Main()].keys[p := Id(id)]
    requires forall x :: x in s.owner ==> Known(s.tables, x)
    requires forall x :: x in z.owner ==> x in s.owner || x == id
    ensures forall x :: x in z.owner ==> Known(z.tables, x)
  {
    forall x | x in z.owner
      ensures Known(z.tables, x)
    {
      if x == id {
        assert z.tables[z.Main()].keys[p] == Id(id);
      } else {
        var i :| 0 <= i < |s.tables| && Id(x) in s.tables[i].keys;
        var q :| 0 <= q < |s.tables[i].keys| && s.tables[i].keys[q] == Id(x);
        assert z.tables[i].keys[q] == Id(x);
      }
    }
  }

  /** What one lookup-or-insert does, whichever of its branches is taken. */
  ghost predicate Served(s: State, id: nat, z: State, r: Option<nat>) {
    if id in s.owner then r == Some(s.owner[id]) && z.owner == s.owner && z.count == s.count
    else if r.None? then z.owner == s.owner && z.count == s.count
    else z.owner == s.owner[id := r.value] && forall x :: x in s.owner ==> s.owner[x] != r.value
  }

  lemma GetOrAddServes(s: State, hash: nat -> nat, id: nat, mallocOk: bool, createOk: bool)
    requires Shape(s) && Inv(s, hash)
    ensures var r := GetOrAdd(s, id, hash(id), mallocOk, createOk); Inv(r.0, hash) && Served(s, id, r.0, r.1)
  {
    NewestIsRight(s, hash, id);
    if id in s.owner {
      FindsOwn(s, hash, id, mallocOk, createOk);
      hide GetOrAdd;
    } else {
      AddsOwn(s, hash, id, mallocOk, createOk);
      hide GetOrAdd;
    }
    hide Inv;
  }

  /**
   * A thread with no producer fails to get one only for lack of memory, for a table it needs or a producer there is
   * none of.
   */
  lemma AddsOwn(s: State, hash: nat -> nat, id: nat, mallocOk: bool, createOk: bool)
    requires Shape(s) && Inv(s, hash) && id !in s.owner
    ensures var r := GetOrAdd(s, id, hash(id), mallocOk, createOk);
      && Inv(r.0, hash) && Served(s, id, r.0, r.1)
      && (r.1.None? <==>
            || (!mallocOk && s.count + 1 >= |s.tables[s.Main()].keys| / 2)
            || (!createOk && forall p :: 0 <= p < |s.inactive| ==> !s.inactive[p]))
  {
    NewestIsRight(s, hash, id);
    var n := s.count + 1;
    var cap := |s.tables[s.Main()].keys|;
    if n < cap / 2 {
      InsertsNew(s, hash, id, createOk);
    } else if mallocOk {
      GrowOk(s, hash, n);
      InsertsNew(s.(tables := s.tables + [Fresh(Grown(cap, n))]), hash, id, createOk);
    }
    hide Inv, Insert, Newest, Grown, Fresh;
  }

  /** An insertion counts up exactly if it takes a slot that was empty: a tombstone it reuses is counted already. */
  lemma InsertCounts(s: State, hash: nat -> nat, id: nat, createOk: bool)
    requires Shape(s) && Inv(s, hash) && id !in s.owner && s.count + 1 < |s.tables[s.Main()].keys| / 2
    ensures var z := Insert(s, id, hash(id), createOk).0;
      && |z.tables| == |s.tables|
      && z.count - s.count == |Used(z.tables[z.Main()].keys)| - |Used(s.tables[s.Main()].keys)|
      && (Insert(s, id, hash(id), createOk).1.Some? ==> MainGains(s.tables, z.tables, id))
  {
    hide Probed, Used, At, Known, OlderOnly, Owners, Recycled, Free, MainGains;
    var t := s.tables[s.Main()];
    var r := Insert(s, id, hash(id), createOk);
    if r.1.Some? {
      assert TableOk(t, hash, s.owner);
      TableParts(t, hash, s.owner);
      NotThere(t, hash, s.owner, id);
      PutOk(t, hash, s.owner[id := r.1.value], id, r.1.value);
      SlotNotUsed(t.keys, hash, id);
      PutGains(s, id, Free(t.keys, hash(id), 0), r.1.value);
    }
  }

  /**
   * The count is of the slots in use, tombstones among them: a new thread's call changes it by just what it changes
   * their number in the main table, and a call that adds a table by the number of its slots in use.
   */
  lemma CountsSlots(s: State, hash: nat -> nat, id: nat, mallocOk: bool, createOk: bool)
    requires Shape(s) && Inv(s, hash) && id !in s.owner
    ensures var z := GetOrAdd(s, id, hash(id), mallocOk, createOk).0;
      z.count - s.count == |Used(z.tables[z.Main()].keys)| -
        if |z.tables| == |s.tables| then |Used(s.tables[s.Main()].keys)| else 0
  {
    NewestIsRight(s, hash, id);
    var n := s.count + 1;
    var cap := |s.tables[s.Main()].keys|;
    if n < cap / 2 {
      InsertCounts(s, hash, id, createOk);
    } else if mallocOk {
      GrowOk(s, hash, n);
      FreshOk(Grown(cap, n), hash, s.owner);
      InsertCounts(s.(tables := s.tables + [Fresh(Grown(cap, n))]), hash, id, createOk);
    }
    hide Inv, Insert, Newest, Grown, Fresh, Used;
  }

  /** A new thread that gets a producer is in the main table, which is the old one or a new one with nothing else. */
  lemma AddsToMain(s: State, hash: nat -> nat, id: nat, mallocOk: bool, createOk: bool)
    requires Shape(s) && Inv(s, hash) && id !in s.owner
    ensures var r := GetOrAdd(s, id, hash(id), mallocOk, createOk);
      r.1.Some? ==>
        if s.count + 1 < |s.tables[s.Main()].keys| / 2 then MainGains(s.tables, r.0.tables, id)
        else MainGains(s.tables + [Fresh(Grown(|s.tables[s.Main()].keys|, s.count + 1))], r.0.tables, id)
  {
    NewestIsRight(s, hash, id);
    var n := s.count + 1;
    var cap := |s.tables[s.Main()].keys|;
    if n < cap / 2 {
      InsertCounts(s, hash, id, createOk);
    } else if mallocOk {
      GrowOk(s, hash, n);
      InsertCounts(s.(tables := s.tables + [Fresh(Grown(cap, n))]), hash, id, createOk);
    }
    hide Inv, Newest, Grown, Fresh, Used, MainGains, Recycled, Free;
  }

  lemma {:induction false} RecycledIsNewest(inactive: seq<bool>, n: nat)
    requires n <= |inactive|
    ensures var p := Recycled(inactive, n); p.Some? ==> forall i :: p.value < i < n ==> !inactive[i]
    decreases n
  {
    if n > 0 {
      RecycledIsNewest(inactive, n - 1);
    }
  }

  /** Which producer a new thread gets: the newest that is inactive, or with none inactive one more. */
  lemma RecyclesNewest(s: State, hash: nat -> nat, id: nat, mallocOk: bool, createOk: bool)
    requires Shape(s) && Inv(s, hash) && id !in s.owner
    ensures var (z, r) := GetOrAdd(s, id, hash(id), mallocOk, createOk);
      match r
      case None => z.inactive == s.inactive && z.owner == s.owner
      case Some(v) =>
        && v <= |s.inactive| && (v < |s.inactive| ==> s.inactive[v]) && z.owner == s.owner[id := v]
        && (forall i :: v < i < |s.inactive| ==> !s.inactive[i])
        && (v == |s.inactive| ==> createOk && forall i :: 0 <= i < |s.inactive| ==> !s.inactive[i])
        && z.inactive == if v < |s.inactive| then s.inactive[v := false] else s.inactive + [false]
  {
    NewestIsRight(s, hash, id);
    RecycledIsNewest(s.inactive, |s.inactive|);
    hide Inv, Newest, Grown, Fresh, Free, Recycled;
  }

  /** A thread's exit leaves its id in no table, and every other thread its producer. */
  lemma ExitOk(s: State, hash: nat -> nat, id: nat)
    requires Shape(s) && Inv(s, hash) && id in s.owner
    ensures var z := Exit(s, id, hash(id));
      && Inv(z, hash) && z.owner == s.owner - {id} && s.owner[id] < |z.inactive| && z.inactive[s.owner[id]]
      && forall i :: 0 <= i < |z.tables| ==> Id(id) !in z.tables[i].keys
  {
    hide TableOk, Tombstoned, Used, OlderOnly;
    var z := Exit(s, id, hash(id));
    forall i | 0 <= i < |s.tables|
      ensures TableOk(z.tables[i], hash, z.owner) && Id(id) !in z.tables[i].keys
      ensures Used(z.tables[i].keys) == Used(s.tables[i].keys)
      ensures forall x :: x != id ==> (Id(x) in z.tables[i].keys <==> Id(x) in s.tables[i].keys)
    {
      assert TableOk(s.tables[i], hash, s.owner);
      TombstoneOk(s.tables[i], hash, s.owner, id);
    }
    ExitCount(s, z, id);
    forall x | x in z.owner
      ensures Known(z.tables, x)
    {
      var i :| 0 <= i < |s.tables| && Id(x) in s.tables[i].keys;
      assert Id(x) in z.tables[i].keys;
    }
  }

  lemma ExitCount(s: State, z: State, id: nat)
    requires |s.tables| > 0 && |z.tables| == |s.tables| && z.owner == s.owner - {id}
    requires forall x :: x != id ==> (Id(x) in z.tables[s.Main()].keys <==> Id(x) in s.tables[s.Main()].keys)
    ensures |OlderOnly(z.tables[z.Main()].keys, z.owner)| <= |OlderOnly(s.tables[s.Main()].keys, s.owner)|
  {
    SubsetSize(OlderOnly(z.tables[z.Main()].keys, z.owner), OlderOnly(s.tables[s.Main()].keys, s.owner));
  }

  lemma TombstoneOk(t: Table, hash: nat -> nat, owner: map<nat, nat>, id: nat)
    requires TableOk(t, hash, owner)
    ensures var z := Tombstoned(t, hash(id), id);
      && TableOk(z, hash, owner - {id}) && Id(id) !in z.keys && Used(z.keys) == Used(t.keys)
      && forall x :: x != id ==> (Id(x) in z.keys <==> Id(x) in t.keys)
  {
    hide Used;
    FoundIn(t, hash, owner, id);
    var p := Find(t.keys, hash(id), id, 0);
    if p.Some? {
      TombstoneProbed(t.keys, hash, p.value);
    }
    hide Probed, Find;
  }

  // ---------------------------------------------------------------- runs

  datatype Event = Call(id: nat, mallocOk: bool, createOk: bool) | Leave(id: nat)

  function Next(s: State, hash: nat -> nat, ev: Event): (z: State)
    requires Shape(s)
    ensures Shape(z)
  {
    match ev
    case Call(id, mallocOk, createOk) => GetOrAdd(s, id, hash(id), mallocOk, createOk).0
    case Leave(id) => if id in s.owner then Exit(s, id, hash(id)) else s
  }

  function Run(s: State, hash: nat -> nat, evs: seq<Event>): (z: State)
    requires Shape(s)
    ensures Shape(z)
    decreases |evs|
  {
    if evs == [] then s else Run(Next(s, hash, evs[0]), hash, evs[1..])
  }

  lemma NextKeepsInv(s: State, hash: nat -> nat, ev: Event)
    requires Shape(s) && Inv(s, hash)
    ensures var z := Next(s, hash, ev);
      && Inv(z, hash)
      && forall id :: id in s.owner && ev != Leave(id) ==> id in z.owner && z.owner[id] == s.owner[id]
  {
    hide Inv, GetOrAdd, Exit;
    match ev
    case Call(id, mallocOk, createOk) => GetOrAddServes(s, hash, id, mallocOk, createOk);
    case Leave(id) => if id in s.owner { ExitOk(s, hash, id); }
  }

  lemma {:induction false} RunKeepsInv(s: State, hash: nat -> nat, evs: seq<Event>)
    requires Shape(s) && Inv(s, hash)
    ensures Inv(Run(s, hash, evs), hash)
    ensures forall id :: id in s.owner && Leave(id) !in evs ==>
      id in Run(s, hash, evs).owner && Run(s, hash, evs).owner[id] == s.owner[id]
    decreases |evs|
  {
    hide Inv, Next;
    if evs != [] {
      NextKeepsInv(s, hash, evs[0]);
      RunKeepsInv(Next(s, hash, evs[0]), hash, evs[1..]);
    }
  }

  function Reached(capacity: nat, hash: nat -> nat, evs: seq<Event>): (s: State)
    requires capacity > 0
    ensures Shape(s)
  {
    Run(Init(capacity), hash, evs)
  }

  lemma ReachedInv(capacity: nat, hash: nat -> nat, evs: seq<Event>)
    requires capacity > 0
    ensures Inv(Reached(capacity, hash, evs), hash)
  {
    FreshOk(capacity, hash, map[]);
    var t := Fresh(capacity);
    assert OlderOnly(t.keys, map[]) == {};
    RunKeepsInv(Init(capacity), hash, evs);
  }

  /** A live thread always gets the same producer back, whatever the others do meanwhile. */
  lemma SameProducer(capacity: nat, hash: nat -> nat, evs: seq<Event>, more: seq<Event>, id: nat, mallocOk: bool,
      createOk: bool)
    requires capacity > 0 && id in Reached(capacity, hash, evs).owner && Leave(id) !in more
    ensures var s := Reached(capacity, hash, evs);
      GetOrAdd(Run(s, hash, more), id, hash(id), mallocOk, createOk).1 == Some(s.owner[id])
  {
    hide Inv, GetOrAdd;
    ReachedInv(capacity, hash, evs);
    var s := Reached(capacity, hash, evs);
    RunKeepsInv(s, hash, more);
    FindsOwn(Run(s, hash, more), hash, id, mallocOk, createOk);
  }

  /** No two live threads share a producer: what one is served is not what another has. */
  lemma NeverShared(capacity: nat, hash: nat -> nat, evs: seq<Event>, a: nat, b: nat, mallocOk: bool, createOk: bool)
    requires capacity > 0 && a != b && b in Reached(capacity, hash, evs).owner
    ensures var s := Reached(capacity, hash, evs);
      GetOrAdd(s, a, hash(a), mallocOk, createOk).1 != Some(s.owner[b])
  {
    hide GetOrAdd;
    ReachedInv(capacity, hash, evs);
    GetOrAddServes(Reached(capacity, hash, evs), hash, a, mallocOk, createOk);
    hide Tables, Known;
  }

  /** After a thread's exit its id is in no table. */
  lemma ExitedIsGone(capacity: nat, hash: nat -> nat, evs: seq<Event>, id: nat)
    requires capacity > 0
    ensures var z := Next(Reached(capacity, hash, evs), hash, Leave(id));
      id !in z.owner && forall i :: 0 <= i < |z.tables| ==> Id(id) !in z.tables[i].keys
  {
    hide GetOrAdd, Exit, TableOk;
    ReachedInv(capacity, hash, evs);
    var s := Reached(capacity, hash, evs);
    if id in s.owner {
      ExitOk(s, hash, id);
    } else {
      forall i | 0 <= i < |s.tables|
        ensures Id(id) !in s.tables[i].keys
      {
        assert TableOk(s.tables[i], hash, s.owner);
        NotThere(s.tables[i], hash, s.owner, id);
      }
    }
  }

  /**
   * Every probe ends: each table has an empty slot, because the slots used in the main table, with the threads known
   * only to older ones, stay within the count, and the count under half of the capacity.
   */
  lemma ProbesEnd(capacity: nat, hash: nat -> nat, evs: seq<Event>)
    requires capacity > 0
    ensures var s := Reached(capacity, hash, evs);
      && (forall i :: 0 <= i < |s.tables| ==> Empty in s.tables[i].keys)
      && |Used(s.tables[s.Main()].keys)| + |OlderOnly(s.tables[s.Main()].keys, s.owner)| <= s.count
      && (s.count == 0 || s.count < |s.tables[s.Main()].keys| / 2)
  {
    hide TableOk;
    ReachedInv(capacity, hash, evs);
    var s := Reached(capacity, hash, evs);
    forall i | 0 <= i < |s.tables|
      ensures Empty in s.tables[i].keys
    {
      assert TableOk(s.tables[i], hash, s.owner);
      TableParts(s.tables[i], hash, s.owner);
      var q := NotFull(s.tables[i].keys);
    }
  }

  // ---------------------------------------------------------------- recycling

  ghost predicate Owned(owner: map<nat, nat>, p: nat) {
    exists id :: id in owner && owner[id] == p
  }

  /** Every active producer is some thread's. */
  ghost predicate Busy(owner: map<nat, nat>, inactive: seq<bool>) {
    forall p :: 0 <= p < |inactive| && !inactive[p] ==> Owned(owner, p)
  }

  predicate AllActive(inactive: seq<bool>) {
    forall p :: 0 <= p < |inactive| ==> !inactive[p]
  }

  /**
   * What a lookup-or-insert does to threads and producers: nothing, or a thread without one takes an inactive producer
   * `p` or, for want of any, a new one.
   */
  ghost predicate Takes(s: State, z: State, id: nat, p: nat) {
    || (z.owner == s.owner && z.inactive == s.inactive)
    || (&& id !in s.owner && z.owner == s.owner[id := p]
        && ((p < |s.inactive| && s.inactive[p] && z.inactive == s.inactive[p := false])
            || (p == |s.inactive| && AllActive(s.inactive) && z.inactive == s.inactive + [false])))
  }

  lemma GetOrAddTakes(s: State, hash: nat -> nat, id: nat, mallocOk: bool, createOk: bool) returns (p: nat)
    requires Shape(s) && Inv(s, hash)
    ensures Takes(s, GetOrAdd(s, id, hash(id), mallocOk, createOk).0, id, p)
  {
    hide Inv, Find, Free, Grown, Fresh, Put, Insert, Newest;
    NewestIsRight(s, hash, id);
    p := 0;
    if id in s.owner {
      FindsOwn(s, hash, id, mallocOk, createOk);
      hide GetOrAdd;
    } else {
      var n := s.count + 1;
      var cap := |s.tables[s.Main()].keys|;
      if n < cap / 2 {
        p := InsertTakes(s, id, hash(id), createOk);
      } else if mallocOk {
        p := InsertTakes(s.(tables := s.tables + [Fresh(Grown(cap, n))]), id, hash(id), createOk);
      }
    }
  }

  lemma InsertTakes(s: State, id: nat, h: nat, createOk: bool) returns (p: nat)
    requires Shape(s) && id !in s.owner
    ensures Takes(s, Insert(s, id, h, createOk).0, id, p)
  {
    hide Find, Free, Put, Recycled;
    var r := Insert(s, id, h, createOk);
    p := if r.1.Some? then r.1.value else 0;
  }

  lemma TakenBusy(s: State, z: State, id: nat, p: nat)
    requires Busy(s.owner, s.inactive) && Takes(s, z, id, p)
    ensures Busy(z.owner, z.inactive)
  {
    forall q | 0 <= q < |z.inactive| && !z.inactive[q]
      ensures Owned(z.owner, q)
    {
      if z.owner != s.owner && q == p {
        assert z.owner[id] == q;
      } else {
        assert Owned(s.owner, q);
        var x :| x in s.owner && s.owner[x] == q;
        assert z.owner[x] == q;
      }
    }
  }

  lemma ExitBusy(s: State, h: nat, id: nat)
    requires Shape(s) && id in s.owner && Busy(s.owner, s.inactive)
    ensures var z := Exit(s, id, h); Busy(z.owner, z.inactive) && |z.inactive| == |s.inactive|
  {
    hide Tombstoned;
    var z := Exit(s, id, h);
    forall q | 0 <= q < |z.inactive| && !z.inactive[q]
      ensures Owned(z.owner, q)
    {
      assert Owned(s.owner, q);
      var x :| x in s.owner && s.owner[x] == q;
      assert x in z.owner && z.owner[x] == q;
    }
  }

  /** As many producers as are all active have as many threads. */
  lemma {:induction false} ActiveCount(owner: map<nat, nat>, n: nat)
    requires forall p :: 0 <= p < n ==> Owned(owner, p)
    ensures n <= |owner|
    decreases n
  {
    if n > 0 {
      assert Owned(owner, n - 1);
      var id :| id in owner && owner[id] == n - 1;
      var rest := owner - {id};
      forall p: nat | p < n - 1
        ensures Owned(rest, p)
      {
        assert Owned(owner, p);
        var x :| x in owner && owner[x] == p;
        assert x in rest && rest[x] == p;
      }
      ActiveCount(rest, n - 1);
      assert owner.Keys == rest.Keys + {id};
    }
  }

  function Max(a: nat, b: nat): nat {
    if a < b then b else a
  }

  /** The most threads that have a producer at one time in a run. */
  function Peak(s: State, hash: nat -> nat, evs: seq<Event>): nat
    requires Shape(s)
    decreases |evs|
  {
    if evs == [] then |s.owner| else Max(|s.owner|, Peak(Next(s, hash, evs[0]), hash, evs[1..]))
  }

  lemma NextRecycles(s: State, hash: nat -> nat, ev: Event)
    requires Shape(s) && Inv(s, hash) && Busy(s.owner, s.inactive)
    ensures var z := Next(s, hash, ev); Busy(z.owner, z.inactive) && |z.inactive| <= Max(|s.inactive|, |z.owner|)
  {
    hide Inv, GetOrAdd, Exit;
    match ev
    case Call(id, mallocOk, createOk) =>
      var z := Next(s, hash, ev);
      var p := GetOrAddTakes(s, hash, id, mallocOk, createOk);
      TakenBusy(s, z, id, p);
      if |z.inactive| > |s.inactive| {
        assert AllActive(z.inactive);
        ActiveCount(z.owner, |z.inactive|);
      }
    case Leave(id) => if id in s.owner { ExitBusy(s, hash(id), id); }
  }

  lemma {:induction false} RunRecycles(s: State, hash: nat -> nat, evs: seq<Event>)
    requires Shape(s) && Inv(s, hash) && Busy(s.owner, s.inactive)
    ensures |Run(s, hash, evs).inactive| <= Max(|s.inactive|, Peak(s, hash, evs))
    decreases |evs|
  {
    hide Inv, Next, Busy;
    if evs != [] {
      var n := Next(s, hash, evs[0]);
      NextKeepsInv(s, hash, evs[0]);
      NextRecycles(s, hash, evs[0]);
      RunRecycles(n, hash, evs[1..]);
      assert |n.owner| <= Peak(n, hash, evs[1..]);
    }
  }

  /**
   * Producers are recycled for all they are worth: over every run there are never more of them than threads have had
   * one at one time, however many threads come and go.
   */
  lemma ProducersWithinPeak(capacity: nat, hash: nat -> nat, evs: seq<Event>)
    requires capacity > 0
    ensures |Reached(capacity, hash, evs).inactive| <= Peak(Init(capacity), hash, evs)
  {
    ReachedInv(capacity, hash, []);
    RunRecycles(Init(capacity), hash, evs);
    hide Inv;
  }

  // ---------------------------------------------------------------- the preallocated table

  const INITIAL_HASH_SIZE: nat := 32

  function CeilPower(c: nat, max: nat): (r: nat)
    requires c > 0
    ensures r >= max && r >= c
    decreases max - c
  {
    if c >= max then c else CeilPower(2 * c, max)
  }

  /** The capacity the constructor reserves for `max` implicit producers. */
  function Preallocated(max: nat): (c: nat)
    ensures c >= INITIAL_HASH_SIZE
  {
    var c := 2 * CeilPower(1, max);
    if c < INITIAL_HASH_SIZE then INITIAL_HASH_SIZE else c
  }

  lemma {:induction false} CeilPowerIs(c: nat, max: nat)
    requires c > 0 && PowerOfTwo(c)
    ensures PowerOfTwo(CeilPower(c, max))
    ensures PowerOfTwo(max) && c <= max ==> CeilPower(c, max) == max
    decreases max - c
  {
    if c < max {
      assert (2 * c) / 2 == c;
      CeilPowerIs(2 * c, max);
      PowersApart(c, max);
    }
  }

  lemma {:induction false} PowersApart(a: nat, b: nat)
    requires PowerOfTwo(a) && a < b
    ensures PowerOfTwo(b) ==> 2 * a <= b
    decreases a
  {
    if PowerOfTwo(b) && a > 1 {
      PowersApart(a / 2, b / 2);
    }
  }

  /** It is the least power of two that will do. */
  lemma {:induction false} CeilPowerIsLeast(c: nat, max: nat, p: nat)
    requires c > 0 && PowerOfTwo(c) && PowerOfTwo(p) && p >= max && p >= c
    ensures CeilPower(c, max) <= p
    decreases max - c
  {
    if c < max {
      assert (2 * c) / 2 == c;
      PowersApart(c, p);
      CeilPowerIsLeast(2 * c, max, p);
    }
  }

  /** Half of what is reserved is the least power of two from 16 on that is not below the number of producers. */
  lemma PreallocatedIsLeast(max: nat, p: nat)
    requires PowerOfTwo(p) && p >= max && p >= 16
    ensures Preallocated(max) / 2 <= p
  {
    CeilPowerIsLeast(1, max, p);
  }

  lemma PreallocatedIs(max: nat)
    ensures PowerOfTwo(Preallocated(max) / 2) && max <= Preallocated(max) / 2 && 16 <= Preallocated(max) / 2
  {
    CeilPowerIs(1, max);
    assert PowerOfTwo(16) by {
      assert PowerOfTwo(8) by { assert PowerOfTwo(4) by { assert PowerOfTwo(2); } }
    }
  }

  /** Threads joining one after another, with no memory for another table. */
  function Joined(s: State, hash: nat -> nat, ids: seq<nat>): (z: State)
    requires Shape(s)
    ensures Shape(z)
    decreases |ids|
  {
    if ids == [] then s else Joined(GetOrAdd(s, ids[0], hash(ids[0]), false, true).0, hash, ids[1..])
  }

  /** Every one of `ids` has a producer. */
  predicate AllServed(s: State, ids: seq<nat>) {
    forall k :: 0 <= k < |ids| ==> ids[k] in s.owner
  }

  ghost predicate Distinct(ids: seq<nat>) {
    forall j, k :: 0 <= j < k < |ids| ==> ids[j] != ids[k]
  }

  /** Joining threads are served up to half the capacity, and not beyond. */
  lemma {:induction false} JoinsFit(s: State, hash: nat -> nat, ids: seq<nat>)
    requires Shape(s) && Inv(s, hash) && Distinct(ids) && Reusable !in s.tables[s.Main()].keys
    requires forall k :: 0 <= k < |ids| ==> ids[k] !in s.owner
    ensures ids == [] || (AllServed(Joined(s, hash, ids), ids) <==> s.count + |ids| < |s.tables[s.Main()].keys| / 2)
    ensures s.owner.Keys <= Joined(s, hash, ids).owner.Keys
    ensures forall id :: id in Joined(s, hash, ids).owner ==> id in s.owner || id in ids
    decreases |ids|
  {
    hide Inv, GetOrAdd, AllServed, Distinct, Shape;
    if ids != [] {
      JoinsOne(s, hash, ids[0]);
      var n, rest := GetOrAdd(s, ids[0], hash(ids[0]), false, true).0, ids[1..];
      RestApart(s.owner.Keys, n.owner.Keys, ids);
      JoinsFit(n, hash, rest);
      var z := Joined(n, hash, rest);
      assert z == Joined(s, hash, ids);
      ServedFirst(z, ids);
      JoinedNot(s, n, z, ids);
    }
  }

  lemma RestApart(known: set<nat>, now: set<nat>, ids: seq<nat>)
    requires ids != [] && Distinct(ids) && (forall k :: 0 <= k < |ids| ==> ids[k] !in known) && now <= known + {ids[0]}
    ensures Distinct(ids[1..]) && forall k :: 0 <= k < |ids| - 1 ==> ids[1..][k] !in now
    ensures ids[0] !in ids[1..]
  {
    assert forall k :: 0 <= k < |ids| - 1 ==> ids[1..][k] == ids[k + 1];
  }

  lemma ServedFirst(z: State, ids: seq<nat>)
    requires ids != []
    ensures AllServed(z, ids) <==> ids[0] in z.owner && AllServed(z, ids[1..])
    ensures AllServed(z, [])
  {
    assert forall k :: 0 <= k < |ids| - 1 ==> ids[1..][k] == ids[k + 1];
  }

  /** A thread not served when it joins is not served later. */
  lemma JoinedNot(s: State, n: State, z: State, ids: seq<nat>)
    requires ids != [] && ids[0] !in ids[1..] && ids[0] !in s.owner
    requires forall id :: id in z.owner ==> id in n.owner || id in ids[1..]
    ensures n == s ==> ids[0] !in z.owner
    ensures n.owner.Keys <= s.owner.Keys + {ids[0]} ==> forall id :: id in z.owner ==> id in s.owner || id in ids
  {
    assert forall id :: id in ids[1..] ==> id in ids;
  }

  lemma JoinsOne(s: State, hash: nat -> nat, id: nat)
    requires Shape(s) && Inv(s, hash) && id !in s.owner && Reusable !in s.tables[s.Main()].keys
    ensures var n := GetOrAdd(s, id, hash(id), false, true).0;
      && Inv(n, hash) && Reusable !in n.tables[n.Main()].keys
      && |n.tables[n.Main()].keys| == |s.tables[s.Main()].keys|
      && if s.count + 1 < |s.tables[s.Main()].keys| / 2 then n.count == s.count + 1
           && n.owner.Keys == s.owner.Keys + {id} else n == s
  {
    NewestIsRight(s, hash, id);
    if s.count + 1 < |s.tables[s.Main()].keys| / 2 {
      InsertsNew(s, hash, id, true);
    }
    hide Inv, Insert, Newest;
  }

  /**
   * The constructor sizes the table so that `max` threads never make it grow. It does, exactly unless `max` is a power
   * of two of 16 or more: then the last of `max` threads needs another table, and without memory for it gets no
   * producer.
   */
  lemma PreallocationSuffices(max: nat, hash: nat -> nat, ids: seq<nat>)
    requires |ids| == max > 0 && Distinct(ids)
    ensures AllServed(Joined(Init(Preallocated(max)), hash, ids), ids) <==> !(PowerOfTwo(max) && max >= 16)
  {
    var cap := Preallocated(max);
    ReachedInv(cap, hash, []);
    JoinsFit(Init(cap), hash, ids);
    CeilPowerIs(1, max);
    assert PowerOfTwo(16) by {
      assert PowerOfTwo(8) by { assert PowerOfTwo(4) by { assert PowerOfTwo(2); } }
    }
    if max == CeilPower(1, max) {
      assert PowerOfTwo(max);
    }
    hide Inv, AllServed, Joined;
  }

  // ---------------------------------------------------------------- the object

  /** The part of the queue that maps threads to implicit producers. */
  class ProducerMap {
    var tables: seq<Table>
    var count: nat
    var inactive: seq<bool>
    var owner: map<nat, nat> // a record for the proofs, apart from telling `ThreadExited` which producer the thread has
    const hash: nat -> nat

    ghost function Snapshot(): State
      reads this
    {
      State(tables, count, inactive, owner)
    }

    ghost predicate Valid()
      reads this
    {
      Shape(Snapshot()) && Inv(Snapshot(), hash)
    }

    constructor (capacity: nat, hash: nat -> nat)
      requires capacity > 0
      ensures Valid() && Snapshot() == Init(capacity) && this.hash == hash
    {
      tables, count, inactive, owner := [Fresh(capacity)], 0, [], map[];
      this.hash := hash;
      new;
      ReachedInv(capacity, hash, []);
    }

    /** The probe of a lookup and of an exit. */
    static method Probe(keys: seq<Key>, id: nat, h: nat) returns (p: Option<nat>)
      ensures p == Find(keys, h, id, 0)
    {
      hide At;
      var d := 0;
      while d < |keys|
        invariant 0 <= d <= |keys| && Find(keys, h, id, 0) == Find(keys, h, id, d)
      {
        var i := At(|keys|, h, d);
        if keys[i] == Id(id) {
          return Some(i);
        }
        if keys[i] == Empty {
          return None;
        }
        d := d + 1;
      }
      return None;
    }

    /** The probe of an insertion. */
    static method ProbeFree(keys: seq<Key>, h: nat) returns (p: nat)
      requires |keys| > 0
      ensures p == Free(keys, h, 0) && p < |keys|
    {
      hide At;
      var d := 0;
      while d < |keys|
        invariant 0 <= d <= |keys| && Free(keys, h, 0) == Free(keys, h, d)
      {
        var i := At(|keys|, h, d);
        if !keys[i].Id? {
          return i;
        }
        d := d + 1;
      }
      return 0;
    }

    /** Looking through the tables, the newest first. */
    method Search(id: nat) returns (found: Option<nat>, slot: nat)
      ensures found == Newest(tables, hash(id), id, |tables|)
      ensures found.Some? ==> Find(tables[found.value].keys, hash(id), id, 0) == Some(slot)
    {
      hide Find;
      var n := |tables|;
      while n > 0
        invariant 0 <= n <= |tables| && Newest(tables, hash(id), id, |tables|) == Newest(tables, hash(id), id, n)
      {
        var p := Probe(tables[n - 1].keys, id, hash(id));
        if p.Some? {
          return Some(n - 1), p.value;
        }
        n := n - 1;
      }
      return None, 0;
    }

    /** `recycle_or_create_producer`. */
    method TakeProducer(createOk: bool) returns (producer: Option<nat>)
      ensures var r := Recycled(inactive, |inactive|);
        producer == if r.Some? then r else if createOk then Some(|inactive|) else None
    {
      var n := |inactive|;
      while n > 0
        invariant 0 <= n <= |inactive| && Recycled(inactive, |inactive|) == Recycled(inactive, n)
      {
        if inactive[n - 1] {
          return Some(n - 1);
        }
        n := n - 1;
      }
      producer := if createOk then Some(|inactive|) else None;
    }

    /** `get_or_add_implicit_producer`. */
    method GetOrAddProducer(id: nat, mallocOk: bool, createOk: bool) returns (producer: Option<nat>)
      requires Valid()
      modifies this
      ensures Valid() && (Snapshot(), producer) == GetOrAdd(old(Snapshot()), id, hash(id), mallocOk, createOk)
      ensures Served(old(Snapshot()), id, Snapshot(), producer)
    {
      hide Inv, Find, Free, Newest, Insert, Served, Grown;
      ghost var s := Snapshot();
      GetOrAddServes(s, hash, id, mallocOk, createOk);
      var found, slot := Search(id);
      var main := |tables| - 1;
      if found.Some? {
        var v := tables[found.value].values[slot];
        if found.value != main {
          var p := ProbeFree(tables[main].keys, hash(id));
          tables := tables[main := Put(tables[main], p, id, v)];
        }
        return Some(v);
      }
      var n := count + 1;
      var cap := |tables[main].keys|;
      if n >= cap / 2 {
        if !mallocOk {
          return None;
        }
        var newCapacity := NewCapacity(cap, n);
        tables := tables + [Fresh(newCapacity)];
      }
      producer := InsertNew(id, createOk);
    }

    static method NewCapacity(cap: nat, n: nat) returns (c: nat)
      requires cap > 0 && n >= cap / 2
      ensures c == Grown(cap, n) && Doubles(2 * cap, c) && n < c / 2
      ensures forall d: nat :: Doubles(2 * cap, d) && n < d / 2 ==> c <= d
    {
      forall d: nat | Doubles(2 * cap, d) && n < d / 2
        ensures Grown(cap, n) <= d
      {
        GrownIsLeast(cap, n, d);
      }
      GrownDoubles(cap, n);
      hide Doubles;
      c := 2 * cap;
      while n >= c / 2
        invariant c > 0 && Grown(cap, n) == if n < c / 2 then c else Grown(c, n)
        decreases n + 1 - c / 2
      {
        c := 2 * c;
      }
    }

    method InsertNew(id: nat, createOk: bool) returns (producer: Option<nat>)
      requires Shape(Snapshot())
      modifies this
      ensures (Snapshot(), producer) == Insert(old(Snapshot()), id, hash(id), createOk)
    {
      hide Free, Recycled, Put;
      producer := TakeProducer(createOk);
      if producer.None? {
        return;
      }
      var v, main := producer.value, |tables| - 1;
      var t := tables[main];
      var p := ProbeFree(t.keys, hash(id));
      tables := tables[main := Put(t, p, id, v)];
      if t.keys[p] != Reusable {
        count := count + 1;
      }
      inactive := if v < |inactive| then inactive[v := false] else inactive + [false];
      owner := owner[id := v];
    }

    /** `implicit_producer_thread_exited`: the id becomes a tombstone in every table that has it. */
    method ThreadExited(id: nat)
      requires Valid() && id in owner
      modifies this
      ensures Valid() && Snapshot() == Exit(old(Snapshot()), id, hash(id))
    {
      hide Inv, Find;
      ghost var s := Snapshot();
      ExitOk(s, hash, id);
      var n := |tables|;
      while n > 0
        invariant 0 <= n <= |tables| == |s.tables| && count == s.count && inactive == s.inactive && owner == s.owner
        invariant forall i :: 0 <= i < n ==> tables[i] == s.tables[i]
        invariant forall i :: n <= i < |tables| ==> tables[i] == Tombstoned(s.tables[i], hash(id), id)
      {
        n := n - 1;
        var t := tables[n];
        var p := Probe(t.keys, id, hash(id));
        if p.Some? {
          tables := tables[n := t.(keys := t.keys[p.value := Reusable])];
        }
      }
      var p := owner[id];
      if p < |inactive| {
        inactive := inactive[p := true];
      }
      owner := owner - {id};
      assert tables == Exit(s, id, hash(id)).tables;
    }
  }

  /** The constructor's two shifts. */
  method PreallocateCapacity(max: nat) returns (c: nat)
    ensures c == Preallocated(max) && PowerOfTwo(c / 2) && max <= c / 2 && 16 <= c / 2
    ensures forall p: nat :: PowerOfTwo(p) && p >= max && p >= 16 ==> c / 2 <= p
  {
    PreallocatedIs(max);
    forall p: nat | PowerOfTwo(p) && p >= max && p >= 16
      ensures Preallocated(max) / 2 <= p
    {
      PreallocatedIsLeast(max, p);
    }
    hide PowerOfTwo;
    c := 1;
    while c < max
      invariant c > 0 && CeilPower(1, max) == CeilPower(c, max)
      decreases max - c
    {
      c := 2 * c;
    }
    c := 2 * c;
    if c < INITIAL_HASH_SIZE {
      c := INITIAL_HASH_SIZE;
    }
  }
}
