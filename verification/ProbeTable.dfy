/**
 The fixed-size hash table with linear probing. All four operations walk from the key's home slot, once
 around the table at most; they differ in where they stop. `Probe` is that walk; the class carries it
 out on its array, and the lemmas relate it to a finite map.
 */
module ProbeTable {
  import opened Prelude

  const TABLE_SIZE: nat := 1024

  /** Keys and values are signed 64-bit words. */
  type Word = x: int | -0x8000_0000_0000_0000 <= x < 0x8000_0000_0000_0000

  datatype Entry = Entry(key: Word, value: Word, occupied: bool)

  const VACANT := Entry(0, 0, false)

  type Slots = s: seq<Entry> | |s| == TABLE_SIZE witness seq(TABLE_SIZE, _ => VACANT)

  /** The cast to an unsigned word before the remainder makes no difference: the table size divides it. */
  function Home(key: Word): (h: nat)
    ensures h < TABLE_SIZE
  {
    key % TABLE_SIZE
  }

  lemma HomeOfCast(key: Word)
    ensures (key % 0x1_0000_0000_0000_0000) % 1024 == Home(key)
  {
    var q := key / 0x1_0000_0000_0000_0000;
    assert key == q * 0x1_0000_0000_0000_0000 + key % 0x1_0000_0000_0000_0000;
    assert key == (q * 0x40_0000_0000_0000) * 1024 + key % 0x1_0000_0000_0000_0000;
  }

  datatype Stop = AtVacant | AtKey(key: Word) | AtKeyOrVacant(key: Word)

  predicate Stops(e: Entry, stop: Stop) {
    match stop
    case AtVacant => !e.occupied
    case AtKey(k) => e.occupied && e.key == k
    case AtKeyOrVacant(k) => !e.occupied || e.key == k
  }

  /** The slot at distance `d` from slot `h`. */
  function At(h: nat, d: nat): (i: nat)
    ensures i < TABLE_SIZE
  {
    (h + d) % TABLE_SIZE
  }

  /** The first slot from distance `d` on where the walk stops. */
  function Probe(s: Slots, h: nat, stop: Stop, d: nat): Option<nat>
    requires d <= TABLE_SIZE
    decreases TABLE_SIZE - d
  {
    if d == TABLE_SIZE then None
    else if Stops(s[At(h, d)], stop) then Some(At(h, d))
    else Probe(s, h, stop, d + 1)
  }

  // ----- the walk -----

  /** A slot lies at exactly one distance from another. */
  lemma SlotDistance(h: nat, i: nat) returns (d: nat)
    requires h < TABLE_SIZE && i < TABLE_SIZE
    ensures d < TABLE_SIZE && At(h, d) == i
    ensures forall e :: 0 <= e < TABLE_SIZE && At(h, e) == i ==> e == d
  {
    d := if h <= i then i - h else i + TABLE_SIZE - h;
  }

  /** One step of the walk; it is back home after going round once. */
  lemma WalkStep(h: nat, d: nat)
    requires h < TABLE_SIZE && d < TABLE_SIZE
    ensures (At(h, d) + 1) % TABLE_SIZE == At(h, d + 1)
    ensures At(h, d + 1) == h <==> d + 1 == TABLE_SIZE
  {
  }

  lemma {:induction false} ProbeStops(s: Slots, h: nat, stop: Stop, d: nat)
    requires d <= TABLE_SIZE
    ensures var r := Probe(s, h, stop, d);
            && (r.None? ==> forall e :: d <= e < TABLE_SIZE ==> !Stops(s[At(h, e)], stop))
            && (r.Some? ==> exists e :: d <= e < TABLE_SIZE && r.value == At(h, e) && Stops(s[At(h, e)], stop)
                              && forall f :: d <= f < e ==> !Stops(s[At(h, f)], stop))
    decreases TABLE_SIZE - d
  {
    if d < TABLE_SIZE {
      if Stops(s[At(h, d)], stop) {
        assert Probe(s, h, stop, d).value == At(h, d);
      } else {
        ProbeStops(s, h, stop, d + 1);
      }
    }
  }

  /** The walk misses no slot. */
  lemma ProbeFindsAny(s: Slots, h: nat, stop: Stop)
    requires h < TABLE_SIZE
    ensures Probe(s, h, stop, 0).Some? <==> exists i :: 0 <= i < TABLE_SIZE && Stops(s[i], stop)
    ensures Probe(s, h, stop, 0).Some? ==>
              Probe(s, h, stop, 0).value < TABLE_SIZE && Stops(s[Probe(s, h, stop, 0).value], stop)
  {
    ProbeStops(s, h, stop, 0);
    forall i | 0 <= i < TABLE_SIZE && Stops(s[i], stop)
      ensures Probe(s, h, stop, 0).Some?
    {
      var d := SlotDistance(h, i);
      assert Stops(s[At(h, d)], stop);
    }
  }

  // ----- the map a table stands for -----

  ghost predicate Distinct(s: seq<Entry>) {
    forall i, j :: 0 <= i < j < |s| && s[i].occupied && s[j].occupied ==> s[i].key != s[j].key
  }

  /** Of several entries with one key the last counts; with distinct keys there is one. */
  function AsMap(s: seq<Entry>): map<Word, Word> {
    if s == [] then map[]
    else
      var e := s[|s| - 1];
      if e.occupied then AsMap(s[..|s| - 1])[e.key := e.value] else AsMap(s[..|s| - 1])
  }

  function Occupied(s: seq<Entry>): nat {
    if s == [] then 0 else Occupied(s[..|s| - 1]) + if s[|s| - 1].occupied then 1 else 0
  }

  lemma {:induction false} MapOf(s: seq<Entry>, k: Word)
    ensures k in AsMap(s) <==> exists i :: 0 <= i < |s| && s[i].occupied && s[i].key == k
    ensures Distinct(s) ==> forall i :: 0 <= i < |s| && s[i].occupied && s[i].key == k ==> AsMap(s)[k] == s[i].value
  {
    if s != [] {
      var front := s[..|s| - 1];
      MapOf(front, k);
      if k in AsMap(front) {
        var i :| 0 <= i < |front| && front[i].occupied && front[i].key == k;
        assert s[i] == front[i];
      }
      if Distinct(s) {
        assert Distinct(front);
        forall i | 0 <= i < |s| && s[i].occupied && s[i].key == k ensures AsMap(s)[k] == s[i].value {
          if i < |front| { assert front[i] == s[i]; }
        }
      }
    }
  }

  /** With distinct keys the map has as many keys as the table has occupied slots. */
  lemma {:induction false} MapSize(s: seq<Entry>)
    requires Distinct(s)
    ensures |AsMap(s)| == Occupied(s) <= |s|
  {
    if s != [] {
      var front := s[..|s| - 1];
      MapSize(front);
      MapOf(front, s[|s| - 1].key);
    }
  }

  lemma {:induction false} FullWhen(s: seq<Entry>)
    ensures Occupied(s) <= |s|
    ensures Occupied(s) == |s| <==> forall i :: 0 <= i < |s| ==> s[i].occupied
  {
    if s != [] {
      var front := s[..|s| - 1];
      FullWhen(front);
      if Occupied(s) == |s| {
        forall i | 0 <= i < |s| ensures s[i].occupied {
          if i < |front| { assert front[i].occupied; }
        }
      }
      if forall i :: 0 <= i < |s| ==> s[i].occupied {
        assert forall i :: 0 <= i < |front| ==> front[i].occupied;
      }
    }
  }

  /** Two maps that agree on every key are one. */
  lemma SameMap(a: map<Word, Word>, b: map<Word, Word>)
    requires forall k :: (k in a <==> k in b) && (k in a ==> a[k] == b[k])
    ensures a == b
  {
  }

  /** Filling a vacant slot with a new key extends the map. */
  lemma MapAfterFill(s: seq<Entry>, i: nat, key: Word, value: Word)
    requires Distinct(s) && i < |s| && !s[i].occupied && key !in AsMap(s)
    ensures Distinct(s[i := Entry(key, value, true)])
    ensures AsMap(s[i := Entry(key, value, true)]) == AsMap(s)[key := value]
  {
    var t := s[i := Entry(key, value, true)];
    MapOf(s, key);
    assert Distinct(t);
    forall k ensures (k in AsMap(t) <==> k in AsMap(s)[key := value])
                     && (k in AsMap(t) ==> AsMap(t)[k] == AsMap(s)[key := value][k]) {
      MapOf(s, k);
      MapOf(t, k);
      if k in AsMap(s) {
        var j :| 0 <= j < |s| && s[j].occupied && s[j].key == k;
        assert t[j] == s[j];
      }
      if k in AsMap(t) {
        var j :| 0 <= j < |t| && t[j].occupied && t[j].key == k;
        assert j != i ==> t[j] == s[j];
      }
      if k == key { assert t[i].occupied && t[i].key == key; }
    }
    SameMap(AsMap(t), AsMap(s)[key := value]);
  }

  /** Vacating a slot removes its key. */
  lemma MapAfterVacate(s: seq<Entry>, i: nat)
    requires Distinct(s) && i < |s| && s[i].occupied
    ensures Distinct(s[i := VACANT])
    ensures AsMap(s[i := VACANT]) == AsMap(s) - {s[i].key}
  {
    var t := s[i := VACANT];
    assert Distinct(t);
    forall k ensures (k in AsMap(t) <==> k in AsMap(s) - {s[i].key})
                     && (k in AsMap(t) ==> AsMap(t)[k] == (AsMap(s) - {s[i].key})[k]) {
      MapOf(s, k);
      MapOf(t, k);
      if k in AsMap(s) {
        var j :| 0 <= j < |s| && s[j].occupied && s[j].key == k;
        assert j != i ==> t[j] == s[j];
      }
      if k in AsMap(t) {
        var j :| 0 <= j < |t| && t[j].occupied && t[j].key == k;
        assert t[j] == s[j];
      }
    }
    SameMap(AsMap(t), AsMap(s) - {s[i].key});
  }

  // ----- the operations -----

  function AfterInsert(s: Slots, key: Word, value: Word): Slots {
    match Probe(s, Home(key), AtVacant, 0)
    case Some(i) => ProbeFindsAny(s, Home(key), AtVacant); s[i := Entry(key, value, true)]
    case None => s
  }

  function Found(s: Slots, key: Word): Option<Word> {
    match Probe(s, Home(key), AtKey(key), 0)
    case Some(i) => ProbeFindsAny(s, Home(key), AtKey(key)); Some(s[i].value)
    case None => None
  }

  function AfterRemove(s: Slots, key: Word): Slots {
    match Probe(s, Home(key), AtKey(key), 0)
    case Some(i) => ProbeFindsAny(s, Home(key), AtKey(key)); s[i := VACANT]
    case None => s
  }

  /** The subscript operator: the slot it returns, and the table it leaves. */
  function AfterSubscript(s: Slots, key: Word): Slots {
    match Probe(s, Home(key), AtKeyOrVacant(key), 0)
    case Some(i) =>
      ProbeFindsAny(s, Home(key), AtKeyOrVacant(key));
      if s[i].occupied then s else s[i := Entry(key, 0, true)]
    case None => s
  }

  /** Inserting an absent key extends the map, and fails exactly when the map is as large as the table. */
  lemma InsertRefines(s: Slots, key: Word, value: Word)
    requires Distinct(s) && key !in AsMap(s)
    ensures Probe(s, Home(key), AtVacant, 0).Some? <==> |AsMap(s)| < 1024
    ensures Distinct(AfterInsert(s, key, value))
    ensures AsMap(AfterInsert(s, key, value)) == if |AsMap(s)| < 1024 then AsMap(s)[key := value] else AsMap(s)
  {
    ProbeFindsAny(s, Home(key), AtVacant);
    MapSize(s);
    FullWhen(s);
    match Probe(s, Home(key), AtVacant, 0)
    case Some(i) => MapAfterFill(s, i, key, value);
    case None =>
  }

  lemma GetRefines(s: Slots, key: Word)
    requires Distinct(s)
    ensures Found(s, key) == if key in AsMap(s) then Some(AsMap(s)[key]) else None
  {
    ProbeFindsAny(s, Home(key), AtKey(key));
    MapOf(s, key);
  }

  lemma RemoveRefines(s: Slots, key: Word)
    requires Distinct(s)
    ensures Distinct(AfterRemove(s, key)) && AsMap(AfterRemove(s, key)) == AsMap(s) - {key}
    ensures Probe(s, Home(key), AtKey(key), 0).Some? <==> key in AsMap(s)
  {
    ProbeFindsAny(s, Home(key), AtKey(key));
    MapOf(s, key);
    match Probe(s, Home(key), AtKey(key), 0)
    case Some(i) => MapAfterVacate(s, i);
    case None =>
  }

  /** No vacant slot lies between the key's home and the slot that stores it. */
  ghost predicate Unbroken(s: Slots, key: Word) {
    forall d, e :: 0 <= e < d < TABLE_SIZE && s[At(Home(key), d)].occupied && s[At(Home(key), d)].key == key ==>
      s[At(Home(key), e)].occupied
  }

  /** What a default-inserting subscript should do. */
  ghost predicate SubscriptRefines(s: Slots, key: Word) {
    var t := AfterSubscript(s, key);
    && Distinct(t)
    && AsMap(t) == (if key in AsMap(s) || |AsMap(s)| == TABLE_SIZE then AsMap(s) else AsMap(s)[key := 0])
  }

  /** The subscript stops at the first vacant slot, although removal leaves such slots in the middle of
      a walk. It acts on the map exactly when the key's own walk is unbroken. */
  lemma SubscriptExact(s: Slots, key: Word)
    requires Distinct(s)
    ensures SubscriptRefines(s, key) <==> Unbroken(s, key)
  {
    var h := Home(key);
    ProbeStops(s, h, AtKeyOrVacant(key), 0);
    ProbeFindsAny(s, h, AtKeyOrVacant(key));
    MapOf(s, key);
    MapSize(s);
    FullWhen(s);
    match Probe(s, h, AtKeyOrVacant(key), 0)
    case None =>
    case Some(i) =>
      var d :| 0 <= d < TABLE_SIZE && i == At(h, d) && Stops(s[i], AtKeyOrVacant(key))
               && forall f :: 0 <= f < d ==> !Stops(s[At(h, f)], AtKeyOrVacant(key));
      if s[i].occupied {
        StoredIsUnbroken(s, key, d);
      } else if key in AsMap(s) {
        DuplicateKey(s, key, d);
      } else {
        MapAfterFill(s, i, key, 0);
      }
  }

  lemma StoredIsUnbroken(s: Slots, key: Word, d: nat)
    requires Distinct(s) && d < TABLE_SIZE
    requires s[At(Home(key), d)].occupied && s[At(Home(key), d)].key == key
    requires forall f :: 0 <= f < d ==> !Stops(s[At(Home(key), f)], AtKeyOrVacant(key))
    ensures Unbroken(s, key)
  {
    var h := Home(key);
    forall d', e | 0 <= e < d' < TABLE_SIZE && s[At(h, d')].occupied && s[At(h, d')].key == key
      ensures s[At(h, e)].occupied
    {
      var x := SlotDistance(h, At(h, d));
      assert At(h, d') == At(h, d);
      assert !Stops(s[At(h, e)], AtKeyOrVacant(key));
    }
  }

  /** A stored key behind a vacant slot is entered a second time. */
  lemma DuplicateKey(s: Slots, key: Word, d: nat)
    requires Distinct(s) && d < TABLE_SIZE && key in AsMap(s)
    requires !s[At(Home(key), d)].occupied
    requires forall f :: 0 <= f < d ==> !Stops(s[At(Home(key), f)], AtKeyOrVacant(key))
    ensures !Unbroken(s, key)
    ensures !Distinct(s[At(Home(key), d) := Entry(key, 0, true)])
  {
    var h, i := Home(key), At(Home(key), d);
    MapOf(s, key);
    var j :| 0 <= j < |s| && s[j].occupied && s[j].key == key;
    var d' := SlotDistance(h, j);
    assert d' != d && !(d' < d);
    assert s[At(h, d')].occupied && s[At(h, d')].key == key && d < d';
    var t := s[i := Entry(key, 0, true)];
    assert t[i].key == t[j].key && t[i].occupied && t[j].occupied && i != j;
    if i < j { assert !Distinct(t); } else { assert !Distinct(t); }
  }

  // ----- two ways to keep every walk unbroken -----

  ghost predicate AllUnbroken(s: Slots) {
    forall key :: Unbroken(s, key)
  }

  /** Without removals no walk is ever broken. */
  lemma FillKeepsUnbroken(s: Slots, key: Word, value: Word, stop: Stop)
    requires AllUnbroken(s) && (stop == AtVacant || stop == AtKeyOrVacant(key))
    requires Probe(s, Home(key), stop, 0).Some? && Probe(s, Home(key), stop, 0).value < TABLE_SIZE
    requires !s[Probe(s, Home(key), stop, 0).value].occupied
    ensures AllUnbroken(s[Probe(s, Home(key), stop, 0).value := Entry(key, value, true)])
  {
    var h, i := Home(key), Probe(s, Home(key), stop, 0).value;
    ProbeStops(s, h, stop, 0);
    var d0 :| 0 <= d0 < TABLE_SIZE && i == At(h, d0) && forall f :: 0 <= f < d0 ==> !Stops(s[At(h, f)], stop);
    var t: Slots := s[i := Entry(key, value, true)];
    forall k, d, e | 0 <= e < d < TABLE_SIZE && t[At(Home(k), d)].occupied && t[At(Home(k), d)].key == k
      ensures t[At(Home(k), e)].occupied
    {
      if At(Home(k), d) == i {
        var x := SlotDistance(h, i);
        assert !Stops(s[At(h, e)], stop);
      } else {
        assert Unbroken(s, k);
      }
    }
    forall k ensures Unbroken(t, k) {}
  }

  /** Every stored key sits in its home slot. */
  ghost predicate AllHome(s: Slots) {
    forall i :: 0 <= i < TABLE_SIZE && s[i].occupied ==> Home(s[i].key) == i
  }

  /** If keys have home slots of their own, they stay there, removals included, and the subscript is exact
      for every key whose home is not another key's. */
  lemma OwnHomes(s: Slots, key: Word)
    requires AllHome(s) && (s[Home(key)].occupied ==> s[Home(key)].key == key)
    ensures Unbroken(s, key)
    ensures AllHome(AfterSubscript(s, key)) && AllHome(AfterRemove(s, key))
  {
    var h := Home(key);
    assert At(h, 0) == h;
    assert Probe(s, h, AtKeyOrVacant(key), 0) == Some(h);
    ProbeFindsAny(s, h, AtKey(key));
    forall d | 0 < d < TABLE_SIZE ensures !(s[At(h, d)].occupied && s[At(h, d)].key == key) {
      var x := SlotDistance(h, h);
    }
  }

  /** A key with a home slot of its own is inserted there. */
  lemma InsertedAtHome(s: Slots, key: Word, value: Word)
    requires AllHome(s) && !s[Home(key)].occupied
    ensures AfterInsert(s, key, value) == s[Home(key) := Entry(key, value, true)] && AllHome(AfterInsert(s, key, value))
  {
    assert At(Home(key), 0) == Home(key);
    assert Probe(s, Home(key), AtVacant, 0) == Some(Home(key));
  }

  lemma EmptyTable(s: Slots)
    requires forall i :: 0 <= i < TABLE_SIZE ==> !s[i].occupied
    ensures AsMap(s) == map[] && Distinct(s) && AllUnbroken(s) && AllHome(s)
  {
    forall k ensures k !in AsMap(s) { MapOf(s, k); }
    forall k ensures Unbroken(s, k) {}
  }

  // ----- runs -----

  /** `Touch` reads through the subscript, `Assign` writes through it. */
  datatype Op = Insert(key: Word, value: Word) | Remove(key: Word) | Touch(key: Word) | Assign(key: Word, value: Word)

  function AfterAssign(s: Slots, key: Word, value: Word): Slots {
    match Probe(s, Home(key), AtKeyOrVacant(key), 0)
    case Some(i) => ProbeFindsAny(s, Home(key), AtKeyOrVacant(key)); s[i := Entry(key, value, true)]
    case None => s
  }

  function AfterOp(s: Slots, op: Op): Slots {
    match op
    case Insert(k, v) => AfterInsert(s, k, v)
    case Remove(k) => AfterRemove(s, k)
    case Touch(k) => AfterSubscript(s, k)
    case Assign(k, v) => AfterAssign(s, k, v)
  }

  /** What the operation means for a map of limited size. */
  function MapOp(m: map<Word, Word>, op: Op): map<Word, Word> {
    match op
    case Insert(k, v) => if |m| < TABLE_SIZE then m[k := v] else m
    case Remove(k) => m - {k}
    case Touch(k) => if k in m || |m| == TABLE_SIZE then m else m[k := 0]
    case Assign(k, v) => if k in m || |m| < TABLE_SIZE then m[k := v] else m
  }

  function AfterAll(s: Slots, ops: seq<Op>): Slots
    decreases |ops|
  {
    if ops == [] then s else AfterAll(AfterOp(s, ops[0]), ops[1..])
  }

  function MapAll(m: map<Word, Word>, ops: seq<Op>): map<Word, Word>
    decreases |ops|
  {
    if ops == [] then m else MapAll(MapOp(m, ops[0]), ops[1..])
  }

  /** The program inserts absent keys only. */
  ghost predicate InsertsFresh(m: map<Word, Word>, ops: seq<Op>)
    decreases |ops|
  {
    ops != [] ==> (ops[0].Insert? ==> ops[0].key !in m) && InsertsFresh(MapOp(m, ops[0]), ops[1..])
  }

  /** At each use of the subscript the walk of its key is unbroken. */
  ghost predicate WalksWhole(s: Slots, ops: seq<Op>)
    decreases |ops|
  {
    ops != [] ==>
      && (ops[0].Touch? || ops[0].Assign? ==> Unbroken(s, ops[0].key))
      && WalksWhole(AfterOp(s, ops[0]), ops[1..])
  }

  /** Overwriting the value of a stored key. */
  lemma MapAfterWrite(s: seq<Entry>, i: nat, value: Word)
    requires Distinct(s) && i < |s| && s[i].occupied
    ensures Distinct(s[i := s[i].(value := value)])
    ensures AsMap(s[i := s[i].(value := value)]) == AsMap(s)[s[i].key := value]
  {
    var key, t := s[i].key, s[i := s[i].(value := value)];
    assert Distinct(t);
    forall k ensures (k in AsMap(t) <==> k in AsMap(s)[key := value])
                     && (k in AsMap(t) ==> AsMap(t)[k] == AsMap(s)[key := value][k]) {
      MapOf(s, k);
      MapOf(t, k);
      if k in AsMap(s) {
        var j :| 0 <= j < |s| && s[j].occupied && s[j].key == k;
        assert t[j].key == k && (j != i ==> t[j] == s[j]);
      }
      if k in AsMap(t) {
        var j :| 0 <= j < |t| && t[j].occupied && t[j].key == k;
        assert s[j].key == k;
      }
      if k == key { assert t[i].occupied && t[i].key == key; }
    }
    SameMap(AsMap(t), AsMap(s)[key := value]);
  }

  lemma AssignRefines(s: Slots, key: Word, value: Word)
    requires Distinct(s) && Unbroken(s, key)
    ensures Distinct(AfterAssign(s, key, value))
    ensures AsMap(AfterAssign(s, key, value)) == MapOp(AsMap(s), Assign(key, value))
  {
    SubscriptExact(s, key);
    ProbeFindsAny(s, Home(key), AtKeyOrVacant(key));
    var t := AfterSubscript(s, key);
    match Probe(s, Home(key), AtKeyOrVacant(key), 0)
    case None =>
      MapSize(s);
      FullWhen(s);
      MapOf(s, key);
    case Some(i) =>
      assert t[i].occupied && t[i].key == key && AfterAssign(s, key, value) == t[i := t[i].(value := value)];
      MapOf(t, key);
      MapAfterWrite(t, i, value);
      MapSize(s);
      MapSize(t);
      WriteTwice(AsMap(s), AsMap(t), key, value);
  }

  lemma WriteTwice(m: map<Word, Word>, n: map<Word, Word>, key: Word, value: Word)
    requires n == (if key in m || |m| == TABLE_SIZE then m else m[key := 0]) && key in n && |m| <= TABLE_SIZE
    ensures n[key := value] == MapOp(m, Assign(key, value))
  {
    assert key !in m ==> |m| < TABLE_SIZE;
    SameMap(n[key := value], m[key := value]);
  }

  lemma OpRefines(s: Slots, op: Op)
    requires Distinct(s) && (op.Insert? ==> op.key !in AsMap(s))
    requires op.Touch? || op.Assign? ==> Unbroken(s, op.key)
    ensures Distinct(AfterOp(s, op)) && AsMap(AfterOp(s, op)) == MapOp(AsMap(s), op)
  {
    match op
    case Insert(k, v) => InsertRefines(s, k, v);
    case Remove(k) => RemoveRefines(s, k);
    case Touch(k) => SubscriptExact(s, k);
    case Assign(k, v) => AssignRefines(s, k, v);
  }

  /** A run does to the table what it means for the map, as long as no subscript meets a broken walk. */
  lemma {:induction false} RunRefines(s: Slots, ops: seq<Op>)
    requires Distinct(s) && InsertsFresh(AsMap(s), ops) && WalksWhole(s, ops)
    ensures Distinct(AfterAll(s, ops)) && AsMap(AfterAll(s, ops)) == MapAll(AsMap(s), ops)
    decreases |ops|
  {
    if ops != [] {
      OpRefines(s, ops[0]);
      RunRefines(AfterOp(s, ops[0]), ops[1..]);
    }
  }

  lemma FillingKeepsUnbroken(s: Slots, op: Op)
    requires AllUnbroken(s) && !op.Remove?
    ensures AllUnbroken(AfterOp(s, op))
  {
    var stop := if op.Insert? then AtVacant else AtKeyOrVacant(op.key);
    ProbeFindsAny(s, Home(op.key), stop);
    match Probe(s, Home(op.key), stop, 0)
    case None =>
    case Some(i) =>
      if s[i].occupied {
        SameKeysUnbroken(s, AfterOp(s, op));
      } else {
        FillKeepsUnbroken(s, op.key, if op.Touch? then 0 else op.value, stop);
      }
  }

  lemma SameKeysUnbroken(s: Slots, t: Slots)
    requires AllUnbroken(s) && forall i :: 0 <= i < TABLE_SIZE ==>
             t[i].key == s[i].key && t[i].occupied == s[i].occupied
    ensures AllUnbroken(t)
  {
    forall k ensures Unbroken(t, k) { assert Unbroken(s, k); }
  }

  /** Runs without removals meet no broken walk. */
  lemma {:induction false} NoRemovalsWhole(s: Slots, ops: seq<Op>)
    requires AllUnbroken(s) && forall i :: 0 <= i < |ops| ==> !ops[i].Remove?
    ensures WalksWhole(s, ops)
    decreases |ops|
  {
    if ops != [] {
      FillingKeepsUnbroken(s, ops[0]);
      NoRemovalsWhole(AfterOp(s, ops[0]), ops[1..]);
    }
  }

  /** The keys of `keys` have home slots of their own, and the table holds none but these, at home. */
  ghost predicate HomesApart(s: Slots, keys: set<Word>) {
    && (forall a, b :: a in keys && b in keys && Home(a) == Home(b) ==> a == b)
    && AllHome(s) && (forall i :: 0 <= i < TABLE_SIZE && s[i].occupied ==> s[i].key in keys)
  }

  lemma OpKeepsHomes(s: Slots, op: Op, keys: set<Word>)
    requires HomesApart(s, keys) && op.key in keys && (op.Insert? ==> op.key !in AsMap(s))
    ensures Unbroken(s, op.key) && HomesApart(AfterOp(s, op), keys)
  {
    var h := Home(op.key);
    assert s[h].occupied ==> s[h].key == op.key;
    OwnHomes(s, op.key);
    HomeProbe(s, op.key);
    match op
    case Insert(k, v) =>
      MapOf(s, k);
      InsertedAtHome(s, k, v);
      HomeChange(s, AfterOp(s, op), h, k, keys);
    case Remove(k) =>
      ProbeFindsAny(s, h, AtKey(k));
      HomeChange(s, AfterOp(s, op), h, k, keys);
    case Touch(k) => HomeChange(s, AfterOp(s, op), h, k, keys);
    case Assign(k, v) => HomeChange(s, AfterOp(s, op), h, k, keys);
  }

  lemma HomeProbe(s: Slots, key: Word)
    requires s[Home(key)].occupied ==> s[Home(key)].key == key
    ensures Probe(s, Home(key), AtKeyOrVacant(key), 0) == Some(Home(key))
  {
    assert At(Home(key), 0) == Home(key);
  }

  lemma HomeChange(s: Slots, t: Slots, h: nat, key: Word, keys: set<Word>)
    requires HomesApart(s, keys) && key in keys && h == Home(key)
    requires forall i :: 0 <= i < TABLE_SIZE && i != h ==> t[i] == s[i]
    requires t[h].occupied ==> t[h].key == key
    ensures HomesApart(t, keys)
  {
  }

  /** Nor do runs over keys with home slots of their own, removals included. */
  lemma {:induction false} OwnHomesWhole(s: Slots, ops: seq<Op>, keys: set<Word>)
    requires Distinct(s) && HomesApart(s, keys) && InsertsFresh(AsMap(s), ops)
    requires forall i :: 0 <= i < |ops| ==> ops[i].key in keys
    ensures WalksWhole(s, ops)
    decreases |ops|
  {
    if ops != [] {
      OpKeepsHomes(s, ops[0], keys);
      OpRefines(s, ops[0]);
      OwnHomesWhole(AfterOp(s, ops[0]), ops[1..], keys);
    }
  }

  function EmptySlots(): Slots {
    seq(TABLE_SIZE, _ => VACANT)
  }

  /** With colliding keys the subscript loses a value after a removal: 0 and 1024 share a home, 0 is
      removed, and 1024, which the map holds with 7, reads as 0 from a second entry. */
  lemma SubscriptLosesValue()
    ensures var s := AfterAll(EmptySlots(), [Insert(0, 5), Insert(1024, 7), Remove(0)]);
            && AsMap(s) == map[1024 := 7] && !Unbroken(s, 1024)
            && Probe(s, Home(1024), AtKeyOrVacant(1024), 0) == Some(0)
            && AfterSubscript(s, 1024)[0] == Entry(1024, 0, true) && AfterSubscript(s, 1024)[1] == Entry(1024, 7, true)
  {
    var s0 := EmptySlots();
    var s1: Slots := s0[0 := Entry(0, 5, true)];
    var s2: Slots := s1[1 := Entry(1024, 7, true)];
    var s3: Slots := s2[0 := VACANT];
    assert At(0, 0) == 0 && At(0, 1) == 1;
    assert Probe(s0, 0, AtVacant, 0) == Some(0);
    assert Probe(s1, 0, AtVacant, 1) == Some(1);
    assert Probe(s1, 0, AtVacant, 0) == Some(1);
    assert Probe(s2, 0, AtKey(0), 0) == Some(0);
    assert AfterOp(s0, Insert(0, 5)) == s1 && AfterOp(s1, Insert(1024, 7)) == s2 && AfterOp(s2, Remove(0)) == s3;
    RunThree(s0, Insert(0, 5), Insert(1024, 7), Remove(0));
    EmptyTable(s0);
    MapAfterFill(s0, 0, 0, 5);
    MapAfterFill(s1, 1, 1024, 7);
    MapAfterVacate(s2, 0);
    assert AsMap(s3) == map[1024 := 7];
    assert Probe(s3, 0, AtKeyOrVacant(1024), 0) == Some(0);
    assert s3[At(Home(1024), 1)].key == 1024 && !s3[At(Home(1024), 0)].occupied;
  }

  lemma RunThree(s: Slots, a: Op, b: Op, c: Op)
    ensures AfterAll(s, [a, b, c]) == AfterOp(AfterOp(AfterOp(s, a), b), c)
  {
    var t := AfterOp(AfterOp(s, a), b);
    assert [a, b, c][1..] == [b, c] && [b, c][1..] == [c] && [c][1..] == [];
    assert AfterAll(AfterOp(t, c), []) == AfterOp(t, c);
    assert AfterAll(t, [c]) == AfterOp(t, c);
    assert AfterAll(AfterOp(s, a), [b, c]) == AfterAll(t, [c]);
  }

  // ----- the object -----

  class FixedHashTable {
    var entries: array<Entry>

    ghost predicate Valid()
      reads this
    {
      entries.Length == TABLE_SIZE
    }

    ghost function View(): Slots
      requires Valid()
      reads this, entries
    {
      entries[..]
    }

    constructor ()
      ensures Valid() && fresh(entries)
      ensures AsMap(View()) == map[] && Distinct(View()) && AllUnbroken(View()) && AllHome(View())
    {
      entries := new Entry[TABLE_SIZE];
      new;
      for i := 0 to TABLE_SIZE
        invariant Valid() && fresh(entries)
        invariant forall j :: 0 <= j < i ==> entries[j] == VACANT
      {
        entries[i] := VACANT;
      }
      assert forall i :: 0 <= i < TABLE_SIZE ==> !View()[i].occupied;
      EmptyTable(View());
    }

    /** The walk of all four operations: a do-while loop that ends back at the home slot. */
    method Walk(key: Word, stop: Stop) returns (found: Option<nat>)
      requires Valid()
      ensures found == Probe(View(), Home(key), stop, 0)
      ensures found.Some? ==> found.value < TABLE_SIZE && Stops(entries[found.value], stop)
    {
      var index := Home(key);
      var original := index;
      var again := true;
      ghost var d := 0;
      while again
        invariant d <= TABLE_SIZE && original == Home(key) && index == At(original, d)
        invariant again <==> d < TABLE_SIZE
        invariant Probe(View(), original, stop, 0) == Probe(View(), original, stop, d)
        decreases TABLE_SIZE - d
      {
        if Stops(entries[index], stop) {
          return Some(index);
        }
        WalkStep(original, d);
        index := (index + 1) % TABLE_SIZE;
        d := d + 1;
        again := index != original;
      }
      return None;
    }

    method Insert(key: Word, value: Word) returns (ok: bool)
      requires Valid()
      modifies entries
      ensures ok == Probe(old(View()), Home(key), AtVacant, 0).Some?
      ensures View() == AfterInsert(old(View()), key, value)
    {
      var slot := Walk(key, AtVacant);
      if slot.Some? {
        entries[slot.value] := Entry(key, value, true);
        return true;
      }
      return false;
    }

    method Get(key: Word) returns (value: Option<Word>)
      requires Valid()
      ensures value == Found(View(), key)
    {
      var slot := Walk(key, AtKey(key));
      if slot.Some? {
        return Some(entries[slot.value].value);
      }
      return None;
    }

    method Remove(key: Word) returns (ok: bool)
      requires Valid()
      modifies entries
      ensures ok == Probe(old(View()), Home(key), AtKey(key), 0).Some?
      ensures View() == AfterRemove(old(View()), key)
    {
      var slot := Walk(key, AtKey(key));
      if slot.Some? {
        entries[slot.value] := VACANT;
        return true;
      }
      return false;
    }

    /** Returns the slot the reference points into; a full table without the key is an error. */
    method Subscript(key: Word) returns (slot: Option<nat>)
      requires Valid()
      modifies entries
      ensures slot == Probe(old(View()), Home(key), AtKeyOrVacant(key), 0)
      ensures View() == AfterSubscript(old(View()), key)
      ensures slot.Some? ==> slot.value < TABLE_SIZE && entries[slot.value].occupied && entries[slot.value].key == key
    {
      slot := Walk(key, AtKeyOrVacant(key));
      if slot.Some? && !entries[slot.value].occupied {
        entries[slot.value] := Entry(key, 0, true);
      }
    }
  }
}
