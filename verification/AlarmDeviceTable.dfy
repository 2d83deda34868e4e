/** Devices of the alarm systems (alarm_system_device_table.cpp): a vector searched by MAC address,
    with swap-remove, mirrored row by row in the database. */
module AlarmDeviceTable {
  import opened Basics
  import opened Vectors

  const MAX_UNIQUEID_LENGTH := 31
  const ARMED_AWAY: bv32 := 0x0100
  const ARMED_STAY: bv32 := 0x0200
  const ARMED_NIGHT: bv32 := 0x0400

  datatype Entry = Entry(uniqueId: string, extAddress: nat, flags: bv32, alarmSystemId: bv8, armMask: string)

  /** A row of alarm_systems_devices; its key is the unique id. */
  datatype Row = Row(alarmSystemId: bv8, flags: bv32)

  const NO_ENTRY := Entry("", 0, 0, 0, "")

  predicate IsValid(e: Entry)
  {
    e.uniqueId != "" && e.alarmSystemId != 0 && e.extAddress != 0
  }

  // ----- MAC address of a unique id (utils.cpp:320-364) -----

  function HexDigit(ch: char): Option<nat>
  {
    if '0' <= ch <= '9' then Some((ch - '0') as nat)
    else if 'a' <= ch <= 'f' then Some((ch - 'a') as nat + 10)
    else if 'A' <= ch <= 'F' then Some((ch - 'A') as nat + 10)
    else None
  }

  /** Value of the first `digits` characters other than ':', or 0 when they are not all hex digits. */
  function HexPrefix(s: string, digits: nat, value: nat): nat
    decreases |s|
  {
    if digits == 0 then value
    else if s == "" then 0
    else if s[0] == ':' then HexPrefix(s[1..], digits, value)
    else match HexDigit(s[0])
      case Some(d) => HexPrefix(s[1..], digits - 1, 16 * value + d)
      case None => 0
  }

  /** extAddressFromUniqueId; 0 when the string is no unique id. */
  function ExtAddress(uniqueId: string): nat
  {
    if |uniqueId| < 23 then 0 else HexPrefix(uniqueId, 16, 0)
  }

  // ----- The table as a value -----

  function ArmMask(flags: bv32): string
  {
    (if flags & ARMED_AWAY != 0 then "A" else "")
    + (if flags & ARMED_STAY != 0 then "S" else "")
    + (if flags & ARMED_NIGHT != 0 then "N" else "")
  }

  /** The letters of the mask say in which modes the device takes part. */
  lemma ArmMaskLaw(flags: bv32)
    ensures ('A' in ArmMask(flags) <==> flags & 0x0100 != 0) && ('S' in ArmMask(flags) <==> flags & 0x0200 != 0)
      && ('N' in ArmMask(flags) <==> flags & 0x0400 != 0) && |ArmMask(flags)| <= 3
  {
  }

  /** getIterator: the first entry with the address, or the length. */
  function Find(table: seq<Entry>, extAddress: nat): (i: nat)
    ensures i <= |table|
    ensures i < |table| ==> table[i].extAddress == extAddress
    ensures forall k :: 0 <= k < i ==> table[k].extAddress != extAddress
  {
    if table == [] || table[0].extAddress == extAddress then 0 else 1 + Find(table[1..], extAddress)
  }

  function Get(table: seq<Entry>, extAddress: nat): Entry
  {
    var i := Find(table, extAddress);
    if i < |table| then table[i] else NO_ENTRY
  }

  datatype Store = Store(table: seq<Entry>, rows: map<string, Row>)

  function WriteRow(rows: map<string, Row>, e: Entry, dbOk: bool): map<string, Row>
  {
    if dbOk && e.uniqueId != "" then rows[e.uniqueId := Row(e.alarmSystemId, e.flags)] else rows
  }

  function NewEntry(uniqueId: string, flags: bv32, id: bv8): Entry
  {
    Entry(uniqueId, ExtAddress(uniqueId), flags, id, ArmMask(flags))
  }

  /** put; `dbOk` says whether the database accepts the row. */
  function Put(s: Store, uniqueId: string, flags: bv32, id: bv8, dbOk: bool): (Store, bool)
  {
    var ext := ExtAddress(uniqueId);
    if ext == 0 then (s, false) else
    var i := Find(s.table, ext);
    if i < |s.table| then
      if s.table[i].flags == flags && s.table[i].alarmSystemId == id then (s, true) else
      var e := s.table[i].(flags := flags, alarmSystemId := id, armMask := ArmMask(flags));
      (Store(s.table[i := e], WriteRow(s.rows, e, dbOk)), true)
    else if |uniqueId| > MAX_UNIQUEID_LENGTH then (s, false)
    else
      var e := NewEntry(uniqueId, flags, id);
      (Store(s.table + [e], WriteRow(s.rows, e, dbOk)), true)
  }

  function Erase(s: Store, uniqueId: string, dbOk: bool): (Store, bool)
  {
    var i := Find(s.table, ExtAddress(uniqueId));
    if i < |s.table| && dbOk && s.table[i].uniqueId != "" then
      (Store(SwapRemove(s.table, i), s.rows - {s.table[i].uniqueId}), true)
    else (s, false)
  }

  /** The database callback passes the row on. */
  predicate Usable(rows: map<string, Row>, uid: string)
    requires uid in rows
  {
    uid != "" && rows[uid].alarmSystemId != 0
  }

  /** DB_LoadAlarmSystemDevices for one order in which the database returns its rows. */
  function Load(order: seq<string>, rows: map<string, Row>): seq<Entry>
    requires forall k :: k in order ==> k in rows
  {
    if order == [] then []
    else
      var rest := Load(order[..|order| - 1], rows);
      var uid := order[|order| - 1];
      if Usable(rows, uid) && |uid| <= MAX_UNIQUEID_LENGTH
      then rest + [NewEntry(uid, rows[uid].flags, rows[uid].alarmSystemId)]
      else rest
  }

  // ----- The class -----

  class DeviceTable {
    var m_table: seq<Entry>
    var rows: map<string, Row>    // the rows the database holds

    ghost function View(): Store
      reads this
    {
      Store(m_table, rows)
    }

    constructor ()
      ensures View() == Store([], map[])
    {
      m_table, rows := [], map[];
    }

    method GetIterator(extAddress: nat) returns (i: nat)
      ensures i == Find(m_table, extAddress)
    {
      i := 0;
      while i < |m_table| && m_table[i].extAddress != extAddress
        invariant i <= |m_table|
        invariant forall k :: 0 <= k < i ==> m_table[k].extAddress != extAddress
      {
        i := i + 1;
      }
    }

    method GetEntry(extAddress: nat) returns (e: Entry)
      ensures e == Get(m_table, extAddress)
    {
      var i := GetIterator(extAddress);
      e := if i < |m_table| then m_table[i] else NO_ENTRY;
    }

    method StoreDeviceEntry(e: Entry, dbOk: bool)
      modifies this`rows
      ensures rows == WriteRow(old(rows), e, dbOk)
    {
      if e.uniqueId != "" && dbOk {
        rows := rows[e.uniqueId := Row(e.alarmSystemId, e.flags)];
      }
    }

    method PutEntry(uniqueId: string, flags: bv32, id: bv8, dbOk: bool) returns (ok: bool)
      modifies this
      ensures (View(), ok) == Put(old(View()), uniqueId, flags, id, dbOk)
    {
      var extAddress := ExtAddress(uniqueId);
      if extAddress == 0 {
        return false;
      }
      var i := GetIterator(extAddress);
      if i < |m_table| {
        if m_table[i].flags != flags || m_table[i].alarmSystemId != id {
          var e := m_table[i].(flags := flags, alarmSystemId := id, armMask := ArmMask(flags));
          m_table := m_table[i := e];
          StoreDeviceEntry(e, dbOk);
        }
        return true;
      }
      m_table := m_table + [NO_ENTRY];
      if |uniqueId| > MAX_UNIQUEID_LENGTH {
        m_table := m_table[..|m_table| - 1];
        return false;
      }
      var e := NewEntry(uniqueId, flags, id);
      m_table := m_table[|m_table| - 1 := e];
      StoreDeviceEntry(e, dbOk);
      assert m_table == old(m_table) + [e];
      return true;
    }

    method EraseEntry(uniqueId: string, dbOk: bool) returns (ok: bool)
      modifies this
      ensures (View(), ok) == Erase(old(View()), uniqueId, dbOk)
    {
      var i := GetIterator(ExtAddress(uniqueId));
      if i < |m_table| && dbOk && m_table[i].uniqueId != "" {
        rows := rows - {m_table[i].uniqueId};
        m_table := m_table[i := m_table[|m_table| - 1]];
        m_table := m_table[..|m_table| - 1];
        return true;
      }
      return false;
    }

    /** The rows arrive in the order `order`; when none of them is usable the table is left alone. */
    method LoadDevices(order: seq<string>)
      requires forall k :: k in order ==> k in rows
      modifies this`m_table
      ensures m_table == if exists k :: k in order && Usable(rows, k) then Load(order, rows) else old(m_table)
    {
      var table: seq<Entry> := [];
      var empty := true;
      for i := 0 to |order|
        invariant table == Load(order[..i], rows)
        invariant empty <==> forall k :: k in order[..i] ==> !Usable(rows, k)
      {
        assert order[..i + 1][..i] == order[..i];
        assert order[..i + 1] == order[..i] + [order[i]];
        var uid := order[i];
        if Usable(rows, uid) {
          empty := false;
          if |uid| <= MAX_UNIQUEID_LENGTH {
            table := table + [NewEntry(uid, rows[uid].flags, rows[uid].alarmSystemId)];
          }
        }
      }
      assert order[..|order|] == order;
      if !empty {
        m_table := table;
      }
    }
  }

  // ----- Properties -----

  /** Addresses are distinct, and every entry is what its unique id and flags determine. */
  ghost predicate TableInv(table: seq<Entry>)
  {
    && (forall i, j :: 0 <= i < j < |table| ==> table[i].extAddress != table[j].extAddress)
    && (forall i :: 0 <= i < |table| ==> EntryInv(table[i]))
  }

  ghost predicate EntryInv(e: Entry)
  {
    e.extAddress != 0 && e == NewEntry(e.uniqueId, e.flags, e.alarmSystemId) && |e.uniqueId| <= MAX_UNIQUEID_LENGTH
  }

  lemma FindUnique(table: seq<Entry>, i: nat)
    requires TableInv(table) && i < |table|
    ensures Find(table, table[i].extAddress) == i
  {
  }

  /** An operation of the table, and of the map from addresses to entries it stands for. */
  datatype Op = OpPut(uniqueId: string, flags: bv32, id: bv8) | OpErase(uniqueId: string)

  function Apply(s: Store, op: Op, dbOk: bool): Store
  {
    match op
    case OpPut(u, f, id) => Put(s, u, f, id, dbOk).0
    case OpErase(u) => Erase(s, u, dbOk).0
  }

  /** The map semantics: an existing device keeps the unique id it was added with. */
  function ApplyMap(m: map<nat, Entry>, op: Op): map<nat, Entry>
  {
    var ext := ExtAddress(op.uniqueId);
    match op
    case OpPut(u, f, id) =>
      if ext == 0 then m
      else if ext in m then m[ext := NewEntry(m[ext].uniqueId, f, id)]
      else if |u| <= MAX_UNIQUEID_LENGTH then m[ext := NewEntry(u, f, id)]
      else m
    case OpErase(_) => m - {ext}
  }

  /** The table holds exactly the entries of the map. */
  ghost predicate Represents(table: seq<Entry>, m: map<nat, Entry>)
  {
    forall a :: Get(table, a) == if a in m then m[a] else NO_ENTRY
  }

  lemma GetAfterUpdate(table: seq<Entry>, i: nat, e: Entry, a: nat)
    requires TableInv(table) && i < |table| && e.extAddress == table[i].extAddress && EntryInv(e)
    ensures TableInv(table[i := e])
    ensures Get(table[i := e], a) == if a == e.extAddress then e else Get(table, a)
  {
    var t := table[i := e];
    var k, k' := Find(table, a), Find(t, a);
    if k < |table| { FindUnique(t, k); }
    if k' < |t| { FindUnique(table, k'); }
  }

  lemma GetAfterAppend(table: seq<Entry>, e: Entry, a: nat)
    requires TableInv(table) && EntryInv(e) && Find(table, e.extAddress) == |table|
    ensures TableInv(table + [e])
    ensures Get(table + [e], a) == if a == e.extAddress then e else Get(table, a)
  {
    hide NewEntry;
    var t := table + [e];
    var k, k' := Find(table, a), Find(t, a);
    assert t[|table|] == e;
    if k < |table| { assert t[k] == table[k]; FindUnique(t, k); }
    if k' < |table| { FindUnique(table, k'); }
    if a == e.extAddress { FindUnique(t, |table|); }
  }

  lemma GetAfterSwapRemove(table: seq<Entry>, i: nat, a: nat)
    requires TableInv(table) && i < |table|
    ensures TableInv(SwapRemove(table, i))
    ensures Get(SwapRemove(table, i), a) == if a == table[i].extAddress then NO_ENTRY else Get(table, a)
  {
    var t := SwapRemove(table, i);
    var n := |table| - 1;
    var k, k' := Find(table, a), Find(t, a);
    if k < |table| && k != i {
      FindUnique(t, if k == n then i else k);
    }
    if k' < n {
      FindUnique(table, if k' == i then n else k');
    }
  }

  /** The map's entries are well formed. */
  ghost predicate MapInv(m: map<nat, Entry>)
  {
    forall a :: a in m ==> EntryInv(m[a]) && m[a].extAddress == a
  }

  /** put changes the look-up of its own address only, if any. */
  lemma PutLooksUp(s: Store, u: string, f: bv32, id: bv8, a: nat)
    requires TableInv(s.table)
    ensures var r := Put(s, u, f, id, true).0.table; var ext := ExtAddress(u); var known := Get(s.table, ext);
      && TableInv(r)
      && Get(r, a) == if a != ext || ext == 0 then Get(s.table, a)
                      else if Find(s.table, ext) < |s.table| then NewEntry(known.uniqueId, f, id)
                      else if |u| <= MAX_UNIQUEID_LENGTH then NewEntry(u, f, id) else NO_ENTRY
  {
    var ext := ExtAddress(u);
    var i := Find(s.table, ext);
    if ext != 0 && i < |s.table| {
      assert EntryInv(s.table[i]);
      GetAfterUpdate(s.table, i, NewEntry(s.table[i].uniqueId, f, id), a);
    } else if ext != 0 && |u| <= MAX_UNIQUEID_LENGTH {
      GetAfterAppend(s.table, NewEntry(u, f, id), a);
    }
  }

  /** What a look-up says after put, field by field; a device that is known keeps its unique id. */
  lemma PutLaw(s: Store, u: string, f: bv32, id: bv8)
    requires TableInv(s.table) && ExtAddress(u) != 0 && |u| <= 31
    ensures var a := ExtAddress(u); var e := Get(Put(s, u, f, id, true).0.table, a);
      && e.extAddress == a && e.flags == f && e.alarmSystemId == id && e.armMask == ArmMask(f)
      && var known := exists k :: 0 <= k < |s.table| && s.table[k].extAddress == a;
         e.uniqueId == if known then Get(s.table, a).uniqueId else u
  {
    PutLooksUp(s, u, f, id, ExtAddress(u));
    var i := Find(s.table, ExtAddress(u));
    if i < |s.table| {
      assert EntryInv(s.table[i]);
    }
  }

  lemma PutKeepsMap(m: map<nat, Entry>, u: string, f: bv32, id: bv8)
    requires MapInv(m)
    ensures MapInv(ApplyMap(m, OpPut(u, f, id)))
  {
    var ext := ExtAddress(u);
    if ext in m {
      assert EntryInv(m[ext]);
    }
  }

  lemma PutRefinesMap(s: Store, m: map<nat, Entry>, u: string, f: bv32, id: bv8)
    requires TableInv(s.table) && Represents(s.table, m) && MapInv(m)
    ensures var r := Put(s, u, f, id, true).0.table; var m' := ApplyMap(m, OpPut(u, f, id));
      TableInv(r) && Represents(r, m') && MapInv(m')
  {
    var ext := ExtAddress(u);
    var r, m' := Put(s, u, f, id, true).0.table, ApplyMap(m, OpPut(u, f, id));
    PutKeepsMap(m, u, f, id);
    assert Get(s.table, ext) == if ext in m then m[ext] else NO_ENTRY;
    assert ext in m ==> m[ext] != NO_ENTRY;
    hide NewEntry, Put, TableInv, MapInv, ExtAddress;
    forall a
      ensures TableInv(r) && Get(r, a) == if a in m' then m'[a] else NO_ENTRY
    {
      PutLooksUp(s, u, f, id, a);
    }
  }

  lemma EraseRefinesMap(s: Store, m: map<nat, Entry>, u: string)
    requires TableInv(s.table) && Represents(s.table, m) && MapInv(m)
    ensures var r := Erase(s, u, true).0.table; var m' := ApplyMap(m, OpErase(u));
      TableInv(r) && Represents(r, m') && MapInv(m')
  {
    var ext := ExtAddress(u);
    var i := Find(s.table, ext);
    var r, m' := Erase(s, u, true).0.table, ApplyMap(m, OpErase(u));
    assert Get(s.table, ext) == if ext in m then m[ext] else NO_ENTRY;
    forall a
      ensures TableInv(r) && Get(r, a) == if a in m' then m'[a] else NO_ENTRY
    {
      if i < |s.table| { GetAfterSwapRemove(s.table, i, a); }
    }
  }

  // ----- Whole histories of the table -----

  function RunStore(ops: seq<Op>): Store
  {
    if ops == [] then Store([], map[]) else Apply(RunStore(ops[..|ops| - 1]), ops[|ops| - 1], true)
  }

  function RunMap(ops: seq<Op>): map<nat, Entry>
  {
    if ops == [] then map[] else ApplyMap(RunMap(ops[..|ops| - 1]), ops[|ops| - 1])
  }

  /** The database rows are the table's entries. */
  ghost predicate Mirrored(s: Store)
  {
    && (forall e :: e in s.table ==> e.uniqueId in s.rows && s.rows[e.uniqueId] == Row(e.alarmSystemId, e.flags))
    && (forall uid :: uid in s.rows ==> exists e :: e in s.table && e.uniqueId == uid)
  }

  lemma PutMirrors(s: Store, u: string, f: bv32, id: bv8)
    requires TableInv(s.table) && Mirrored(s)
    ensures Mirrored(Put(s, u, f, id, true).0)
  {
    var r := Put(s, u, f, id, true).0;
    var i := Find(s.table, ExtAddress(u));
    if r != s && i < |s.table| {
      UpdateMirrors(s, i, s.table[i].(flags := f, alarmSystemId := id, armMask := ArmMask(f)));
    } else if r != s {
      AppendMirrors(s, NewEntry(u, f, id));
    }
  }

  lemma UpdateMirrors(s: Store, i: nat, x: Entry)
    requires TableInv(s.table) && Mirrored(s) && i < |s.table| && x.uniqueId == s.table[i].uniqueId
    ensures Mirrored(Store(s.table[i := x], s.rows[x.uniqueId := Row(x.alarmSystemId, x.flags)]))
  {
    var r := Store(s.table[i := x], s.rows[x.uniqueId := Row(x.alarmSystemId, x.flags)]);
    forall e | e in r.table
      ensures e.uniqueId in r.rows && r.rows[e.uniqueId] == Row(e.alarmSystemId, e.flags)
    {
      UpdatedEntryHasRow(s, i, x, e);
    }
    forall uid | uid in r.rows
      ensures exists e :: e in r.table && e.uniqueId == uid
    {
      UpdatedRowHasEntry(s, i, x, uid);
    }
  }

  lemma UpdatedEntryHasRow(s: Store, i: nat, x: Entry, e: Entry)
    requires TableInv(s.table) && Mirrored(s) && i < |s.table| && x.uniqueId == s.table[i].uniqueId
    requires e in s.table[i := x]
    ensures var rows := s.rows[x.uniqueId := Row(x.alarmSystemId, x.flags)];
      e.uniqueId in rows && rows[e.uniqueId] == Row(e.alarmSystemId, e.flags)
  {
    var k :| 0 <= k < |s.table| && s.table[i := x][k] == e;
    if k != i {
      assert s.table[k] in s.table;
      DistinctIds(s.table, i, k);
    }
  }

  lemma DistinctIds(table: seq<Entry>, i: nat, k: nat)
    requires TableInv(table) && i < |table| && k < |table| && i != k
    ensures table[i].uniqueId != table[k].uniqueId
  {
    hide ExtAddress, ArmMask;
    assert EntryInv(table[i]) && EntryInv(table[k]);
  }

  lemma UpdatedRowHasEntry(s: Store, i: nat, x: Entry, uid: string)
    requires Mirrored(s) && i < |s.table| && x.uniqueId == s.table[i].uniqueId
    requires uid in s.rows || uid == x.uniqueId
    ensures exists e :: e in s.table[i := x] && e.uniqueId == uid
  {
    assert s.table[i] in s.table;
    var e :| e in s.table && e.uniqueId == uid;
    var k :| 0 <= k < |s.table| && s.table[k] == e;
    assert s.table[i := x][k].uniqueId == uid && s.table[i := x][k] in s.table[i := x];
  }

  lemma AppendMirrors(s: Store, x: Entry)
    requires TableInv(s.table) && Mirrored(s) && Find(s.table, ExtAddress(x.uniqueId)) == |s.table|
    ensures Mirrored(Store(s.table + [x], s.rows[x.uniqueId := Row(x.alarmSystemId, x.flags)]))
  {
    var r := Store(s.table + [x], s.rows[x.uniqueId := Row(x.alarmSystemId, x.flags)]);
    assert x in r.table;
    assert forall e :: e in r.table <==> e in s.table || e == x;
    forall e | e in s.table
      ensures e.uniqueId != x.uniqueId
    {
      var k :| 0 <= k < |s.table| && s.table[k] == e;
    }
  }

  /** What is left after a swap-remove are the other entries. */
  lemma SwapRemoveEntries(table: seq<Entry>, i: nat)
    requires TableInv(table) && i < |table|
    ensures forall e :: e in SwapRemove(table, i) <==> e in table && e.uniqueId != table[i].uniqueId
  {
    var t, n := SwapRemove(table, i), |table| - 1;
    assert EntryInv(table[i]);
    forall k | 0 <= k < |table| && k != i
      ensures table[k] in t && table[k].uniqueId != table[i].uniqueId
    {
      assert table[k].extAddress != table[i].extAddress && EntryInv(table[k]);
      assert t[if k == n then i else k] == table[k];
    }
    forall e | e in t
      ensures e in table && e.uniqueId != table[i].uniqueId
    {
      var k :| 0 <= k < n && t[k] == e;
      assert e == table[if k == i then n else k];
    }
  }

  lemma EraseMirrors(s: Store, u: string)
    requires TableInv(s.table) && Mirrored(s)
    ensures Mirrored(Erase(s, u, true).0)
  {
    var r := Erase(s, u, true).0;
    if r != s {
      SwapRemoveEntries(s.table, Find(s.table, ExtAddress(u)));
    }
  }

  /** Main result: after any sequence of put and erase with a working database, addresses are distinct,
      the vector answers every lookup like the map, and the database rows are exactly its entries. */
  lemma {:induction false} TableRefinesMap(ops: seq<Op>)
    ensures var s := RunStore(ops);
      && TableInv(s.table) && Represents(s.table, RunMap(ops)) && Mirrored(s)
      && MapInv(RunMap(ops))
  {
    if ops != [] {
      var last := ops[|ops| - 1];
      TableRefinesMap(ops[..|ops| - 1]);
      var s, m := RunStore(ops[..|ops| - 1]), RunMap(ops[..|ops| - 1]);
      match last
      case OpPut(u, f, id) =>
        PutRefinesMap(s, m, u, f, id);
        PutMirrors(s, u, f, id);
      case OpErase(u) =>
        EraseRefinesMap(s, m, u);
        EraseMirrors(s, u);
    }
  }

  // ----- Reloading -----

  /** The database returns every row once. */
  ghost predicate Enumerates(order: seq<string>, rows: map<string, Row>)
  {
    && (forall k :: k in order <==> k in rows)
    && (forall i, j :: 0 <= i < j < |order| ==> order[i] != order[j])
  }

  lemma {:induction false} LoadedEntries(order: seq<string>, rows: map<string, Row>)
    requires forall k :: k in order ==> k in rows && k != "" && |k| <= MAX_UNIQUEID_LENGTH
    ensures forall e :: e in Load(order, rows) <==>
      e.uniqueId in order && rows[e.uniqueId].alarmSystemId != 0
      && e == NewEntry(e.uniqueId, rows[e.uniqueId].flags, rows[e.uniqueId].alarmSystemId)
    ensures (forall i, j :: 0 <= i < j < |order| ==> order[i] != order[j]) ==>
      forall i, j :: 0 <= i < j < |Load(order, rows)| ==> Load(order, rows)[i].uniqueId != Load(order, rows)[j].uniqueId
  {
    if order != [] {
      var front, last := order[..|order| - 1], order[|order| - 1];
      LoadedEntries(front, rows);
      assert order == front + [last];
      var t := Load(front, rows);
      assert forall i :: 0 <= i < |t| ==> t[i] in t;
    }
  }

  /** Tables with the same entries answer every lookup alike. */
  lemma SameEntriesSameLookups(t: seq<Entry>, r: seq<Entry>, a: nat)
    requires TableInv(t) && TableInv(r) && forall e :: e in t <==> e in r
    ensures Get(t, a) == Get(r, a)
  {
    var i, j := Find(t, a), Find(r, a);
    if i < |t| {
      assert t[i] in r;
      var k :| 0 <= k < |r| && r[k] == t[i];
      FindUnique(r, k);
    }
    if j < |r| {
      assert r[j] in t;
    }
  }

  /** A row of the database is that of an entry. */
  lemma RowOfEntry(s: Store, uid: string)
    requires TableInv(s.table) && Mirrored(s) && uid in s.rows
    ensures uid != "" && |uid| <= MAX_UNIQUEID_LENGTH
    ensures NewEntry(uid, s.rows[uid].flags, s.rows[uid].alarmSystemId) in s.table
  {
    var e :| e in s.table && e.uniqueId == uid;
    var i :| 0 <= i < |s.table| && s.table[i] == e;
    assert EntryInv(s.table[i]);
  }

  /** What is loaded: the entries that belong to an alarm system. */
  lemma LoadedAreUsable(s: Store, order: seq<string>)
    requires TableInv(s.table) && Mirrored(s) && Enumerates(order, s.rows)
    ensures forall e :: e in Load(order, s.rows) <==> e in s.table && e.alarmSystemId != 0
    ensures TableInv(Load(order, s.rows))
  {
    var loaded := Load(order, s.rows);
    forall k | k in order
      ensures k in s.rows && k != "" && |k| <= MAX_UNIQUEID_LENGTH
      ensures NewEntry(k, s.rows[k].flags, s.rows[k].alarmSystemId) in s.table
    {
      RowOfEntry(s, k);
    }
    LoadedEntries(order, s.rows);
    forall e | e in s.table
      ensures e == NewEntry(e.uniqueId, s.rows[e.uniqueId].flags, s.rows[e.uniqueId].alarmSystemId)
    {
      var i :| 0 <= i < |s.table| && s.table[i] == e;
      assert EntryInv(s.table[i]);
    }
    hide NewEntry, Load;
    LoadedTableInv(s, loaded);
  }

  /** Reloading gives back the same map exactly when every device belongs to an alarm system (id >= 1):
      put accepts id 0, but such a row is not loaded again. */
  lemma ReloadExact(s: Store, order: seq<string>)
    requires TableInv(s.table) && Mirrored(s) && Enumerates(order, s.rows)
    ensures (forall a :: Get(Load(order, s.rows), a) == Get(s.table, a)) <==> forall e :: e in s.table ==>
        e.alarmSystemId != 0
  {
    var loaded := Load(order, s.rows);
    LoadedAreUsable(s, order);
    hide TableInv, Mirrored, Enumerates, Load, Get;
    if forall e :: e in s.table ==> e.alarmSystemId != 0 {
      forall a
        ensures Get(loaded, a) == Get(s.table, a)
      {
        SameEntriesSameLookups(loaded, s.table, a);
      }
    } else {
      var e :| e in s.table && e.alarmSystemId == 0;
      UnusableIsNotFound(s.table, loaded, e);
    }
  }

  lemma UnusableIsNotFound(table: seq<Entry>, loaded: seq<Entry>, e: Entry)
    requires TableInv(table) && e in table && e !in loaded
    ensures Get(loaded, e.extAddress) != Get(table, e.extAddress)
  {
    var i :| 0 <= i < |table| && table[i] == e;
    FindUnique(table, i);
    assert EntryInv(table[i]);
    assert Get(loaded, e.extAddress) != e;
  }

  lemma LoadedTableInv(s: Store, loaded: seq<Entry>)
    requires TableInv(s.table) && forall e :: e in loaded ==> e in s.table
    requires forall i, j :: 0 <= i < j < |loaded| ==> loaded[i].uniqueId != loaded[j].uniqueId
    ensures TableInv(loaded)
  {
    forall i, j | 0 <= i < j < |loaded|
      ensures loaded[i].extAddress != loaded[j].extAddress
    {
      assert loaded[i] in loaded && loaded[j] in loaded;
      var a :| 0 <= a < |s.table| && s.table[a] == loaded[i];
      var b :| 0 <= b < |s.table| && s.table[b] == loaded[j];
    }
    forall i | 0 <= i < |loaded|
      ensures EntryInv(loaded[i])
    {
      assert loaded[i] in loaded;
      var a :| 0 <= a < |s.table| && s.table[a] == loaded[i];
      assert EntryInv(s.table[a]);
    }
  }
}
