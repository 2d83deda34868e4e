/** The searches for an unused light and sensor id (database.cpp). */
module FreeIds {
  import opened Basics

  // ----- Looking through a vector -----

  /** std::find */
  method Contains(v: seq<int>, x: int) returns (found: bool)
    ensures found <==> x in v
  {
    for i := 0 to |v|
      invariant x !in v[..i]
    {
      if v[i] == x {
        return true;
      }
    }
    found := false;
  }

  /** An element with every copy taken out. */
  function Without(v: seq<int>, x: int): (w: seq<int>)
    ensures |w| <= |v| && (x in v ==> |w| < |v|)
    ensures forall y :: y in w <==> y in v && y != x
  {
    if v == [] then []
    else if v[0] == x then Without(v[1..], x)
    else [v[0]] + Without(v[1..], x)
  }

  /** A vector that contains the numbers from 1 to n has at least n elements. */
  lemma {:induction false} HoldsAtLeast(v: seq<int>, n: nat)
    requires forall k :: 1 <= k <= n ==> k in v
    ensures n <= |v|
    decreases n
  {
    if n > 0 {
      HoldsAtLeast(Without(v, n), n - 1);
    }
  }

  // ----- Lights -----

  /** getFreeLightId: the ids of the nodes at run time, those of the database that are numbers, and a zero
      for each node, which the vector starts with. */
  method GetFreeLightId(dbIsOpen: bool, nodes: seq<int>, rows: seq<Option<int>>) returns (id: int)
    ensures !dbIsOpen ==> id == 1
    ensures dbIsOpen ==> id !in nodes && Some(id) !in rows
    ensures dbIsOpen ==> forall k :: 1 <= k < id ==> k in nodes || Some(k) in rows
    ensures 1 <= id <= 2 * |nodes| + |rows| + 1
  {
    if !dbIsOpen {
      return 1;
    }
    var lightIds := seq(|nodes|, k => 0);
    lightIds := lightIds + nodes;
    var start := lightIds;
    for i := 0 to |rows|
      invariant |lightIds| <= |start| + i
      invariant forall x :: x in lightIds <==> x in start || Some(x) in rows[..i]
    {
      if rows[i].Some? {
        lightIds := lightIds + [rows[i].value];
      }
    }
    assert rows[..|rows|] == rows;
    id := 1;
    var known := Contains(lightIds, id);
    while known
      invariant 1 <= id <= |lightIds| + 1
      invariant forall k :: 1 <= k < id ==> k in lightIds
      invariant known <==> id in lightIds
      decreases |lightIds| + 1 - id
    {
      HoldsAtLeast(lightIds, id);
      id := id + 1;
      if id == |lightIds| + 1 && id in lightIds {
        HoldsAtLeast(lightIds, id);
      }
      known := Contains(lightIds, id);
    }
  }

  // ----- Sensors -----

  /** A rule condition: the resource it names, and its id as a number. */
  datatype Condition = Condition(isSensor: bool, id: Option<int>)

  ghost predicate NamedBy(rules: seq<seq<Condition>>, x: int)
  {
    exists r :: r in rules && NamedIn(r, x)
  }

  ghost predicate NamedIn(r: seq<Condition>, x: int)
  {
    Condition(true, Some(x)) in r
  }

  /** The ids nobody may get again: those at run time, those rules still name, and those in the database. */
  ghost predicate Known(sensors: seq<int>, rules: seq<seq<Condition>>, rows: seq<Option<int>>, x: int)
  {
    x in sensors || NamedBy(rules, x) || Some(x) in rows
  }

  /** All known ids, each of those not at run time once. */
  method CollectSensorIds(sensors: seq<int>, rules: seq<seq<Condition>>, rows: seq<Option<int>>)
    returns (ids: seq<int>)
    ensures forall x :: x in ids <==> Known(sensors, rules, rows, x)
  {
    ids := sensors;
    for i := 0 to |rules|
      invariant forall x :: x in ids <==> x in sensors || NamedBy(rules[..i], x)
    {
      var before := ids;
      for j := 0 to |rules[i]|
        invariant forall x :: x in ids <==> x in before || NamedIn(rules[i][..j], x)
      {
        var c := rules[i][j];
        if c.isSensor && c.id.Some? {
          var found := Contains(ids, c.id.value);
          if !found {
            ids := ids + [c.id.value];
          }
        }
        assert rules[i][..j + 1] == rules[i][..j] + [c];
      }
      assert rules[i][..|rules[i]|] == rules[i];
      assert rules[..i + 1] == rules[..i] + [rules[i]];
      forall x
        ensures NamedBy(rules[..i + 1], x) <==> NamedBy(rules[..i], x) || NamedIn(rules[i], x)
      {
        NamedByLast(rules[..i], rules[i], x);
      }
    }
    assert rules[..|rules|] == rules;
    for i := 0 to |rows|
      invariant forall x :: x in ids <==> x in sensors || NamedBy(rules, x) || Some(x) in rows[..i]
    {
      if rows[i].Some? {
        var found := Contains(ids, rows[i].value);
        if !found {
          ids := ids + [rows[i].value];
        }
      }
      assert rows[..i + 1] == rows[..i] + [rows[i]];
    }
    assert rows[..|rows|] == rows;
  }

  lemma NamedByLast(rules: seq<seq<Condition>>, r: seq<Condition>, x: int)
    ensures NamedBy(rules + [r], x) <==> NamedBy(rules, x) || NamedIn(r, x)
  {
    if NamedIn(r, x) {
      assert r in rules + [r];
    }
    if NamedBy(rules, x) {
      var q :| q in rules && NamedIn(q, x);
      assert q in rules + [r];
    }
  }

  ghost predicate Sorted(s: seq<int>)
  {
    forall i, j :: 0 <= i < j < |s| ==> s[i] <= s[j]
  }

  /** std::sort, by insertion. */
  method Sort(v: seq<int>) returns (s: seq<int>)
    ensures Sorted(s) && multiset(s) == multiset(v)
  {
    s := [];
    for i := 0 to |v|
      invariant Sorted(s) && multiset(s) == multiset(v[..i])
    {
      var k := 0;
      while k < |s| && s[k] <= v[i]
        invariant k <= |s| && forall j :: 0 <= j < k ==> s[j] <= v[i]
      {
        k := k + 1;
      }
      assert s == s[..k] + s[k..];
      assert v[..i + 1] == v[..i] + [v[i]];
      s := s[..k] + [v[i]] + s[k..];
    }
    assert v[..|v|] == v;
  }

  /** Where the search starts: at the greatest known id below 1000, or at 1 if there is none. */
  ghost predicate StartsAt(sensors: seq<int>, rules: seq<seq<Condition>>, rows: seq<Option<int>>, start: int)
  {
    && start < 1000
    && (forall x :: Known(sensors, rules, rows, x) && x < 1000 ==> Known(sensors, rules, rows, start) && x <= start)
    && (Known(sensors, rules, rows, start) || start == 1)
  }

  /** getFreeSensorId: the least unknown id from the start on, or 10000 if all below are known. Ids from
      1000 on do not push the result up. */
  method GetFreeSensorId(dbIsOpen: bool, sensors: seq<int>, rules: seq<seq<Condition>>, rows: seq<Option<int>>)
    returns (sid: int, ghost start: int)
    ensures !dbIsOpen ==> sid == 1
    ensures dbIsOpen ==> StartsAt(sensors, rules, rows, start) && start <= sid <= 10000
    ensures dbIsOpen ==> forall k :: start <= k < sid ==> Known(sensors, rules, rows, k)
    ensures dbIsOpen && sid < 10000 ==>
      && !Known(sensors, rules, rows, sid)
      && forall x :: Known(sensors, rules, rows, x) && x < 1000 ==> x < sid
  {
    start := 0;
    if !dbIsOpen {
      return 1, start;
    }
    var ids := CollectSensorIds(sensors, rules, rows);
    var sensorIds := Sort(ids);
    SameElements(sensorIds, ids);
    var i := |sensorIds|;
    while i > 0 && sensorIds[i - 1] >= 1000
      invariant 0 <= i <= |sensorIds|
      invariant forall j :: i <= j < |sensorIds| ==> sensorIds[j] >= 1000
    {
      i := i - 1;
    }
    sid := if i > 0 then sensorIds[i - 1] else 1;
    start := sid;
    assert forall x :: x in sensorIds && x < 1000 ==> i > 0 && x <= sid;
    while sid < 10000
      invariant start <= sid <= 10000 && start < 1000
      invariant forall k :: start <= k < sid ==> k in sensorIds
    {
      var known := Contains(sensorIds, sid);
      if !known {
        return;
      }
      sid := sid + 1;
    }
  }

  lemma SameElements(a: seq<int>, b: seq<int>)
    requires multiset(a) == multiset(b)
    ensures forall x :: x in a <==> x in b
  {
    forall x
      ensures x in a <==> x in b
    {
      assert x in a <==> x in multiset(a);
      assert x in b <==> x in multiset(b);
    }
  }
}
