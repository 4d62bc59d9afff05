/** The bounded in-flight tables both ends of the transport keep: entries in arrival order, each with the
    bytes of its frame. */
module Flow {
  import opened Bindings

  datatype Slot<+T> = Slot(id: nat, bytes: nat, entry: T)

  function Bytes<T>(table: seq<Slot<T>>): nat {
    if table == [] then 0 else table[0].bytes + Bytes(table[1..])
  }

  ghost predicate Has<T>(table: seq<Slot<T>>, id: nat) {
    exists i :: 0 <= i < |table| && table[i].id == id
  }

  ghost predicate Distinct<T>(table: seq<Slot<T>>) {
    forall i, j :: 0 <= i < j < |table| ==> table[i].id != table[j].id
  }

  function Find<T>(table: seq<Slot<T>>, id: nat): (r: Option<T>)
    ensures r.Some? <==> Has(table, id)
    ensures r.Some? ==> exists i :: 0 <= i < |table| && table[i].id == id && table[i].entry == r.value
  {
    if table == [] then None
    else if table[0].id == id then (assert table[0].id == id; Some(table[0].entry))
    else
      var r := Find(table[1..], id);
      assert r.Some? ==> exists i :: 0 <= i < |table[1..]| && table[1..][i].id == id && table[1..][i].entry == r.value;
      assert forall i :: 0 <= i < |table[1..]| ==> table[1..][i] == table[i + 1];
      assert Has(table, id) ==> Has(table[1..], id) by {
        if Has(table, id) {
          var i :| 0 <= i < |table| && table[i].id == id;
          assert table[1..][i - 1].id == id;
        }
      }
      r
  }

  function Without<T>(table: seq<Slot<T>>, id: nat): (r: seq<Slot<T>>)
    ensures |r| <= |table| && Bytes(r) <= Bytes(table)
    ensures forall i :: 0 <= i < |r| ==> r[i] in table && r[i].id != id
    ensures forall i :: 0 <= i < |table| && table[i].id != id ==> table[i] in r
  {
    if table == [] then []
    else
      assert forall i :: 0 < i < |table| ==> table[i] == table[1..][i - 1];
      if table[0].id == id then Without(table[1..], id)
      else [table[0]] + Without(table[1..], id)
  }

  lemma {:induction false} WithoutKeepsDistinct<T>(table: seq<Slot<T>>, id: nat)
    requires Distinct(table)
    ensures Distinct(Without(table, id)) && !Has(Without(table, id), id)
    ensures forall other :: Has(Without(table, id), other) <==> Has(table, other) && other != id
  {
    HasIn(table);
    HasIn(Without(table, id));
    if table == [] {
    } else {
      assert forall i :: 0 <= i < |table| - 1 ==> table[1..][i] == table[i + 1];
      WithoutKeepsDistinct(table[1..], id);
      var rest := Without(table[1..], id);
      forall i | 0 <= i < |rest| ensures rest[i].id != table[0].id {
        assert rest[i] in rest && rest[i] in table[1..];
      }
    }
  }

  lemma HasIn<T>(table: seq<Slot<T>>)
    ensures forall id :: Has(table, id) <==> exists slot :: slot in table && slot.id == id
  {
    forall id ensures Has(table, id) <==> exists slot :: slot in table && slot.id == id {
      if Has(table, id) {
        var i :| 0 <= i < |table| && table[i].id == id;
        assert table[i] in table;
      }
    }
  }

  lemma {:induction false} BytesSnoc<T>(table: seq<Slot<T>>, slot: Slot<T>)
    ensures Bytes(table + [slot]) == Bytes(table) + slot.bytes
  {
    if table == [] {
      assert table + [slot] == [slot];
    } else {
      assert (table + [slot])[1..] == table[1..] + [slot];
      BytesSnoc(table[1..], slot);
    }
  }

  /** The admission loop of both ends: add up the bytes in flight. */
  method TotalBytes<T>(table: seq<Slot<T>>) returns (total: nat)
    ensures total == Bytes(table)
  {
    total := 0;
    for i := 0 to |table|
      invariant total == Bytes(table[..i])
    {
      BytesSnoc(table[..i], table[i]);
      assert table[..i + 1] == table[..i] + [table[i]];
      total := total + table[i].bytes;
    }
    assert table[..|table|] == table;
  }

  predicate Fits<T>(table: seq<Slot<T>>, bytes: nat, maxCount: nat, maxBytes: nat) {
    |table| < maxCount && Bytes(table) + bytes <= maxBytes
  }

  /** A table within its limits stays within them and duplicate-free when a fitting fresh slot is added. */
  lemma AddKeepsLimits<T>(table: seq<Slot<T>>, slot: Slot<T>, maxCount: nat, maxBytes: nat)
    requires Distinct(table) && !Has(table, slot.id) && Fits(table, slot.bytes, maxCount, maxBytes)
    ensures Distinct(table + [slot]) && |table + [slot]| <= maxCount && Bytes(table + [slot]) <= maxBytes
    ensures forall id :: Has(table + [slot], id) <==> Has(table, id) || id == slot.id
  {
    BytesSnoc(table, slot);
    HasIn(table);
    HasIn(table + [slot]);
  }

  predicate Absent<T>(table: seq<Slot<T>>, id: nat) {
    forall i :: 0 <= i < |table| ==> table[i].id != id
  }

  lemma AbsentRest<T>(table: seq<Slot<T>>, id: nat)
    requires table != [] && Absent(table, id)
    ensures table[0].id != id && Absent(table[1..], id)
  {
  }

  lemma WithoutFirst<T>(table: seq<Slot<T>>, id: nat)
    requires table != []
    ensures Without(table, id) == (if table[0].id == id then [] else [table[0]]) + Without(table[1..], id)
  {
  }

  /** Removing an id keeps everything else, in its order. */
  lemma {:induction false} WithoutKeepsTheRest<T>(before: seq<Slot<T>>, slot: Slot<T>, after: seq<Slot<T>>)
    requires Absent(before, slot.id) && Absent(after, slot.id)
    ensures Without(before + [slot] + after, slot.id) == before + after
  {
    hide Absent, Without;
    var table := before + [slot] + after;
    WithoutFirst(table, slot.id);
    if before == [] {
      assert table[1..] == after && [] + after == after;
      WithoutNothing(after, slot.id);
    } else {
      AbsentRest(before, slot.id);
      assert table[1..] == before[1..] + [slot] + after && table[0] == before[0];
      WithoutKeepsTheRest(before[1..], slot, after);
      assert [before[0]] + (before[1..] + after) == before + after;
    }
  }

  lemma {:induction false} WithoutNothing<T>(table: seq<Slot<T>>, id: nat)
    requires Absent(table, id)
    ensures Without(table, id) == table
  {
    if table == [] {
    } else {
      AbsentRest(table, id);
      hide Absent;
      WithoutNothing(table[1..], id);
      assert table == [table[0]] + table[1..];
    }
  }
}
