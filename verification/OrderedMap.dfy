/** Maps from packet identifiers that remember insertion order: the `IndexMap`s of `src/client/session.rs`. */
module OrderedMap {
  import opened Packets

  datatype Entry<+V> = Entry(id: PacketId, value: V)

  function Ids<V>(m: seq<Entry<V>>): (ids: set<PacketId>)
    ensures forall i :: 0 <= i < |m| ==> m[i].id in ids
  {
    set i | 0 <= i < |m| :: m[i].id
  }

  ghost predicate Distinct<V>(m: seq<Entry<V>>) {
    forall i, j :: 0 <= i < j < |m| ==> m[i].id != m[j].id
  }

  /** The position of an identifier, or the length of the map. */
  function Find<V>(m: seq<Entry<V>>, id: PacketId): (i: nat)
    ensures i <= |m|
    ensures i < |m| ==> m[i].id == id
    ensures forall j :: 0 <= j < i ==> m[j].id != id
    ensures i < |m| <==> id in Ids(m)
  {
    if m == [] then 0
    else if m[0].id == id then 0
    else
      var i := Find(m[1..], id);
      assert forall j :: 0 < j < |m| ==> m[j] == m[1..][j - 1];
      1 + i
  }

  /** Replaces the value of a present identifier in place, and appends an absent one. */
  function Insert<V>(m: seq<Entry<V>>, id: PacketId, value: V): seq<Entry<V>> {
    var i := Find(m, id);
    if i < |m| then m[i := Entry(id, value)] else m + [Entry(id, value)]
  }

  /** Removes an identifier and keeps the order of the others. */
  function Remove<V>(m: seq<Entry<V>>, id: PacketId): seq<Entry<V>> {
    var i := Find(m, id);
    if i < |m| then m[..i] + m[i + 1..] else m
  }

  lemma InsertIds<V>(m: seq<Entry<V>>, id: PacketId, value: V)
    requires Distinct(m)
    ensures Distinct(Insert(m, id, value)) && Ids(Insert(m, id, value)) == Ids(m) + {id}
  {
    var n := Insert(m, id, value);
    forall x | x in Ids(m) + {id}
      ensures x in Ids(n)
    {
      if x != id {
        var i :| 0 <= i < |m| && m[i].id == x;
        assert n[i].id == x;
      } else {
        assert n[Find(m, id)].id == x;
      }
    }
  }

  lemma RemoveIds<V>(m: seq<Entry<V>>, id: PacketId)
    requires Distinct(m)
    ensures Distinct(Remove(m, id)) && Ids(Remove(m, id)) == Ids(m) - {id}
  {
    var i, n := Find(m, id), Remove(m, id);
    if i < |m| {
      assert forall j :: 0 <= j < |n| ==> n[j] == m[if j < i then j else j + 1];
      forall x | x in Ids(m) - {id}
        ensures x in Ids(n)
      {
        var j :| 0 <= j < |m| && m[j].id == x;
        assert n[if j < i then j else j - 1].id == x;
      }
    }
  }
}
