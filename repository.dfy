/** The in-memory design store: a dictionary from design id to design.
    Python dictionaries remember insertion order, and `list_all` returns the
    values in that order, so the store keeps the key order next to the map.
    Assigning to a key that is already present keeps its position; `pop`
    removes the key and leaves the others in order. */
module Repository {
  import opened Schema
  import opened Seqs

  /** No element of s occurs twice. */
  ghost predicate Distinct(s: seq<string>) {
    forall i, j :: 0 <= i < j < |s| ==> s[i] != s[j]
  }

  /** The key order after `pop(id)`: id removed, the rest in order. */
  function Without(order: seq<string>, id: string): (r: seq<string>)
    ensures forall x :: x in r <==> x in order && x != id
  {
    Filter(order, x => x != id)
  }

  lemma {:induction false} WithoutDistinct(order: seq<string>, id: string)
    requires Distinct(order)
    ensures Distinct(Without(order, id))
  {
    if order != [] {
      var tail := order[1..];
      assert Distinct(tail) by {
        forall i, j | 0 <= i < j < |tail|
          ensures tail[i] != tail[j]
        {
          assert tail[i] == order[i + 1] && tail[j] == order[j + 1];
        }
      }
      WithoutDistinct(tail, id);
      assert order[0] !in tail by {
        forall i | 0 <= i < |tail|
          ensures tail[i] != order[0]
        {
          assert tail[i] == order[i + 1];
        }
      }
      var rest := Without(tail, id);
      assert order[0] !in rest;
      if order[0] != id {
        assert Without(order, id) == [order[0]] + rest;
      } else {
        assert Without(order, id) == rest;
      }
    }
  }

  /** A duplicate-free listing of a key set is exactly as long as the set is large. */
  lemma {:induction false} DistinctLength(s: seq<string>, keys: set<string>)
    requires Distinct(s)
    requires forall x :: x in s <==> x in keys
    ensures |s| == |keys|
  {
    if s != [] {
      var tail := s[1..];
      assert Distinct(tail) by {
        forall i, j | 0 <= i < j < |tail|
          ensures tail[i] != tail[j]
        {
          assert tail[i] == s[i + 1] && tail[j] == s[j + 1];
        }
      }
      forall x
        ensures x in tail <==> x in keys - {s[0]}
      {
        if x in tail {
          var i :| 0 <= i < |tail| && tail[i] == x;
          assert s[i + 1] == x;
        }
        if x in keys - {s[0]} {
          assert x in s;
          var i :| 0 <= i < |s| && s[i] == x;
          assert i != 0;
          assert tail[i - 1] == x;
        }
      }
      DistinctLength(tail, keys - {s[0]});
    } else {
      assert forall x :: x !in keys;
      assert keys == {};
    }
  }

  class DesignRepository {
    /** The dictionary from design id to design. */
    var designs: map<string, Design>
    /** The dictionary's keys in insertion order. */
    var order: seq<string>

    ghost predicate Valid()
      reads this
    {
      && Distinct(order)
      && (forall id :: id in designs <==> id in order)
      && (forall id :: id in designs ==> designs[id].id == id)
    }

    /** A new repository holds no design. */
    constructor()
      ensures Valid()
      ensures designs == map[] && order == []
      ensures forall id :: Get(id) == None
      ensures ListAll() == []
    {
      designs := map[];
      order := [];
    }

    /** Creates or replaces the design stored under the design's own id. */
    method Save(design: Design)
      requires Valid()
      modifies this
      ensures Valid()
      ensures designs == old(designs)[design.id := design]
      ensures order == if design.id in old(designs) then old(order) else old(order) + [design.id]
      ensures Get(design.id) == Some(design)
      ensures forall id :: id != design.id ==> Get(id) == old(Get(id))
    {
      if design.id !in designs {
        order := order + [design.id];
      }
      designs := designs[design.id := design];
    }

    /** The design stored under id, or None. */
    function Get(id: string): (r: Option<Design>)
      reads this
      ensures r.Some? <==> id in designs
      ensures r.Some? ==> r.value == designs[id]
    {
      if id in designs then Some(designs[id]) else None
    }

    /** Removes the design stored under id; an absent id changes nothing. */
    method Delete(id: string)
      requires Valid()
      modifies this
      ensures Valid()
      ensures designs == old(designs) - {id}
      ensures order == Without(old(order), id)
      ensures id !in old(designs) ==> designs == old(designs) && order == old(order)
      ensures Get(id) == None
      ensures forall other :: other != id ==> Get(other) == old(Get(other))
    {
      WithoutDistinct(order, id);
      if id !in designs {
        WithoutUnchanged(order, id);
      }
      designs := designs - {id};
      order := Without(order, id);
    }

    /** All stored designs in insertion order, each exactly once. */
    function ListAll(): (r: seq<Design>)
      requires Valid()
      reads this
      ensures |r| == |designs|
      ensures |r| == |order| && forall i :: 0 <= i < |r| ==> r[i] == designs[order[i]]
      ensures forall i :: 0 <= i < |r| ==> r[i].id in designs && r[i] == designs[r[i].id]
      ensures forall i, j :: 0 <= i < j < |r| ==> r[i].id != r[j].id
      ensures forall id :: id in designs ==> exists i :: 0 <= i < |r| && r[i].id == id
    {
      DistinctLength(order, designs.Keys);
      var keys, stored := order, designs;
      var r := seq(|keys|, i requires 0 <= i < |keys| => stored[keys[i]]);
      assert forall i :: 0 <= i < |r| ==> r[i].id == order[i];
      r
    }
  }

  /** Removing an id that is not listed leaves the listing as it was. */
  lemma {:induction false} WithoutUnchanged(order: seq<string>, id: string)
    requires id !in order
    ensures Without(order, id) == order
  {
    if order != [] {
      WithoutUnchanged(order[1..], id);
      assert order == [order[0]] + order[1..];
    }
  }
}
