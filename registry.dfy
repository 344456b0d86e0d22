/**
 The server's `players` object: a dictionary from socket id to display name.

 A JavaScript object keeps its string keys in insertion order, and assigning to
 a key that is already present keeps that key where it was. `Object.keys` and
 everything built on it (the opponent search of the `exit` handler) depend on
 that order, so the registry is an ordered sequence of entries with distinct ids.
 */
module Registry {
  import opened Wrappers

  datatype Entry = Entry(id: string, name: string)

  /** The ids in registry order: what `Object.keys(players)` returns. */
  function Keys(es: seq<Entry>): (ks: seq<string>)
    ensures |ks| == |es|
    ensures forall i :: 0 <= i < |es| ==> ks[i] == es[i].id
  {
    if es == [] then [] else [es[0].id] + Keys(es[1..])
  }

  /** No id is registered twice (a property every JavaScript object has). */
  predicate DistinctKeys(es: seq<Entry>)
  {
    forall i, j :: 0 <= i < j < |es| ==> es[i].id != es[j].id
  }

  /** `players[id]`: the name registered for `id`, or `None` (undefined). */
  function Lookup(es: seq<Entry>, id: string): (r: Option<string>)
    ensures r.Some? <==> id in Keys(es)
    ensures r.Some? ==> Entry(id, r.value) in es
  {
    if es == [] then None
    else if es[0].id == id then Some(es[0].name)
    else Lookup(es[1..], id)
  }

  /**
   `players[id] = name`: an id already present keeps its position and gets the
   new name; a new id goes to the end.
   */
  function Put(es: seq<Entry>, id: string, name: string): (r: seq<Entry>)
    ensures Keys(r) == if id in Keys(es) then Keys(es) else Keys(es) + [id]
  {
    if es == [] then [Entry(id, name)]
    else if es[0].id == id then [Entry(id, name)] + es[1..]
    else [es[0]] + Put(es[1..], id, name)
  }

  /** `delete players[id]`: drops the entry for `id`, if there is one. */
  function Remove(es: seq<Entry>, id: string): (r: seq<Entry>)
    ensures forall k :: k in Keys(r) <==> k in Keys(es) && k != id
    ensures |r| <= |es|
  {
    if es == [] then []
    else if es[0].id == id then Remove(es[1..], id)
    else [es[0]] + Remove(es[1..], id)
  }

  /**
   `Object.keys(players).find(id => id !== sid)`: the earliest registered id
   other than `sid`, or `None` when every registered id is `sid`.
   */
  function FindOther(es: seq<Entry>, sid: string): (r: Option<string>)
    ensures r.None? <==> forall i :: 0 <= i < |es| ==> es[i].id == sid
    ensures r.Some? ==> r.value in Keys(es) && r.value != sid
    ensures forall i :: 0 <= i < |es| && es[i].id != sid && (forall j :: 0 <= j < i ==> es[j].id == sid) ==>
      r == Some(es[i].id)
  {
    if es == [] then None
    else if es[0].id != sid then Some(es[0].id)
    else
      var r := FindOther(es[1..], sid);
      assert forall i :: 1 <= i < |es| ==> es[i] == es[1..][i - 1];
      r
  }

  /** After `players[id] = name`, `players[id]` is `name`. */
  lemma {:induction false} LookupPutSame(es: seq<Entry>, id: string, name: string)
    ensures Lookup(Put(es, id, name), id) == Some(name)
  {
    if es != [] && es[0].id != id {
      LookupPutSame(es[1..], id, name);
    }
  }

  /** `players[id] = name` leaves every other id's name as it was. */
  lemma {:induction false} LookupPutOther(es: seq<Entry>, id: string, name: string, other: string)
    requires other != id
    ensures Lookup(Put(es, id, name), other) == Lookup(es, other)
  {
    if es != [] && es[0].id != id {
      LookupPutOther(es[1..], id, name, other);
    }
  }

  /** After `delete players[id]`, `players[id]` is undefined. */
  lemma LookupRemoveSame(es: seq<Entry>, id: string)
    ensures Lookup(Remove(es, id), id) == None
  {
  }

  /** `delete players[id]` leaves every other id's name as it was. */
  lemma {:induction false} LookupRemoveOther(es: seq<Entry>, id: string, other: string)
    requires other != id
    ensures Lookup(Remove(es, id), other) == Lookup(es, other)
  {
    if es != [] {
      LookupRemoveOther(es[1..], id, other);
    }
  }

  /** Deleting an id that was never registered is a no-op. */
  lemma {:induction false} RemoveAbsent(es: seq<Entry>, id: string)
    requires id !in Keys(es)
    ensures Remove(es, id) == es
  {
    if es != [] {
      assert Keys(es)[0] == es[0].id;
      assert Keys(es[1..]) == Keys(es)[1..];
      RemoveAbsent(es[1..], id);
    }
  }

  /** Assigning a key keeps the ids distinct. */
  lemma PutKeepsDistinct(es: seq<Entry>, id: string, name: string)
    requires DistinctKeys(es)
    ensures DistinctKeys(Put(es, id, name))
  {
  }

  /** Deleting a key keeps the ids distinct. */
  lemma {:induction false} RemoveKeepsDistinct(es: seq<Entry>, id: string)
    requires DistinctKeys(es)
    ensures DistinctKeys(Remove(es, id))
  {
    if es != [] {
      RemoveKeepsDistinct(es[1..], id);
      var tail := Remove(es[1..], id);
      if es[0].id != id {
        forall k | k in Keys(tail)
          ensures k != es[0].id
        {
          var j :| 0 <= j < |es[1..]| && Keys(es[1..])[j] == k;
          assert es[1..][j] == es[j + 1];
        }
        var r := [es[0]] + tail;
        forall i, j | 0 <= i < j < |r|
          ensures r[i].id != r[j].id
        {
          if i == 0 {
            assert r[j] == tail[j - 1] && Keys(tail)[j - 1] == r[j].id;
            assert r[j].id in Keys(tail);
          } else {
            assert r[i] == tail[i - 1] && r[j] == tail[j - 1];
          }
        }
      }
    }
  }
}
