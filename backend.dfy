/**
 The relay server: a single waiting slot for matchmaking, a registry of joined
 connections, and the four socket handlers `join`, `move`, `exit` and
 `disconnect`. Each handler runs to completion before the next one starts, so
 each is one method call. Whatever the server emits is appended to `outbox`.
 */
module Backend {
  import opened Wrappers
  import opened Registry
  import opened Protocol

  /** `if (waitingPlayer)`: the slot counts as taken only when it holds a non-empty id. */
  predicate Occupied(slot: Option<string>)
  {
    slot.Some? && slot.value != ""
  }

  /**
   What every emitted event satisfies: the first turn of a game belongs to one
   of its two players, and `opponentExit` goes to a non-empty id.
   */
  predicate WellFormed(e: Event)
  {
    match e
    case GameStart(p1, p2, turn) => turn == p1.id || turn == p2.id
    case MoveRelay(_) => true
    case OpponentExit(target) => target != ""
  }

  class Server {
    /** `waitingPlayer`: the id waiting for an opponent, if any. */
    var waiting: Option<string>
    /** `players`: socket id to display name, in insertion order. */
    var players: seq<Entry>
    /** Every event emitted so far, in order. */
    var outbox: seq<Event>

    ghost predicate Valid()
      reads this
    {
      && DistinctKeys(players)
      && forall i :: 0 <= i < |outbox| ==> WellFormed(outbox[i])
    }

    constructor ()
      ensures Valid()
      ensures waiting == None && players == [] && outbox == []
    {
      waiting := None;
      players := [];
      outbox := [];
    }

    /**
     `join`: registers the name, then pairs the newcomer with the waiting id
     (the waiting id becomes player1) or takes the slot. `coin` stands for
     `Math.random() < 0.5`: when it holds, player1 moves first.
     */
    method Join(sid: string, name: string, coin: bool)
      requires Valid()
      modifies this
      ensures Valid()
      ensures players == Put(old(players), sid, name)
      ensures Lookup(players, sid) == Some(name)
      ensures forall k :: k != sid ==> Lookup(players, k) == Lookup(old(players), k)
      ensures !Occupied(old(waiting)) ==> waiting == Some(sid) && outbox == old(outbox)
      ensures Occupied(old(waiting)) ==>
        var w := old(waiting).value;
        && waiting == None
        && outbox == old(outbox) + [GameStart(PlayerInfo(w, Lookup(players, w)),
                                              PlayerInfo(sid, Some(name)),
                                              if coin then w else sid)]
    {
      PutKeepsDistinct(players, sid, name);
      LookupPutSame(players, sid, name);
      forall k | k != sid
        ensures Lookup(Put(players, sid, name), k) == Lookup(players, k)
      {
        LookupPutOther(players, sid, name, k);
      }
      players := Put(players, sid, name);
      if Occupied(waiting) {
        var w := waiting.value;
        var player1 := PlayerInfo(w, Lookup(players, w));
        var player2 := PlayerInfo(sid, Some(name));
        var currentTurn := if coin then player1.id else player2.id;
        outbox := outbox + [GameStart(player1, player2, currentTurn)];
        waiting := None;
      } else {
        waiting := Some(sid);
      }
    }

    /** `move`: relays the payload unchanged to everyone; nothing else changes. */
    method Move(payload: MovePayload)
      requires Valid()
      modifies this
      ensures Valid()
      ensures outbox == old(outbox) + [MoveRelay(payload)]
      ensures players == old(players) && waiting == old(waiting)
    {
      outbox := outbox + [MoveRelay(payload)];
    }

    /**
     `exit`: tells the earliest registered id other than `sid` (when there is a
     non-empty one) that its opponent left, then unregisters `sid`. The waiting
     slot is left alone, even when it holds `sid`.
     */
    method Exit(sid: string)
      requires Valid()
      modifies this
      ensures Valid()
      ensures players == Remove(old(players), sid)
      ensures Lookup(players, sid) == None
      ensures forall k :: k != sid ==> Lookup(players, k) == Lookup(old(players), k)
      ensures sid !in Keys(old(players)) ==> players == old(players)
      ensures waiting == old(waiting)
      ensures var opponent := FindOther(old(players), sid);
        outbox == old(outbox) + if opponent.Some? && opponent.value != ""
                                then [OpponentExit(opponent.value)] else []
    {
      RemoveKeepsDistinct(players, sid);
      LookupRemoveSame(players, sid);
      forall k | k != sid
        ensures Lookup(Remove(players, sid), k) == Lookup(players, k)
      {
        LookupRemoveOther(players, sid, k);
      }
      if sid !in Keys(players) {
        RemoveAbsent(players, sid);
      }
      var opponentId := FindOther(players, sid);
      if opponentId.Some? && opponentId.value != "" {
        outbox := outbox + [OpponentExit(opponentId.value)];
      }
      players := Remove(players, sid);
    }

    /**
     `disconnect`: empties the slot exactly when it held `sid`, unregisters
     `sid`, and tells no one.
     */
    method Disconnect(sid: string)
      requires Valid()
      modifies this
      ensures Valid()
      ensures waiting == if old(waiting) == Some(sid) then None else old(waiting)
      ensures players == Remove(old(players), sid)
      ensures Lookup(players, sid) == None
      ensures forall k :: k != sid ==> Lookup(players, k) == Lookup(old(players), k)
      ensures sid !in Keys(old(players)) ==> players == old(players)
      ensures outbox == old(outbox)
    {
      RemoveKeepsDistinct(players, sid);
      LookupRemoveSame(players, sid);
      forall k | k != sid
        ensures Lookup(Remove(players, sid), k) == Lookup(players, k)
      {
        LookupRemoveOther(players, sid, k);
      }
      if sid !in Keys(players) {
        RemoveAbsent(players, sid);
      }
      if waiting == Some(sid) {
        waiting := None;
      }
      players := Remove(players, sid);
    }
  }

  /**
   Two connections join one after the other: the first is player1 under its
   own name, the second player2, exactly one `gamestart` is emitted and the
   slot is empty again. The coin alone picks who moves first.
   */
  method PairTwo(c1: string, n1: string, c2: string, n2: string, coin: bool)
    returns (events: seq<Event>, slot: Option<string>)
    requires c1 != "" && c1 != c2
    ensures events == [GameStart(PlayerInfo(c1, Some(n1)), PlayerInfo(c2, Some(n2)), if coin then c1 else c2)]
    ensures slot == None
  {
    var s := new Server();
    s.Join(c1, n1, coin);
    s.Join(c2, n2, coin);
    events, slot := s.outbox, s.waiting;
  }

  /**
   A waiting connection that disconnects gives the slot up: the next joiner
   waits instead of being paired, and nothing is emitted.
   */
  method CancelThenJoin(c1: string, n1: string, c2: string, n2: string, coin: bool)
    returns (events: seq<Event>, slot: Option<string>)
    ensures events == []
    ensures slot == Some(c2)
  {
    var s := new Server();
    s.Join(c1, n1, coin);
    s.Disconnect(c1);
    s.Join(c2, n2, coin);
    events, slot := s.outbox, s.waiting;
  }

  /** After a pairing, a move from either player is relayed to everyone verbatim. */
  method MoveAfterPairing(c1: string, n1: string, c2: string, n2: string, coin: bool, payload: MovePayload)
    returns (events: seq<Event>)
    requires c1 != "" && c1 != c2
    ensures events == [GameStart(PlayerInfo(c1, Some(n1)), PlayerInfo(c2, Some(n2)), if coin then c1 else c2),
                       MoveRelay(payload)]
  {
    var s := new Server();
    s.Join(c1, n1, coin);
    s.Join(c2, n2, coin);
    s.Move(payload);
    events := s.outbox;
  }

  /**
   After a pairing, player1 exits: player2 alone is told, player1 is no longer
   registered and player2 still is.
   */
  method ExitAfterPairing(c1: string, n1: string, c2: string, n2: string, coin: bool)
    returns (events: seq<Event>, registry: seq<Entry>)
    requires c1 != "" && c2 != "" && c1 != c2
    ensures |events| == 2 && events[1] == OpponentExit(c2)
    ensures Lookup(registry, c1) == None && Lookup(registry, c2) == Some(n2)
  {
    var s := new Server();
    s.Join(c1, n1, coin);
    s.Join(c2, n2, coin);
    assert s.players == [Entry(c1, n1), Entry(c2, n2)];
    s.Exit(c1);
    events, registry := s.outbox, s.players;
  }

  /**
   `exit` does not clear the slot: a connection that joins and exits stays
   waiting, and the next joiner is paired with it under no name at all.
   */
  method ExitLeavesSlotTaken(c1: string, n1: string, c2: string, n2: string, coin: bool)
    returns (events: seq<Event>)
    requires c1 != "" && c1 != c2
    ensures events == [GameStart(PlayerInfo(c1, None), PlayerInfo(c2, Some(n2)), if coin then c1 else c2)]
  {
    var s := new Server();
    s.Join(c1, n1, coin);
    s.Exit(c1);
    s.Join(c2, n2, coin);
    events := s.outbox;
  }

  /** `join` does not compare ids: a connection that joins twice is paired with itself. */
  method JoinTwice(c: string, n1: string, n2: string, coin: bool)
    returns (events: seq<Event>)
    requires c != ""
    ensures events == [GameStart(PlayerInfo(c, Some(n2)), PlayerInfo(c, Some(n2)), c)]
  {
    var s := new Server();
    s.Join(c, n1, coin);
    s.Join(c, n2, coin);
    events := s.outbox;
  }

  /**
   The id told on `exit` is the earliest registered other id, whether or not it
   is the leaver's partner: a connection still waiting for a game that exits
   notifies player1 of the game already under way.
   */
  method ExitNotifiesEarliest(a1: string, a2: string, b: string, coin: bool)
    returns (events: seq<Event>)
    requires a1 != "" && a1 != a2 && a1 != b && a2 != b
    ensures |events| == 2 && events[1] == OpponentExit(a1)
  {
    var s := new Server();
    s.Join(a1, "A1", coin);
    s.Join(a2, "A2", coin);
    s.Join(b, "B", coin);
    assert Keys(s.players) == [a1, a2, b];
    assert s.players[0].id == a1;
    s.Exit(b);
    events := s.outbox;
  }
}
