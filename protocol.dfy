/** The events exchanged between the server and the tic-tac-toe clients. */
module Protocol {
  import opened Wrappers

  /**
   A player as the `gamestart` event carries it. The name is optional: the
   server reads it from its registry, where the waiting id may no longer be.
   */
  datatype PlayerInfo = PlayerInfo(id: string, name: Option<string>)

  /**
   The payload of a `move` event: the whole board after the move (-1 empty,
   0 the first player's mark, 1 the second's) and the id whose turn is next.
   The server relays it without looking inside.
   */
  datatype MovePayload = MovePayload(cells: seq<int>, currentTurn: string)

  /** What the server emits. */
  datatype Event =
    | GameStart(player1: PlayerInfo, player2: PlayerInfo, currentTurn: string)  // broadcast to every client
    | MoveRelay(payload: MovePayload)                                            // broadcast to every client
    | OpponentExit(target: string)                                               // sent to `target` alone

  /** What a client emits. */
  datatype ClientMsg =
    | Join(playerName: string)
    | Move(payload: MovePayload)
    | Exit
}
