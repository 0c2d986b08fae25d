/** The messages the core exchanges. Only the message kinds the server's
    game handlers and the client's decoders use are listed, and the
    recipient field of a message is left out. A Send is one writeObject
    call: a message on the output stream of client `to`. */
module Protocol {
  import opened Wire

  datatype MessageType =
    | Text
    | GameList
    | GameStarted
    | BoardUpdate
    | Turn
    | TimerUpdate
    | GameOver
    | Leaderboard
    | Move
    | CreateGame
    | CreateBotGame
    | RequestGames
    | JoinGame
    | CancelGameCreation
    | ReturnToLobby
    | Rematch

  datatype Message = Message(kind: MessageType, payload: string)

  datatype Send = Send(to: int, msg: Message)

  /** "client" + id, how the server names a player in TURN and GAME_STARTED. */
  function ClientTag(id: int): string
  {
    "client" + IntToString(id)
  }

  /** Two players get the same tag only if they are the same player. */
  lemma ClientTagInjective(a: int, b: int)
    requires ClientTag(a) == ClientTag(b)
    ensures a == b
  {
    PrefixedInjective("client", a, b);
  }

  /** The messages, in order, written to one client's stream. */
  function SendAll(to: int, msgs: seq<Message>): (out: seq<Send>)
    ensures |out| == |msgs|
    ensures forall i :: 0 <= i < |out| ==> out[i] == Send(to, msgs[i])
  {
    if |msgs| == 0 then [] else [Send(to, msgs[0])] + SendAll(to, msgs[1..])
  }
}
