/**
 * Values exchanged between the server and its clients over the socket
 * transport, and the interface of the chess rules library both sides use.
 */
module Protocol {
  import opened Wrappers

  /** A colour; the rules library reports the side to move as "w" or "b". */
  datatype Side = White | Black

  /** The one-letter code of a side, as sent in "playerRole" and as a piece colour. */
  function SideCode(s: Side): (code: string)
    ensures |code| == 1
    ensures s == White <==> code == "w"
    ensures s == Black <==> code == "b"
  {
    match s
    case White => "w"
    case Black => "b"
  }

  /** The identifier the transport gives each live connection: a non-empty string. */
  type ConnId = s: string | s != "" witness "_"

  /** A move request: origin square, target square and an optional promotion piece. */
  datatype Move = Move(from: string, to: string, promotion: Option<string>)

  /** Who an emitted event goes to: one connection, or every connection. */
  datatype Recipient = One(id: ConnId) | All

  /** The events the server emits, each with its payload. */
  datatype Event =
    | PlayerRole(side: Side)
    | SpectatorRole
    | MoveMade(move: Move)
    | BoardState(fen: string)
    | InvalidMove(move: Move)
    | Error(message: string)

  datatype Emission = Emission(to: Recipient, event: Event)

  /** What the rules library does with a move: returns the new position, returns nothing, or throws. */
  datatype MoveOutcome<P> = Accepted(next: P) | Rejected | Threw

  /**
   * The rules library over positions of type P: the side to move, the attempt
   * to play a move, and the canonical text form of a position.
   */
  datatype Engine<!P> = Engine(
    turn: P -> Side,
    tryMove: (P, Move) -> MoveOutcome<P>,
    fen: P -> string)
}
