/**
 * The server's single shared game session: two seats and one position, changed
 * by the connection, move and disconnect handlers. Each handler is given as a
 * function from the old state to the new state and the list of emitted events
 * (in order), and as a method of GameServer that updates the fields in place.
 */
module App {
  import opened Wrappers
  import opened Protocol

  /** The seat map: who plays white and who plays black, if anyone. */
  datatype Seats = Seats(white: Option<ConnId>, black: Option<ConnId>)

  /** The whole session state: seats plus the rules library's position. */
  datatype State<P> = State(seats: Seats, pos: P)

  /** A handler's effect: the state afterwards and the events it emitted, in order. */
  datatype Step<P> = Step(state: State<P>, out: seq<Emission>)

  function Occupant(seats: Seats, side: Side): Option<ConnId>
  {
    match side
    case White => seats.white
    case Black => seats.black
  }

  predicate Seated(seats: Seats, id: ConnId)
  {
    seats.white == Some(id) || seats.black == Some(id)
  }

  /** No connection holds both seats. */
  predicate Exclusive(seats: Seats)
  {
    seats.white.Some? && seats.black.Some? ==> seats.white.value != seats.black.value
  }

  /** Every emission goes either to everyone or to the given connection. */
  predicate OnlyTo(out: seq<Emission>, id: ConnId)
  {
    forall k :: 0 <= k < |out| ==> out[k].to == One(id)
  }

  predicate NoBroadcast(out: seq<Emission>)
  {
    forall k :: 0 <= k < |out| ==> out[k].to != All
  }

  /** The session before any connection: both seats open. */
  function Initial<P>(start: P): State<P>
  {
    State(Seats(None, None), start)
  }

  /** Connection handler: the first open seat, white before black, else spectator. */
  function Connection<P>(s: State<P>, id: ConnId): (r: Step<P>)
    ensures r.state.pos == s.pos
    ensures |r.out| == 1 && OnlyTo(r.out, id)
    ensures r.out[0].event.PlayerRole? <==> s.seats.white.None? || s.seats.black.None?
    ensures r.out[0].event.PlayerRole? ==> Occupant(r.state.seats, r.out[0].event.side) == Some(id)
    ensures r.out[0].event.SpectatorRole? <==> r.state == s
  {
    if s.seats.white.None? then
      Step(s.(seats := s.seats.(white := Some(id))), [Emission(One(id), PlayerRole(White))])
    else if s.seats.black.None? then
      Step(s.(seats := s.seats.(black := Some(id))), [Emission(One(id), PlayerRole(Black))])
    else
      Step(s, [Emission(One(id), SpectatorRole)])
  }

  /** Move handler: the turn-owner check, then the rules library's verdict. */
  function MoveRequest<P>(e: Engine<P>, s: State<P>, id: ConnId, mv: Move): (r: Step<P>)
    ensures r.state.seats == s.seats
    ensures forall k :: 0 <= k < |r.out| ==> r.out[k].to == All || r.out[k].to == One(id)
  {
    if Occupant(s.seats, e.turn(s.pos)) != Some(id) then
      Step(s, [])
    else
      match e.tryMove(s.pos, mv)
      case Accepted(next) =>
        Step(s.(pos := next), [Emission(All, MoveMade(mv)), Emission(All, BoardState(e.fen(next)))])
      case Rejected =>
        Step(s, [Emission(One(id), InvalidMove(mv))])
      case Threw =>
        Step(s, [Emission(One(id), Error("Invalid move"))])
  }

  /** Disconnect handler: free the leaver's seat (white checked first), then re-announce the board. */
  function Disconnect<P>(e: Engine<P>, s: State<P>, id: ConnId): (r: Step<P>)
    ensures r.state.pos == s.pos
    ensures r.out == [Emission(All, BoardState(e.fen(s.pos)))]
  {
    var seats :=
      if s.seats.white == Some(id) then s.seats.(white := None)
      else if s.seats.black == Some(id) then s.seats.(black := None)
      else s.seats;
    Step(s.(seats := seats), [Emission(All, BoardState(e.fen(s.pos)))])
  }

  // ---- Connection ----

  lemma ConnectionTakesWhite<P>(s: State<P>, id: ConnId)
    requires s.seats.white.None?
    ensures Connection(s, id).state == s.(seats := Seats(Some(id), s.seats.black))
    ensures Connection(s, id).out == [Emission(One(id), PlayerRole(White))]
  {
  }

  lemma ConnectionTakesBlack<P>(s: State<P>, id: ConnId)
    requires s.seats.white.Some? && s.seats.black.None?
    ensures Connection(s, id).state == s.(seats := Seats(s.seats.white, Some(id)))
    ensures Connection(s, id).out == [Emission(One(id), PlayerRole(Black))]
  {
  }

  lemma ConnectionSpectates<P>(s: State<P>, id: ConnId)
    requires s.seats.white.Some? && s.seats.black.Some?
    ensures Connection(s, id).state == s
    ensures Connection(s, id).out == [Emission(One(id), SpectatorRole)]
  {
  }

  /** Admission keeps seats exclusive provided the newcomer holds no seat yet. */
  lemma ConnectionKeepsExclusive<P>(s: State<P>, id: ConnId)
    requires Exclusive(s.seats) && !Seated(s.seats, id)
    ensures Exclusive(Connection(s, id).state.seats)
  {
  }

  // ---- Move ----

  /** A request from anyone but the occupant of the side to move has no effect at all. */
  lemma UnauthorisedMoveIgnored<P>(e: Engine<P>, s: State<P>, id: ConnId, mv: Move)
    requires Occupant(s.seats, e.turn(s.pos)) != Some(id)
    ensures MoveRequest(e, s, id, mv).state == s
    ensures MoveRequest(e, s, id, mv).out == []
  {
  }

  /** A move request is silent exactly when the submitter is not the turn owner. */
  lemma SilentIffUnauthorised<P>(e: Engine<P>, s: State<P>, id: ConnId, mv: Move)
    ensures MoveRequest(e, s, id, mv).out == [] <==> Occupant(s.seats, e.turn(s.pos)) != Some(id)
  {
  }

  lemma AcceptedMoveBroadcast<P>(e: Engine<P>, s: State<P>, id: ConnId, mv: Move, next: P)
    requires Occupant(s.seats, e.turn(s.pos)) == Some(id)
    requires e.tryMove(s.pos, mv) == Accepted(next)
    ensures MoveRequest(e, s, id, mv).state == State(s.seats, next)
    ensures MoveRequest(e, s, id, mv).out
      == [Emission(All, MoveMade(mv)), Emission(All, BoardState(e.fen(next)))]
  {
  }

  lemma RejectedMoveReported<P>(e: Engine<P>, s: State<P>, id: ConnId, mv: Move)
    requires Occupant(s.seats, e.turn(s.pos)) == Some(id)
    requires e.tryMove(s.pos, mv).Rejected?
    ensures MoveRequest(e, s, id, mv).state == s
    ensures MoveRequest(e, s, id, mv).out == [Emission(One(id), InvalidMove(mv))]
    ensures NoBroadcast(MoveRequest(e, s, id, mv).out)
  {
  }

  lemma ThrowingMoveReported<P>(e: Engine<P>, s: State<P>, id: ConnId, mv: Move)
    requires Occupant(s.seats, e.turn(s.pos)) == Some(id)
    requires e.tryMove(s.pos, mv).Threw?
    ensures MoveRequest(e, s, id, mv).state == s
    ensures MoveRequest(e, s, id, mv).out == [Emission(One(id), Error("Invalid move"))]
    ensures NoBroadcast(MoveRequest(e, s, id, mv).out)
  {
  }

  /** Only an accepted move changes the position, and then to the library's result. */
  lemma PositionChangesOnlyOnAcceptance<P>(e: Engine<P>, s: State<P>, id: ConnId, mv: Move)
    ensures MoveRequest(e, s, id, mv).state.pos != s.pos ==>
      Occupant(s.seats, e.turn(s.pos)) == Some(id) &&
      e.tryMove(s.pos, mv) == Accepted(MoveRequest(e, s, id, mv).state.pos)
  {
  }

  // ---- Disconnect ----

  /** Only the leaver's seat is freed; with exclusive seats the leaver then holds none. */
  lemma DisconnectFreesOwnSeat<P>(e: Engine<P>, s: State<P>, id: ConnId)
    ensures var seats := Disconnect(e, s, id).state.seats;
      seats.white == (if s.seats.white == Some(id) then None else s.seats.white) &&
      seats.black == (if s.seats.white != Some(id) && s.seats.black == Some(id) then None else s.seats.black)
    ensures Exclusive(s.seats) ==> !Seated(Disconnect(e, s, id).state.seats, id)
  {
  }

  lemma DisconnectKeepsExclusive<P>(e: Engine<P>, s: State<P>, id: ConnId)
    requires Exclusive(s.seats)
    ensures Exclusive(Disconnect(e, s, id).state.seats)
  {
  }

  /** A second disconnect of the same connection leaves the seats as the first did. */
  lemma DisconnectIdempotent<P>(e: Engine<P>, s: State<P>, id: ConnId)
    requires Exclusive(s.seats)
    ensures var once := Disconnect(e, s, id).state;
      Disconnect(e, once, id).state == once
  {
  }

  /**
   * Without exclusive seats a repeated disconnect is not idempotent: a
   * connection holding both seats loses white first and black only the second time.
   */
  lemma DisconnectTwiceWithoutExclusive<P>(e: Engine<P>, p: P, id: ConnId)
    ensures var s := State(Seats(Some(id), Some(id)), p);
      Disconnect(e, s, id).state.seats == Seats(None, Some(id)) &&
      Disconnect(e, Disconnect(e, s, id).state, id).state.seats == Seats(None, None)
  {
  }

  /** Scenario: the white player leaves, and the next newcomer takes white. */
  lemma FreedSeatGoesToNextNewcomer<P>(e: Engine<P>, s: State<P>, leaver: ConnId, newcomer: ConnId)
    requires s.seats.white == Some(leaver) && Exclusive(s.seats)
    ensures var after := Disconnect(e, s, leaver).state;
      Connection(after, newcomer).out == [Emission(One(newcomer), PlayerRole(White))] &&
      Connection(after, newcomer).state.seats == Seats(Some(newcomer), s.seats.black)
  {
  }

  /** Moves and disconnects never fill a seat; each seat keeps its occupant or becomes open. */
  lemma OnlyConnectionFillsSeats<P>(e: Engine<P>, s: State<P>, id: ConnId, mv: Move)
    ensures var m := MoveRequest(e, s, id, mv).state.seats;
      m.white == s.seats.white && m.black == s.seats.black
    ensures var d := Disconnect(e, s, id).state.seats;
      (d.white == s.seats.white || d.white.None?) && (d.black == s.seats.black || d.black.None?)
  {
  }

  /**
   * The server: seats and position as mutable fields, the rules library fixed
   * at start-up. Each handler returns the events it emits, in order.
   */
  class GameServer<P> {
    var white: Option<ConnId>
    var black: Option<ConnId>
    var position: P
    const engine: Engine<P>

    function Snapshot(): State<P>
      reads this
    {
      State(Seats(white, black), position)
    }

    constructor (engine: Engine<P>, start: P)
      ensures Snapshot() == Initial(start) && this.engine == engine
    {
      this.engine := engine;
      white, black := None, None;
      position := start;
    }

    method OnConnection(id: ConnId) returns (out: seq<Emission>)
      modifies this
      ensures Snapshot() == Connection(old(Snapshot()), id).state
      ensures out == Connection(old(Snapshot()), id).out
      ensures old(Exclusive(Snapshot().seats) && !Seated(Snapshot().seats, id)) ==> Exclusive(Snapshot().seats)
    {
      if white.None? {
        white := Some(id);
        out := [Emission(One(id), PlayerRole(White))];
      } else if black.None? {
        black := Some(id);
        out := [Emission(One(id), PlayerRole(Black))];
      } else {
        out := [Emission(One(id), SpectatorRole)];
      }
    }

    method OnMove(id: ConnId, mv: Move) returns (out: seq<Emission>)
      modifies this`position
      ensures Snapshot() == MoveRequest(engine, old(Snapshot()), id, mv).state
      ensures out == MoveRequest(engine, old(Snapshot()), id, mv).out
      ensures white == old(white) && black == old(black)
    {
      var currentTurn := engine.turn(position);
      if currentTurn == White && Some(id) != white {
        return [];
      }
      if currentTurn == Black && Some(id) != black {
        return [];
      }
      var result := engine.tryMove(position, mv);
      match result {
        case Accepted(next) =>
          position := next;
          out := [Emission(All, MoveMade(mv)), Emission(All, BoardState(engine.fen(position)))];
        case Rejected =>
          out := [Emission(One(id), InvalidMove(mv))];
        case Threw =>
          out := [Emission(One(id), Error("Invalid move"))];
      }
    }

    method OnDisconnect(id: ConnId) returns (out: seq<Emission>)
      modifies this`white, this`black
      ensures Snapshot() == Disconnect(engine, old(Snapshot()), id).state
      ensures out == Disconnect(engine, old(Snapshot()), id).out
      ensures old(Exclusive(Snapshot().seats)) ==> Exclusive(Snapshot().seats) && !Seated(Snapshot().seats, id)
    {
      if white == Some(id) {
        white := None;
      } else if black == Some(id) {
        black := None;
      }
      out := [Emission(All, BoardState(engine.fen(position)))];
    }
  }
}
