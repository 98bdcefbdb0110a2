/**
 * Sequences of handler events run one at a time against the session, as the
 * server's single event loop does, and the properties that hold over them.
 */
module AppTrace {
  import opened Wrappers
  import opened Protocol
  import opened App

  /** One event arriving at the server. */
  datatype Input = Connect(id: ConnId) | Submit(id: ConnId, move: Move) | Leave(id: ConnId)

  function Handle<P>(e: Engine<P>, s: State<P>, x: Input): (r: Step<P>)
    ensures !x.Submit? ==> r.state.pos == s.pos
    ensures x.Submit? ==> r.state.seats == s.seats
  {
    match x
    case Connect(id) => Connection(s, id)
    case Submit(id, mv) => MoveRequest(e, s, id, mv)
    case Leave(id) => Disconnect(e, s, id)
  }

  /** Handle the events in order; the emissions of all of them, in order. */
  function Run<P>(e: Engine<P>, s: State<P>, xs: seq<Input>): (r: Step<P>)
    ensures (forall k :: 0 <= k < |xs| ==> !xs[k].Submit?) ==> r.state.pos == s.pos
    ensures (forall k :: 0 <= k < |xs| ==> xs[k].Submit?) ==> r.state.seats == s.seats
    decreases |xs|
  {
    if xs == [] then Step(s, [])
    else
      var first := Handle(e, s, xs[0]);
      var rest := Run(e, first.state, xs[1..]);
      Step(rest.state, first.out + rest.out)
  }

  /** The identifiers of the connect events, in arrival order. */
  function ConnectIds(xs: seq<Input>): seq<ConnId>
  {
    if xs == [] then []
    else if xs[0].Connect? then [xs[0].id] + ConnectIds(xs[1..])
    else ConnectIds(xs[1..])
  }

  predicate Distinct(ids: seq<ConnId>)
  {
    forall i, j :: 0 <= i < j < |ids| ==> ids[i] != ids[j]
  }

  /** The transport's guarantee: every connect brings an identifier not seen before. */
  predicate FreshConnects(seats: Seats, xs: seq<Input>)
  {
    Distinct(ConnectIds(xs)) && forall id :: id in ConnectIds(xs) ==> !Seated(seats, id)
  }

  function Connects(ids: seq<ConnId>): (xs: seq<Input>)
    ensures |xs| == |ids|
    ensures forall k :: 0 <= k < |ids| ==> xs[k] == Connect(ids[k])
  {
    if ids == [] then [] else [Connect(ids[0])] + Connects(ids[1..])
  }

  /** After one event, a seated connection was seated before or is the one that just connected. */
  lemma HandleSeatsOnlyNewcomer<P>(e: Engine<P>, s: State<P>, x: Input, id: ConnId)
    requires Seated(Handle(e, s, x).state.seats, id)
    ensures Seated(s.seats, id) || x == Connect(id)
  {
    match x
    case Connect(c) =>
    case Submit(c, mv) =>
    case Leave(c) =>
  }

  lemma {:induction false} HandleKeepsExclusive<P>(e: Engine<P>, s: State<P>, x: Input)
    requires Exclusive(s.seats)
    requires x.Connect? ==> !Seated(s.seats, x.id)
    ensures Exclusive(Handle(e, s, x).state.seats)
  {
    match x
    case Connect(c) => ConnectionKeepsExclusive(s, c);
    case Submit(c, mv) =>
    case Leave(c) => DisconnectKeepsExclusive(e, s, c);
  }

  /** Seat exclusivity holds after any run of events whose connects bring fresh identifiers. */
  lemma {:induction false} RunKeepsExclusive<P>(e: Engine<P>, s: State<P>, xs: seq<Input>)
    requires Exclusive(s.seats) && FreshConnects(s.seats, xs)
    ensures Exclusive(Run(e, s, xs).state.seats)
    decreases |xs|
  {
    if xs != [] {
      var first := Handle(e, s, xs[0]);
      var tail := xs[1..];
      assert xs == [xs[0]] + tail;
      assert ConnectIds(xs) == (if xs[0].Connect? then [xs[0].id] else []) + ConnectIds(tail);
      if xs[0].Connect? {
        assert xs[0].id in ConnectIds(xs);
      }
      HandleKeepsExclusive(e, s, xs[0]);
      forall id | id in ConnectIds(tail)
        ensures !Seated(first.state.seats, id)
      {
        var j :| 0 <= j < |ConnectIds(tail)| && ConnectIds(tail)[j] == id;
        assert id in ConnectIds(xs);
        if xs[0].Connect? {
          assert ConnectIds(xs)[0] == xs[0].id && ConnectIds(xs)[j + 1] == id;
        }
        if Seated(first.state.seats, id) {
          HandleSeatsOnlyNewcomer(e, s, xs[0], id);
        }
      }
      forall i, j | 0 <= i < j < |ConnectIds(tail)|
        ensures ConnectIds(tail)[i] != ConnectIds(tail)[j]
      {
        if xs[0].Connect? {
          assert ConnectIds(tail)[i] == ConnectIds(xs)[i + 1] && ConnectIds(tail)[j] == ConnectIds(xs)[j + 1];
        }
      }
      RunKeepsExclusive(e, first.state, tail);
    }
  }

  /**
   * No promotion of observers: a connection without a seat gets one only by a
   * connect event carrying its identifier, never by a seat opening up.
   */
  lemma {:induction false} NoSeatWithoutConnect<P>(e: Engine<P>, s: State<P>, xs: seq<Input>, id: ConnId)
    requires !Seated(s.seats, id) && id !in ConnectIds(xs)
    ensures !Seated(Run(e, s, xs).state.seats, id)
    decreases |xs|
  {
    if xs != [] {
      var first := Handle(e, s, xs[0]);
      assert ConnectIds(xs) == (if xs[0].Connect? then [xs[0].id] else []) + ConnectIds(xs[1..]);
      if Seated(first.state.seats, id) {
        HandleSeatsOnlyNewcomer(e, s, xs[0], id);
      }
      NoSeatWithoutConnect(e, first.state, xs[1..], id);
    }
  }

  /** Once both seats are taken, every newcomer is told it is a spectator and nothing changes. */
  lemma {:induction false} FullSeatsMakeSpectators<P>(e: Engine<P>, s: State<P>, ids: seq<ConnId>)
    requires s.seats.white.Some? && s.seats.black.Some?
    ensures Run(e, s, Connects(ids)).state == s
    ensures |Run(e, s, Connects(ids)).out| == |ids|
    ensures forall k :: 0 <= k < |ids| ==> Run(e, s, Connects(ids)).out[k] == Emission(One(ids[k]), SpectatorRole)
    decreases |ids|
  {
    if ids != [] {
      assert Connects(ids)[1..] == Connects(ids[1..]);
      FullSeatsMakeSpectators(e, s, ids[1..]);
    }
  }

  /**
   * Admission order: starting from open seats, the first newcomer is white,
   * the second black, and every later one a spectator, each told privately.
   */
  lemma {:induction false} AdmissionOrder<P>(e: Engine<P>, start: P, ids: seq<ConnId>)
    ensures var r := Run(e, Initial(start), Connects(ids));
      |r.out| == |ids| &&
      forall k :: 0 <= k < |ids| ==>
        r.out[k] == Emission(One(ids[k]),
          if k == 0 then PlayerRole(White) else if k == 1 then PlayerRole(Black) else SpectatorRole)
    ensures var r := Run(e, Initial(start), Connects(ids));
      r.state.pos == start &&
      (|ids| == 0 ==> r.state.seats == Seats(None, None)) &&
      (|ids| == 1 ==> r.state.seats == Seats(Some(ids[0]), None)) &&
      (|ids| >= 2 ==> r.state.seats == Seats(Some(ids[0]), Some(ids[1])))
  {
    var s0 := Initial(start);
    if |ids| == 0 {
    } else if |ids| == 1 {
      assert Connects(ids)[1..] == [];
    } else {
      var s1 := Connection(s0, ids[0]).state;
      var s2 := Connection(s1, ids[1]).state;
      assert s1 == State(Seats(Some(ids[0]), None), start);
      assert s2 == State(Seats(Some(ids[0]), Some(ids[1])), start);
      assert Connects(ids)[1..] == Connects(ids[1..]);
      assert Connects(ids[1..])[1..] == Connects(ids[2..]);
      FullSeatsMakeSpectators(e, s2, ids[2..]);
    }
  }
}
