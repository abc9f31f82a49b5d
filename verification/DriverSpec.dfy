/** The server's driver without its event loop: which connections are offered to the application, and how
    events and commands reach the parked operations of a connection. */
module DriverSpec {
  import opened Base
  import opened ConnSpec
  import opened StreamSpec
  import opened ParkSpec
  import opened ReplyRuns
  import opened EndpointSpec

  /** A connection as the application gets it. */
  datatype Offer = Offer(conn: Handle, remote: Addr, clientId: Option<string>)

  /** What looking a handle up in the core yields. */
  datatype Found = Found(core: CoreConn, remote: Addr)

  /** parked: per connection, the operations that wait; surfaced: the connections made known;
      pending: the offers not delivered yet; notices: why a connection ended, as its handles see it;
      taken: the replies each connection's operations brought; settled: the replies of connections that
      are gone. */
  datatype Drive = Drive(parked: map<Handle, Park>, surfaced: set<Handle>, pending: seq<Offer>, notices: map<Handle, Reason>,
                         taken: map<Handle, set<Reply>>, settled: seq<(Reply, Answer)>)

  const EMPTY_DRIVE := Drive(map[], {}, [], map[], map[], [])

  function Retain(offers: seq<Offer>, h: Handle): seq<Offer> {
    if offers == [] then []
    else
      var n := |offers| - 1;
      Retain(offers[..n], h) + if offers[n].conn != h then [offers[n]] else []
  }

  /** Is the handle to be offered? */
  predicate Surfaces(d: Drive, h: Handle, found: Option<Found>) {
    h !in d.surfaced && found.Some?
  }

  function Surface(d: Drive, h: Handle, found: Option<Found>, clientId: Option<string>): Drive {
    if !Surfaces(d, h, found) then d
    else
      d.(surfaced := d.surfaced + {h}, parked := d.parked[h := EMPTY_PARK], taken := d.taken[h := {}],
         notices := d.notices - {h},
         pending := d.pending + [Offer(h, found.value.remote, clientId)])
  }

  function OnLost(d: Drive, h: Handle, reason: Reason, o: DrainOrder): Drive {
    var e := if h in d.parked
             then d.(parked := d.parked - {h}, taken := d.taken - {h}, notices := d.notices[h := reason],
                     settled := d.settled + FailAll(d.parked[h], o).answers)
             else d;
    e.(surfaced := e.surfaced - {h}, pending := Retain(e.pending, h))
  }

  function TakenBy(d: Drive, h: Handle): set<Reply> {
    if h in d.taken then d.taken[h] else {}
  }

  /** Something happens to the parked operations of `h`. */
  function Advance(d: Drive, h: Handle, core: CoreConn, x: Happening): (Drive, CoreConn)
    requires h in d.parked
  {
    var l := Happen(Line(core, d.parked[h], TakenBy(d, h)), x);
    (d.(parked := d.parked[h := l.park], taken := d.taken[h := l.issued]), l.core)
  }

  /** An event that concerns one stream. */
  function Meaning(e: Event): Option<Happening> {
    match e
    case StreamOpened(_, _) => Some(StreamArrived)
    case StreamReadable(_, id) => Some(BecameReadable(id))
    case StreamWritable(_, id) => Some(BecameWritable(id))
    case StreamFinAcked(_, id) => Some(FinWasAcked(id))
    case StreamStopped(_, id, code) => Some(WasStopped(id, code))
    case Connected(_) => None
    case ConnectionLost(_, _) => None
  }

  /** A stream event is acted on when the connection is surfaced and, unless it is an acknowledgement, live. */
  predicate Acts(d: Drive, e: Event, found: Option<Found>) {
    Meaning(e).Some? && e.conn in d.parked && (found.Some? || e.StreamFinAcked?)
  }

  /** Stands for the streams of a connection that is not there. */
  const NO_CORE := CoreConn(EMPTY_BOOK, Streams(map[], map[], [], true, []))

  function CoreIn(found: Option<Found>): CoreConn {
    if found.Some? then found.value.core else NO_CORE
  }

  function OnEvent(d: Drive, e: Event, found: Option<Found>, clientId: Option<string>, o: DrainOrder): Drive {
    match e
    case Connected(h) => Surface(d, h, found, clientId)
    case ConnectionLost(h, reason) => OnLost(d, h, reason, o)
    case _ => if Acts(d, e, found) then Advance(d, e.conn, CoreIn(found), Meaning(e).value).0 else d
  }

  /** The core's side of an event. */
  function CoreAfterEvent(d: Drive, e: Event, found: Found): CoreConn {
    if Acts(d, e, Some(found)) then Advance(d, e.conn, found.core, Meaning(e).value).1 else found.core
  }

  /** A command for a connection that is gone is dropped, and its reply with it. */
  function OnCommand(d: Drive, h: Handle, cmd: Cmd, found: Option<Found>): Drive {
    if h in d.parked && found.Some? then Advance(d, h, found.value.core, Commanded(cmd)).0
    else d.(settled := d.settled + if ReplyOf(cmd).Some? then [(ReplyOf(cmd).value, Failed(Closed))] else [])
  }

  function CoreAfterCommand(d: Drive, h: Handle, cmd: Cmd, found: Found): CoreConn {
    if h in d.parked then Advance(d, h, found.core, Commanded(cmd)).1 else found.core
  }

  function DeliverNext(d: Drive): (Drive, Option<Offer>) {
    if d.pending == [] then (d, None) else (d.(pending := d.pending[1..]), Some(d.pending[0]))
  }
}
