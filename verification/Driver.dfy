/** The driver's tables as the program keeps them, updated in place. The operations parked for one connection
    are a record of the table; `Parked` shows how that record changes. */
module Driver {
  import opened Base
  import opened ConnSpec
  import opened StreamSpec
  import opened ParkSpec
  import opened ReplyRuns
  import opened EndpointSpec
  import opened DriverSpec

  class Driver {
    var parked: map<Handle, Park>
    var surfaced: set<Handle>
    var pendingAccept: seq<Offer>
    var notices: map<Handle, Reason>
    ghost var taken: map<Handle, set<Reply>>
    ghost var settled: seq<(Reply, Answer)>

    ghost function View(): Drive
      reads this
    {
      Drive(parked, surfaced, pendingAccept, notices, taken, settled)
    }

    constructor ()
      ensures View() == EMPTY_DRIVE
    {
      parked, surfaced, pendingAccept, notices, taken, settled := map[], {}, [], map[], map[], [];
    }

    /** A connection finished its handshake: queue it for the application. `found` is what the core has for
        the handle. */
    method Surface(h: Handle, found: Option<Found>, clientId: Option<string>)
      modifies this
      ensures View() == DriverSpec.Surface(old(View()), h, found, clientId)
    {
      if h in surfaced {
        return;
      }
      surfaced := surfaced + {h};
      match found {
        case None =>
          surfaced := surfaced - {h};
          assert surfaced == old(surfaced);
        case Some(state) =>
          parked, taken, notices := parked[h := EMPTY_PARK], taken[h := {}], notices - {h};
          pendingAccept := pendingAccept + [Offer(h, state.remote, clientId)];
      }
    }

    /** A connection is gone: fail what is parked, forget the handle, withdraw its offer. */
    method OnLost(h: Handle, reason: Reason, o: DrainOrder)
      modifies this
      ensures View() == DriverSpec.OnLost(old(View()), h, reason, o)
    {
      if h in parked {
        notices := notices[h := reason];
        var table := parked[h];
        parked, taken := parked - {h}, taken - {h};
        settled := settled + FailAll(table, o).answers;
      }
      surfaced := surfaced - {h};
      WithdrawOffers(h);
    }

    method WithdrawOffers(h: Handle)
      modifies this`pendingAccept
      ensures pendingAccept == Retain(old(pendingAccept), h)
    {
      var kept := [];
      for k := 0 to |pendingAccept|
        invariant pendingAccept == old(pendingAccept)
        invariant kept == Retain(pendingAccept[..k], h)
      {
        assert pendingAccept[..k + 1][..k] == pendingAccept[..k];
        if pendingAccept[k].conn != h {
          kept := kept + [pendingAccept[k]];
        }
      }
      assert pendingAccept[..|pendingAccept|] == pendingAccept;
      pendingAccept := kept;
    }

    /** Something happens to the parked operations of a surfaced connection. */
    method Resume(h: Handle, x: Happening, core: CoreConn) returns (after: CoreConn)
      requires h in parked
      modifies this`parked, this`taken
      ensures View() == Advance(old(View()), h, core, x).0
      ensures after == Advance(old(View()), h, core, x).1
    {
      ghost var l := Happen(Line(core, parked[h], TakenBy(View(), h)), x);
      var next := Happen(Line(core, parked[h], {}), x);
      HappenIgnoresIssued(core, parked[h], TakenBy(View(), h), x);
      parked, taken := parked[h := next.park], taken[h := l.issued];
      after := next.core;
    }

    /** React to one core event. */
    method OnEvent(e: Event, found: Option<Found>, clientId: Option<string>, o: DrainOrder) returns (core: CoreConn)
      modifies this
      ensures View() == DriverSpec.OnEvent(old(View()), e, found, clientId, o)
      ensures found.Some? ==> core == CoreAfterEvent(old(View()), e, found.value)
    {
      core := CoreIn(found);
      match e {
        case Connected(h) => Surface(h, found, clientId);
        case ConnectionLost(h, reason) => OnLost(h, reason, o);
        case StreamFinAcked(h, id) =>
          if h in parked {
            core := Resume(h, FinWasAcked(id), core);
          }
        case _ =>
          if e.conn in parked && found.Some? {
            core := Resume(e.conn, Meaning(e).value, core);
          }
      }
    }

    /** Route one command to its connection; one for a connection that is gone is dropped. */
    method OnCommand(h: Handle, cmd: Cmd, found: Option<Found>) returns (core: CoreConn)
      modifies this
      ensures View() == DriverSpec.OnCommand(old(View()), h, cmd, found)
      ensures found.Some? ==> core == CoreAfterCommand(old(View()), h, cmd, found.value)
    {
      core := CoreIn(found);
      if h in parked && found.Some? {
        core := Resume(h, Commanded(cmd), core);
      } else {
        settled := settled + if ReplyOf(cmd).Some? then [(ReplyOf(cmd).value, Failed(Closed))] else [];
      }
    }

    /** The application takes the next connection. */
    method Deliver() returns (offer: Option<Offer>)
      modifies this`pendingAccept
      ensures View() == DeliverNext(old(View())).0 && offer == DeliverNext(old(View())).1
    {
      if pendingAccept == [] {
        return None;
      }
      offer := Some(pendingAccept[0]);
      pendingAccept := pendingAccept[1..];
    }
  }

  lemma HappenIgnoresIssued(core: CoreConn, p: Park, issued: set<Reply>, x: Happening)
    ensures var l, m := Happen(Line(core, p, issued), x), Happen(Line(core, p, {}), x);
            l.core == m.core && l.park == m.park
  {
  }
}
