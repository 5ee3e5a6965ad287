/**
 One driver in front of a plugin session (pluginhost/remote.go,
 pluginhost/remote_writable.go), call by call.  What becomes of an acquire and of a
 request is a parameter; PluginSession lets restarts and swaps fall in between.
 */
module RemoteDriver {

  import opened Wrappers
  import opened PluginProcess

  /** How a request ended: the plugin answered (possibly with a driver error), the call timed out, or the process went. */
  datatype Outcome = Answered(connected: bool, driverError: bool) | DeadlineExceeded | ProcessDown

  datatype Error = NotConnected | Unavailable | CallFailed | DriverFailed

  /** A frame that carries a session: to whom, and which. */
  datatype Frame = Frame(to: Client, session: nat)

  class Driver {
    const link: Link
    var session: nat
    var connected: bool
    var epochAt: nat

    constructor (link: Link)
      ensures this.link == link && session == 0 && !connected
    {
      this.link, session, connected, epochAt := link, 0, false, 0;
    }

    predicate Stale()
      reads this, link, link.cur
    {
      epochAt != link.cur.Epoch()
    }

    predicate LinkUp()
      reads link, link.cur, link.cur.cur
    {
      link.cur.cur != null && link.cur.cur.up
    }

    predicate IsConnected()
      reads this, link, link.cur, link.cur.cur
    {
      connected && !Stale() && LinkUp()
    }

    /** Whom a held session may be sent to: the generation of the client at hand decides. */
    predicate MaySend(sess: nat, cl: Client?)
      reads this, link, link.cur, cl
    {
      sess != 0 && !Stale() && cl != null && cl.epoch == epochAt
    }

    /** The session is let go first, whatever comes of telling the plugin. */
    method CloseSession(acquired: Client?) returns (sent: Option<Frame>)
      modifies this`session, this`connected
      ensures session == 0 && !connected
      ensures sent == if MaySend(old(session), acquired) && LinkUp() then Some(Frame(acquired, old(session))) else None
    {
      var sess := session;
      session, connected := 0, false;
      if sess == 0 || Stale() || !LinkUp() {
        return None;
      }
      if acquired == null || acquired.epoch != epochAt {
        return None;
      }
      return Some(Frame(acquired, sess));
    }

    /** The generation stored with a new session is that of the client that issued it. */
    method Connect(closing: Client?, acquired: Client?, reply: Option<(nat, bool)>)
      returns (r: Result<nat, Error>, released: Option<Frame>)
      modifies this
      ensures r.Success? <==> acquired != null && reply.Some?
      ensures r.Success? ==>
                session == reply.value.0 == r.value && epochAt == acquired.epoch && connected == reply.value.1
      ensures r.Failure? ==> session == 0 && !connected && epochAt == old(epochAt)
      ensures released.Some? ==> old(MaySend(session, closing)) && released == Some(Frame(closing, old(session)))
    {
      released := CloseSession(closing);
      if acquired == null {
        connected := false;
        return Failure(Unavailable), released;
      }
      if reply.None? {
        connected := false;
        return Failure(CallFailed), released;
      }
      session := reply.value.0;
      epochAt := acquired.epoch;
      connected := reply.value.1;
      return Success(session), released;
    }

    /**
     Read and Write alike: a frame goes out exactly when the session is held, fresh,
     and of the acquired client's generation; afterwards the answer's own word decides
     whether the driver counts as connected, and no answer means it does not.
     */
    method Use(acquired: Client?, outcome: Outcome) returns (r: Result<nat, Error>, sent: Option<Frame>)
      modifies this`connected
      ensures sent == if MaySend(session, acquired) then Some(Frame(acquired, session)) else None
      ensures connected <==> sent.Some? && outcome.Answered? && outcome.connected
      ensures r.Success? <==> sent.Some? && outcome.Answered? && !outcome.driverError
      ensures r == Failure(DriverFailed) <==> sent.Some? && outcome.Answered? && outcome.driverError
      ensures sent.None? ==> r == Failure(if acquired == null && session != 0 && !Stale() then Unavailable else NotConnected)
    {
      var sess := session;
      if sess == 0 || Stale() {
        connected := false;
        return Failure(NotConnected), None;
      }
      if acquired == null {
        connected := false;
        return Failure(Unavailable), None;
      }
      if acquired.epoch != epochAt {
        connected := false;
        return Failure(NotConnected), None;
      }
      sent := Some(Frame(acquired, sess));
      match outcome
      case Answered(up, driverError) =>
        connected := up;
        r := if driverError then Failure(DriverFailed) else Success(sess);
      case _ =>
        connected := false;
        r := Failure(CallFailed);
    }
  }
}
