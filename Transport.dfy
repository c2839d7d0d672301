/**
 * What the server core sees of the world outside it.
 *
 * The line transport (`Communication.Chat.SendMessage` on a client's
 * `NetworkStream`) is abstract: a write to a connection either delivers the
 * line, which is then appended to that connection's outbox, or throws. The
 * connections that throw are a set of failing recipients: some fail on their
 * own, and a connection joins the set once it is closed. The operator-facing
 * channel (the `GotError` event of the WPF server, the console of the console
 * server) is a log of reports. A `Trace` is the value of all of this; a `Host`
 * object holds the current trace and is what the server code writes to.
 */
module Transport {
  import opened Registry

  /** A formatted `DateTime.Now`; its contents are never inspected. */
  type Time = string

  /** One line on the operator channel: a failure on a connection, or a copy of a chat line. */
  datatype Report = Fault(id: Id) | Echo(text: string)

  /** Every line written so far to each connection, and the operator log. */
  datatype Trace = Trace(outbox: map<Id, seq<string>>, reports: seq<Report>)

  /** The lines connection `id` has received so far. */
  function Sent(t: Trace, id: Id): seq<string> {
    if id in t.outbox then t.outbox[id] else []
  }

  /** The trace after one report on the operator channel. */
  function Logged(t: Trace, r: Report): Trace {
    t.(reports := t.reports + [r])
  }

  /** One write of `line` to connection `id`; a failing connection receives nothing. */
  function Write(t: Trace, failing: set<Id>, id: Id, line: string): (r: Trace)
    ensures Sent(r, id) == Sent(t, id) + (if id in failing then [] else [line])
    ensures forall x :: x != id ==> Sent(r, x) == Sent(t, x)
    ensures r.reports == t.reports
  {
    if id in failing then t else t.(outbox := t.outbox[id := Sent(t, id) + [line]])
  }

  /** One write inside a try/catch that reports the failure of connection `id`. */
  function Attempt(t: Trace, failing: set<Id>, id: Id, line: string): (r: Trace)
    ensures Sent(r, id) == Sent(t, id) + (if id in failing then [] else [line])
    ensures r.reports == t.reports + (if id in failing then [Fault(id)] else [])
  {
    if id in failing then Logged(t, Fault(id)) else Write(t, failing, id, line)
  }

  /**
   * One attempt per recipient, in index order: the effect of a broadcast loop.
   * The log only grows, by at most one report per recipient.
   */
  function Broadcast(t: Trace, failing: set<Id>, ids: seq<Id>, line: string): (r: Trace)
    ensures |t.reports| <= |r.reports| <= |t.reports| + |ids|
    ensures r.reports[..|t.reports|] == t.reports
    decreases |ids|
  {
    if ids == [] then t
    else Attempt(Broadcast(t, failing, ids[..|ids| - 1], line), failing, ids[|ids| - 1], line)
  }

  /** The failure reports of one broadcast: the failing recipients, in index order. */
  function Failures(ids: seq<Id>, failing: set<Id>): (r: seq<Report>)
    ensures |r| <= |ids|
    ensures forall i :: 0 <= i < |r| ==> r[i].Fault? && r[i].id in ids && r[i].id in failing
  {
    if ids == [] then []
    else
      var last := ids[|ids| - 1];
      Failures(ids[..|ids| - 1], failing) + (if last in failing then [Fault(last)] else [])
  }

  /**
   * A broadcast to distinct recipients delivers the line exactly once to every
   * recipient whose connection works, whatever happens to the others, and
   * changes no other connection.
   */
  lemma {:induction false} BroadcastSent(t: Trace, failing: set<Id>, ids: seq<Id>, line: string, id: Id)
    requires NoDup(ids)
    ensures Sent(Broadcast(t, failing, ids, line), id)
         == Sent(t, id) + (if id in ids && id !in failing then [line] else [])
    decreases |ids|
  {
    if ids != [] {
      var init, last := ids[..|ids| - 1], ids[|ids| - 1];
      assert ids == init + [last];
      NoDupAppend(init, last);
      BroadcastSent(t, failing, init, line, id);
    }
  }

  /** A broadcast writes nothing to a connection that fails or is not a recipient, distinct ids or not. */
  lemma {:induction false} BroadcastSkips(t: Trace, failing: set<Id>, ids: seq<Id>, line: string, id: Id)
    requires id in failing || id !in ids
    ensures Sent(Broadcast(t, failing, ids, line), id) == Sent(t, id)
    decreases |ids|
  {
    if ids != [] {
      var init, last := ids[..|ids| - 1], ids[|ids| - 1];
      assert ids == init + [last];
      BroadcastSkips(t, failing, init, line, id);
    }
  }

  /** A broadcast reports each failing recipient once, in index order, and nothing else. */
  lemma {:induction false} BroadcastReports(t: Trace, failing: set<Id>, ids: seq<Id>, line: string)
    ensures Broadcast(t, failing, ids, line).reports == t.reports + Failures(ids, failing)
    decreases |ids|
  {
    if ids != [] {
      BroadcastReports(t, failing, ids[..|ids| - 1], line);
    }
  }

  /** A recipient is reported by a broadcast exactly when it is a recipient and its connection fails. */
  lemma {:induction false} FailuresExactly(ids: seq<Id>, failing: set<Id>, id: Id)
    ensures Fault(id) in Failures(ids, failing) <==> id in ids && id in failing
    decreases |ids|
  {
    if ids != [] {
      var init, last := ids[..|ids| - 1], ids[|ids| - 1];
      assert ids == init + [last];
      FailuresExactly(init, failing, id);
    }
  }

  /** A broadcast to `a + b` is a broadcast to `a` followed by a broadcast to `b`. */
  lemma {:induction false} BroadcastSplit(t: Trace, failing: set<Id>, a: seq<Id>, b: seq<Id>, line: string)
    ensures Broadcast(t, failing, a + b, line) == Broadcast(Broadcast(t, failing, a, line), failing, b, line)
    decreases |b|
  {
    if b == [] {
      assert a + b == a;
    } else {
      var init, last := b[..|b| - 1], b[|b| - 1];
      assert (a + b)[..|a + b| - 1] == a + init;
      BroadcastSplit(t, failing, a, init, line);
    }
  }

  /** The connections closed so far: `TcpClient.Close` and `Stream.Close` have been called on them. */
  class Links {
    var closed: set<Id>

    constructor ()
      ensures closed == {}
    {
      closed := {};
    }

    /** Closes connection `id`; every later write to it throws. */
    method Close(id: Id)
      modifies this
      ensures closed == old(closed) + {id}
    {
      closed := closed + {id};
    }
  }

  /**
   * The environment of the server core: the connections that fail of
   * themselves, the closed ones, the termination sentinel `Chat.STOP_CODE` of
   * the transport library, and the trace written so far.
   */
  class Host {
    const broken: set<Id>
    const links: Links
    const stopCode: string
    var trace: Trace

    constructor (broken: set<Id>, stopCode: string)
      ensures this.broken == broken && this.stopCode == stopCode && fresh(links)
      ensures Failing() == broken && trace == Trace(map[], [])
    {
      this.broken := broken;
      this.stopCode := stopCode;
      links := new Links();
      trace := Trace(map[], []);
    }

    /** The connections a write to throws: the broken ones and the closed ones. */
    function Failing(): set<Id>
      reads links
    {
      broken + links.closed
    }

    /** `chat.SendMessage(stream, line)` on connection `id`; `ok` is false where it throws. */
    method Send(id: Id, line: string) returns (ok: bool)
      modifies this
      ensures ok <==> id !in Failing()
      ensures trace == Write(old(trace), Failing(), id, line)
    {
      ok := id !in Failing();
      trace := Write(trace, Failing(), id, line);
    }

    /** One report on the operator channel. */
    method Log(r: Report)
      modifies this
      ensures trace == Logged(old(trace), r)
    {
      trace := Logged(trace, r);
    }
  }
}
