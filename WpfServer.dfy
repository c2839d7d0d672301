/**
 * The WPF server (`ServerWPF/Model`): a `ServerModel` that owns the list of
 * registered clients, and one `ClientModel` per accepted connection that runs
 * the session. The client registers itself only after it has received its
 * name; `Close` sends the sentinel to everyone and empties the list; clients
 * can be banned and unbanned. Each call is modelled as atomic.
 */
module WpfServer {
  import opened Registry
  import opened Transport
  import opened Session

  const CannotWrite := "You cannot write to this chat"

  /** `GetMessageToSend`: the line stamped with the time and the sender's name. */
  function GetMessageToSend(name: string, now: Time, message: string): (r: string)
    ensures |r| == |now| + |name| + |message| + 5
    ensures r[..|now| + 3] == "[" + now + "] "
    ensures r[|now| + 3..|now| + 3 + |name|] == name
    ensures r[|now| + 3 + |name|..|now| + 5 + |name|] == ": "
    ensures r[|r| - |message|..] == message
  {
    "[" + now + "] " + name + ": " + message
  }

  /** A line of the server's own: the moderation notices and `SendMessage`. */
  function ServerNotice(now: Time, text: string): string {
    "[" + now + "] Server: " + text
  }

  /** The private reply a banned client gets for each line it sends. */
  function Refusal(now: Time): string {
    "[" + now + "] " + CannotWrite
  }

  /** The notice every exit path of the receive loop broadcasts. */
  function LeaveNotice(name: string, now: Time): string {
    GetMessageToSend(name, now, "leave the chat")
  }

  /** What one pass of the receive loop of `Proceed` does to the trace; the log only grows. */
  function Handle(t: Trace, c: Ctx, item: Incoming): (r: Trace)
    ensures |t.reports| <= |r.reports| && r.reports[..|t.reports|] == t.reports
  {
    match item
    case Broken(at) =>
      Broadcast(Logged(t, Fault(c.self)), c.failing, c.members, LeaveNotice(c.name, at))
    case Line(text, at) =>
      match React(text, c.stop, c.banned)
      case Quit => Broadcast(t, c.failing, c.members, LeaveNotice(c.name, at))
      case Post => Broadcast(t, c.failing, c.members, GetMessageToSend(c.name, at, text))
      case Drop => t
      case Refuse =>
        if c.self in c.failing then
          Broadcast(Logged(t, Fault(c.self)), c.failing, c.members, LeaveNotice(c.name, at))
        else
          Write(t, c.failing, c.self, Refusal(at))
  }

  /** The receive loop run over `items`, one pass per item, in order; the log only grows. */
  function Run(t: Trace, c: Ctx, items: seq<Incoming>): (r: Trace)
    ensures |t.reports| <= |r.reports| && r.reports[..|t.reports|] == t.reports
    decreases |items|
  {
    if items == [] then t
    else Handle(Run(t, c, items[..|items| - 1]), c, items[|items| - 1])
  }

  /**
   * Where the receive loop over `items`, started on trace `t`, leaves the
   * session: either it left after the first item that ends it, with the run
   * up to and including that item as trace `r`, or no item ended it and `r`
   * is the run over all of them.
   */
  predicate Looped(c: Ctx, items: seq<Incoming>, t: Trace, phase: Phase, r: Trace) {
    var n := FirstEnd(c, items);
    if n < |items| then phase == Left && r == Run(t, c, items[..n + 1])
    else phase == Chatting && r == Run(t, c, items)
  }

  /** The loop over the first `k + 1` items is the loop over the first `k`, then one more pass. */
  lemma RunStep(t: Trace, c: Ctx, items: seq<Incoming>, k: nat)
    requires k < |items|
    ensures Run(t, c, items[..k + 1]) == Handle(Run(t, c, items[..k]), c, items[k])
  {
    assert items[..k + 1][..k] == items[..k];
  }

  /** An unbanned client's non-empty line reaches every working member exactly once. */
  lemma HandlePost(t: Trace, c: Ctx, text: string, at: Time)
    requires NoDup(c.members) && !c.banned && text != c.stop && text != ""
    ensures !Ends(c, Line(text, at))
    ensures forall id ::
              Sent(Handle(t, c, Line(text, at)), id) == Sent(t, id)
                + (if id in c.members && id !in c.failing then [GetMessageToSend(c.name, at, text)] else [])
    ensures Handle(t, c, Line(text, at)).reports == t.reports + Failures(c.members, c.failing)
  {
    forall id {
      BroadcastSent(t, c.failing, c.members, GetMessageToSend(c.name, at, text), id);
    }
    BroadcastReports(t, c.failing, c.members, GetMessageToSend(c.name, at, text));
  }

  /** An unbanned client's empty line is dropped: no broadcast, no reply, no report. */
  lemma HandleDrop(t: Trace, c: Ctx, at: Time)
    requires !c.banned && c.stop != ""
    ensures !Ends(c, Line("", at))
    ensures Handle(t, c, Line("", at)) == t
  {
  }

  /**
   * A banned client's line other than the sentinel, the empty line included,
   * is not broadcast: only the sender's own connection receives the refusal.
   */
  lemma HandleRefuse(t: Trace, c: Ctx, text: string, at: Time)
    requires c.banned && text != c.stop && c.self !in c.failing
    ensures !Ends(c, Line(text, at))
    ensures Sent(Handle(t, c, Line(text, at)), c.self) == Sent(t, c.self) + [Refusal(at)]
    ensures forall id :: id != c.self ==> Sent(Handle(t, c, Line(text, at)), id) == Sent(t, id)
    ensures Handle(t, c, Line(text, at)).reports == t.reports
  {
  }

  /**
   * On every exit the pass is the leave notice broadcast after the exit's own
   * failure report: none for the sentinel, one for a failed receive or reply.
   */
  lemma ExitBroadcasts(t: Trace, c: Ctx, item: Incoming)
    requires Ends(c, item)
    ensures Handle(t, c, item)
         == Broadcast(if item.Line? && item.text == c.stop then t else Logged(t, Fault(c.self)),
                      c.failing, c.members, LeaveNotice(c.name, item.at))
  {
  }

  /**
   * Every exit of the loop (the sentinel, a receive failure, a failed reply)
   * broadcasts one leave notice; the failures are reported on the operator
   * channel before it.
   */
  lemma HandleExit(t: Trace, c: Ctx, item: Incoming)
    requires NoDup(c.members) && Ends(c, item)
    ensures forall id ::
              Sent(Handle(t, c, item), id) == Sent(t, id)
                + (if id in c.members && id !in c.failing then [LeaveNotice(c.name, item.at)] else [])
    ensures Handle(t, c, item).reports
         == t.reports + (if item.Line? && item.text == c.stop then [] else [Fault(c.self)]) + Failures(c.members, c.failing)
  {
    var t0 := if item.Line? && item.text == c.stop then t else Logged(t, Fault(c.self));
    ExitBroadcasts(t, c, item);
    forall id {
      BroadcastSent(t0, c.failing, c.members, LeaveNotice(c.name, item.at), id);
    }
    BroadcastReports(t0, c.failing, c.members, LeaveNotice(c.name, item.at));
  }

  /**
   * A banned client that has not left writes nothing to anyone else and
   * reports nothing, however many lines it sends.
   */
  lemma {:induction false} BannedRunSilent(t: Trace, c: Ctx, items: seq<Incoming>)
    requires c.banned
    requires forall i :: 0 <= i < |items| ==> !Ends(c, items[i])
    ensures forall id :: id != c.self ==> Sent(Run(t, c, items), id) == Sent(t, id)
    ensures Run(t, c, items).reports == t.reports
    decreases |items|
  {
    if items != [] {
      var init, last := items[..|items| - 1], items[|items| - 1];
      BannedRunSilent(t, c, init);
      assert !Ends(c, last);
      HandleRefuse(Run(t, c, init), c, last.text, last.at);
    }
  }

  /** The chat lines an unbanned client's items produce, in order: one per non-empty line. */
  function Posted(name: string, items: seq<Incoming>): seq<string>
    decreases |items|
  {
    if items == [] then []
    else
      var last := items[|items| - 1];
      Posted(name, items[..|items| - 1])
        + (if last.Line? && last.text != "" then [GetMessageToSend(name, last.at, last.text)] else [])
  }

  /**
   * An unbanned client that has not left has delivered to every working
   * member exactly its non-empty lines, in the order it sent them, and
   * nothing else.
   */
  lemma {:induction false} UnbannedRunPosts(t: Trace, c: Ctx, items: seq<Incoming>)
    requires NoDup(c.members) && !c.banned
    requires forall i :: 0 <= i < |items| ==> !Ends(c, items[i])
    ensures forall id ::
              Sent(Run(t, c, items), id)
                == Sent(t, id) + (if id in c.members && id !in c.failing then Posted(c.name, items) else [])
    decreases |items|
  {
    if items != [] {
      var init, last := items[..|items| - 1], items[|items| - 1];
      UnbannedRunPosts(t, c, init);
      assert !Ends(c, last);
      if last.text != "" {
        HandlePost(Run(t, c, init), c, last.text, last.at);
      } else {
        HandleDrop(Run(t, c, init), c, last.at);
      }
    }
  }

  /**
   * A connection whose handshake fails is never registered: the list is as
   * it was and does not hold the new client.
   */
  method FailedHandshake(server: ServerModel, id: Id, at: Time) returns (client: ClientModel)
    modifies server, server.host, server.host.links
    ensures fresh(client) && client.Id == id
    ensures server.clients == old(server.clients) && client !in server.clients
    ensures server.host.trace == Logged(old(server.host.trace), Fault(id))
    ensures server.host.links.closed == old(server.host.links.closed)
  {
    client := new ClientModel(id, server);
    var phase := client.Proceed([Broken(at)]);
  }

  class ClientModel {
    /** Assigned once by the constructor from `Guid.NewGuid()`; it never changes. */
    const Id: Id
    const server: ServerModel
    /** `null` until the first line arrives; C# interpolates that as the empty string. */
    var Name: string
    var IsBanned: bool
    /** How many times `Close` has closed this client's connection. */
    var closes: nat

    constructor (id: Id, server: ServerModel)
      ensures Id == id && this.server == server
      ensures Name == "" && !IsBanned && closes == 0
    {
      Id := id;
      this.server := server;
      Name := "";
      IsBanned := false;
      closes := 0;
    }

    /** What the receive loop depends on, in the current state. */
    function Context(): Ctx
      reads this, server, server.host.links
    {
      Ctx(Id, Name, IsBanned, server.host.stopCode, server.host.Failing(), server.Ids())
    }

    /** Closes the connection, `tcpClient.Close()` and `Stream.Close()`: later writes to it throw. */
    method Close()
      modifies this, server.host.links
      ensures closes == old(closes) + 1
      ensures Name == old(Name) && IsBanned == old(IsBanned)
      ensures server.host.links.closed == old(server.host.links.closed) + {Id}
    {
      server.host.links.Close(Id);
      closes := closes + 1;
    }

    /**
     * The handshake: the first line becomes the name, the client registers,
     * and everyone (this client included) is told it joined. A failed receive
     * is reported and the client is never registered.
     */
    method EnterChat(first: Incoming) returns (ok: bool)
      modifies this, server, server.host
      ensures ok <==> first.Line?
      ensures IsBanned == old(IsBanned) && closes == old(closes)
      ensures server.stopped == old(server.stopped)
      ensures ok ==> Name == first.text && server.clients == old(server.clients) + [this]
      ensures ok ==> server.Ids() == old(server.Ids()) + [Id]
      ensures ok ==>
                server.host.trace == Broadcast(old(server.host.trace), server.host.Failing(), server.Ids(), GetMessageToSend(first.text, first.at, "joined the chat"))
      ensures !ok ==> Name == old(Name) && server.clients == old(server.clients)
      ensures !ok ==> server.host.trace == Logged(old(server.host.trace), Fault(Id))
    {
      match first
      case Broken(_) =>
        server.OnGotError(Fault(Id));
        return false;
      case Line(text, at) =>
        Name := text;
        server.AddClient(this);
        server.BroadcastMessage(GetMessageToSend(Name, at, "joined the chat"));
        return true;
    }

    /** One pass of the receive loop; `done` says whether the loop breaks. */
    method HandleItem(item: Incoming, ghost c: Ctx) returns (done: bool)
      requires c == Context()
      modifies server.host
      ensures done == Ends(c, item)
      ensures server.host.trace == Handle(old(server.host.trace), c, item)
    {
      match item
      case Broken(at) =>
        server.OnGotError(Fault(Id));
        server.BroadcastMessage(GetMessageToSend(Name, at, "leave the chat"));
        done := true;
      case Line(msg, at) =>
        if msg == server.host.stopCode {
          server.BroadcastMessage(GetMessageToSend(Name, at, "leave the chat"));
          done := true;
        } else if !IsBanned {
          if msg != "" {
            server.BroadcastMessage(GetMessageToSend(Name, at, msg));
          }
          done := false;
        } else {
          var ok := server.host.Send(Id, Refusal(at));
          if ok {
            done := false;
          } else {
            server.OnGotError(Fault(Id));
            server.BroadcastMessage(GetMessageToSend(Name, at, "leave the chat"));
            done := true;
          }
        }
    }

    /**
     * The whole session over the items received so far. After the handshake
     * the loop handles one item at a time until one ends it; the client then
     * removes the first registered client with its id and closes its
     * connection, once each. With a fresh id that is itself, and the ids are
     * as they were before the handshake. When the items run out first, the
     * session is still waiting in `ReceiveMessage`. Only a session that left
     * has closed its connection.
     */
    method Proceed(items: seq<Incoming>) returns (phase: Phase)
      modifies this, server, server.host, server.host.links
      ensures IsBanned == old(IsBanned) && server.stopped == old(server.stopped)
      ensures phase != Left ==> server.host.links.closed == old(server.host.links.closed)
      ensures phase == Left ==> server.host.links.closed == old(server.host.links.closed) + {Id}
      ensures |items| == 0 ==> phase == AwaitingName && Name == old(Name) && closes == old(closes)
      ensures |items| == 0 ==> server.clients == old(server.clients) && server.host.trace == old(server.host.trace)
      ensures |items| > 0 && items[0].Broken? ==> phase == Refused && Name == old(Name) && closes == old(closes)
      ensures |items| > 0 && items[0].Broken? ==>
                server.clients == old(server.clients) && server.host.trace == Logged(old(server.host.trace), Fault(Id))
      ensures |items| > 0 && items[0].Line? ==>
                var c := Ctx(Id, items[0].text, old(IsBanned), server.host.stopCode, old(server.host.Failing()), old(server.Ids()) + [Id]);
                var joined := Broadcast(old(server.host.trace), c.failing, c.members, GetMessageToSend(c.name, items[0].at, "joined the chat"));
                Name == items[0].text && Looped(c, items[1..], joined, phase, server.host.trace)
      ensures |items| > 0 && items[0].Line? && phase == Left ==>
                server.Ids() == Without(old(server.Ids()) + [Id], Id) && closes == old(closes) + 1 &&
                (Id !in old(server.Ids()) ==> server.Ids() == old(server.Ids()))
      ensures |items| > 0 && items[0].Line? && phase == Chatting ==>
                server.clients == old(server.clients) + [this] && closes == old(closes)
    {
      if |items| == 0 {
        return AwaitingName;
      }
      var ok := EnterChat(items[0]);
      if !ok {
        return Refused;
      }
      ghost var c := Ctx(Id, items[0].text, old(IsBanned), server.host.stopCode, server.host.Failing(), old(server.Ids()) + [Id]);
      phase := Converse(items[1..], c);
      if Id !in old(server.Ids()) {
        WithoutAppended(old(server.Ids()), Id);
      }
    }

    /** The session after the handshake: the receive loop, then the teardown if the loop exited. */
    method Converse(items: seq<Incoming>, ghost c: Ctx) returns (phase: Phase)
      requires c == Context()
      modifies this, server, server.host, server.host.links
      ensures Name == old(Name) && IsBanned == old(IsBanned) && server.stopped == old(server.stopped)
      ensures Looped(c, items, old(server.host.trace), phase, server.host.trace)
      ensures phase == Left ==>
                server.Ids() == Without(old(server.Ids()), Id) &&
                server.clients == (match FirstIndex(old(server.Ids()), Id)
                                   case None => old(server.clients)
                                   case Some(k) => RemoveAt(old(server.clients), k)) &&
                closes == old(closes) + 1 && server.host.links.closed == old(server.host.links.closed) + {Id}
      ensures phase != Left ==>
                server.clients == old(server.clients) && closes == old(closes) &&
                server.host.links.closed == old(server.host.links.closed)
    {
      var left, handled := ChatLoop(items, c);
      if left {
        server.RemoveClient(Id);
        Close();
        phase := Left;
      } else {
        assert items[..handled] == items;
        phase := Chatting;
      }
    }

    /**
     * The `do { ... } while (true)` receive loop: one pass per item until an
     * item ends it. `left` says whether one did; `handled` counts the items
     * the loop has taken.
     */
    method ChatLoop(items: seq<Incoming>, ghost c: Ctx) returns (left: bool, handled: nat)
      requires c == Context()
      modifies server.host
      ensures left <==> FirstEnd(c, items) < |items|
      ensures handled == if left then FirstEnd(c, items) + 1 else |items|
      ensures server.host.trace == Run(old(server.host.trace), c, items[..handled])
    {
      handled, left := 0, false;
      while !left && handled < |items|
        invariant handled <= |items|
        invariant if left then handled == FirstEnd(c, items) + 1 else handled <= FirstEnd(c, items)
        invariant server.host.trace == Run(old(server.host.trace), c, items[..handled])
      {
        RunStep(old(server.host.trace), c, items, handled);
        left := HandleItem(items[handled], c);
        handled := handled + 1;
      }
      assert !left ==> items[..handled] == items;
    }
  }

  class ServerModel {
    const host: Host
    /** The registered clients, in the order they registered. */
    var clients: seq<ClientModel>
    /** Whether `Close` has stopped the listener. */
    var stopped: bool

    constructor (host: Host)
      ensures this.host == host && clients == [] && !stopped
    {
      this.host := host;
      clients := [];
      stopped := false;
    }

    /** The ids of the registered clients, in list order. */
    function Ids(): (r: seq<Id>)
      reads this
      ensures |r| == |clients|
      ensures forall i :: 0 <= i < |clients| ==> r[i] == clients[i].Id
    {
      var cs := clients;
      seq(|cs|, i requires 0 <= i < |cs| => cs[i].Id)
    }

    /** The registry invariant: no id is registered twice. */
    predicate UniqueIds()
      reads this
    {
      NoDup(Ids())
    }

    /** Every registered client is one of this server's: only a client adds itself, to its own server. */
    predicate Owned()
      reads this
    {
      forall c :: c in clients ==> c.server == this
    }

    /** The first registered client with this id, or `null` when there is none. */
    function GetClientById(id: Id): (c: ClientModel?)
      reads this
      ensures c == null <==> forall i :: 0 <= i < |clients| ==> clients[i].Id != id
      ensures c != null ==>
                exists k :: 0 <= k < |clients| && clients[k] == c && c.Id == id &&
                  forall j :: 0 <= j < k ==> clients[j].Id != id
    {
      match FirstIndex(Ids(), id)
      case None => null
      case Some(k) => clients[k]
    }

    /** `GotError`: one report on the operator channel. */
    method OnGotError(r: Report)
      modifies host
      ensures host.trace == Logged(old(host.trace), r)
    {
      host.Log(r);
    }

    /** Appends the client; ids stay unique exactly when its id is new. */
    method AddClient(client: ClientModel)
      modifies this
      ensures clients == old(clients) + [client] && stopped == old(stopped)
      ensures Ids() == old(Ids()) + [client.Id]
      ensures UniqueIds() <==> old(UniqueIds()) && client.Id !in old(Ids())
      ensures Owned() <==> old(Owned()) && client.server == this
    {
      clients := clients + [client];
      assert Ids() == old(Ids()) + [client.Id];
      NoDupAppend(old(Ids()), client.Id);
    }

    /** Removes the first client with this id; an absent id changes nothing. */
    method RemoveClient(id: Id)
      modifies this
      ensures stopped == old(stopped)
      ensures clients == match FirstIndex(old(Ids()), id)
                         case None => old(clients)
                         case Some(k) => RemoveAt(old(clients), k)
      ensures Ids() == Without(old(Ids()), id)
      ensures old(UniqueIds()) ==> UniqueIds() && id !in Ids()
      ensures old(Owned()) ==> Owned()
    {
      var client := GetClientById(id);
      if client != null {
        var k := FirstIndex(Ids(), id).value;
        // `List.Remove` takes out the first occurrence of the object, which is at `k`.
        assert forall j :: 0 <= j < k ==> clients[j] != client;
        clients := RemoveAt(clients, k);
        assert Ids() == RemoveAt(old(Ids()), k);
      }
      if old(UniqueIds()) {
        WithoutUnique(old(Ids()), id);
      }
    }

    /**
     * One send per registered client, in index order; a failure is reported
     * and the loop goes on. Nobody is removed.
     */
    method BroadcastMessage(message: string)
      modifies host
      ensures host.trace == Broadcast(old(host.trace), host.Failing(), Ids(), message)
    {
      var i := 0;
      while i < |clients|
        invariant 0 <= i <= |clients|
        invariant host.trace == Broadcast(old(host.trace), host.Failing(), Ids()[..i], message)
      {
        assert Ids()[..i + 1][..i] == Ids()[..i];
        var ok := host.Send(clients[i].Id, message);
        if !ok {
          OnGotError(Fault(clients[i].Id));
        }
        i := i + 1;
      }
      assert Ids()[..i] == Ids();
    }

    /**
     * A private server line to one client; nothing happens when the id is not
     * registered or the message is `null`, and a failed write is swallowed.
     */
    method SendMessage(id: Id, message: Option<string>, now: Time)
      modifies host
      ensures var c := GetClientById(id);
              host.trace == if c != null && message.Some?
                            then Write(old(host.trace), host.Failing(), id, ServerNotice(now, message.value))
                            else old(host.trace)
    {
      var client := GetClientById(id);
      if client != null && message.Some? {
        var ok := host.Send(client.Id, ServerNotice(now, message.value));
      }
    }

    /** Bans the client when it is registered and not banned, and says so to everyone. */
    method Ban(id: Id, now: Time)
      modifies clients, host
      ensures clients == old(clients) && stopped == old(stopped)
      ensures var c := GetClientById(id); c != null ==> c.IsBanned
      ensures forall d :: d in clients && d != GetClientById(id) ==> d.IsBanned == old(d.IsBanned)
      ensures forall d :: d in clients ==> d.Name == old(d.Name) && d.closes == old(d.closes)
      ensures var c := GetClientById(id);
              host.trace == if c != null && !old(c.IsBanned)
                            then Broadcast(old(host.trace), host.Failing(), Ids(), ServerNotice(now, c.Name + " is banned"))
                            else old(host.trace)
    {
      var client := GetClientById(id);
      if client != null && !client.IsBanned {
        client.IsBanned := true;
        BroadcastMessage(ServerNotice(now, client.Name + " is banned"));
      }
    }

    /** Unbans the client when it is registered and banned, and says so to everyone. */
    method Unban(id: Id, now: Time)
      modifies clients, host
      ensures clients == old(clients) && stopped == old(stopped)
      ensures var c := GetClientById(id); c != null ==> !c.IsBanned
      ensures forall d :: d in clients && d != GetClientById(id) ==> d.IsBanned == old(d.IsBanned)
      ensures forall d :: d in clients ==> d.Name == old(d.Name) && d.closes == old(d.closes)
      ensures var c := GetClientById(id);
              host.trace == if c != null && old(c.IsBanned)
                            then Broadcast(old(host.trace), host.Failing(), Ids(), ServerNotice(now, c.Name + " is unbanned"))
                            else old(host.trace)
    {
      var client := GetClientById(id);
      if client != null && client.IsBanned {
        client.IsBanned := false;
        BroadcastMessage(ServerNotice(now, client.Name + " is unbanned"));
      }
    }

    /** A second `Ban` of the same id sends no notice and changes nothing. */
    method BanTwice(id: Id, first: Time, second: Time)
      modifies clients, host
      ensures clients == old(clients)
      ensures forall d :: d in clients ==> d.Name == old(d.Name) && d.closes == old(d.closes)
      ensures var c := GetClientById(id);
              host.trace == if c != null && !old(c.IsBanned)
                            then Broadcast(old(host.trace), host.Failing(), Ids(), ServerNotice(first, c.Name + " is banned"))
                            else old(host.trace)
    {
      Ban(id, first);
      ghost var between := host.trace;
      Ban(id, second);
      assert host.trace == between;
    }

    /**
     * `Unban` right after `Ban` leaves a registered client unbanned, whatever
     * its flag was, and touches no other client. Everyone hears of the ban
     * only when the client was not already banned.
     */
    method BanThenUnban(id: Id, first: Time, second: Time)
      modifies clients, host
      ensures clients == old(clients)
      ensures var c := GetClientById(id); c != null ==> !c.IsBanned
      ensures forall d :: d in clients && d != GetClientById(id) ==> d.IsBanned == old(d.IsBanned)
      ensures var c := GetClientById(id);
              var unbanned := ServerNotice(second, if c == null then "" else c.Name + " is unbanned");
              host.trace == if c == null then old(host.trace)
                            else if old(c.IsBanned) then Broadcast(old(host.trace), host.Failing(), Ids(), unbanned)
                            else Broadcast(Broadcast(old(host.trace), host.Failing(), Ids(), ServerNotice(first, c.Name + " is banned")),
                                           host.Failing(), Ids(), unbanned)
    {
      Ban(id, first);
      Unban(id, second);
    }

    /** The loop of `Close` that closes every registered client's connection, in index order. */
    method CloseEach()
      requires Owned()
      modifies clients, host.links
      ensures forall c :: c in clients ==> c.closes == old(c.closes) + multiset(clients)[c]
      ensures forall c :: c in clients ==> c.Name == old(c.Name) && c.IsBanned == old(c.IsBanned)
      ensures host.links.closed == old(host.links.closed) + Members(Ids())
    {
      var i := 0;
      while i < |clients|
        invariant 0 <= i <= |clients|
        invariant forall c :: c in clients ==> c.closes == old(c.closes) + multiset(clients[..i])[c]
        invariant forall c :: c in clients ==> c.Name == old(c.Name) && c.IsBanned == old(c.IsBanned)
        invariant host.links.closed == old(host.links.closed) + Members(Ids()[..i])
      {
        assert clients[..i + 1] == clients[..i] + [clients[i]];
        assert Ids()[..i + 1] == Ids()[..i] + [clients[i].Id];
        clients[i].Close();
        i := i + 1;
      }
      assert clients[..i] == clients;
      assert Ids()[..i] == Ids();
    }

    /**
     * Shutdown: the sentinel goes to every registered client, then every
     * client's connection is closed, the list is emptied and the listener stops.
     */
    method Close()
      requires Owned()
      modifies this, host, clients, host.links
      ensures host.trace == Broadcast(old(host.trace), old(host.Failing()), old(Ids()), host.stopCode)
      ensures host.links.closed == old(host.links.closed) + Members(old(Ids()))
      ensures forall c :: c in old(clients) ==> c.closes == old(c.closes) + multiset(old(clients))[c]
      ensures forall c :: c in old(clients) ==> c.Name == old(c.Name) && c.IsBanned == old(c.IsBanned)
      ensures clients == [] && stopped
    {
      BroadcastMessage(host.stopCode);
      CloseEach();
      assert forall c :: c in old(clients) ==> c.Name == old(c.Name) && c.IsBanned == old(c.IsBanned);
      clients := [];
      stopped := true;
    }
  }
}
