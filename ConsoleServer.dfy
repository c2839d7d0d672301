/**
 * The console server (`Server/Model`): the same registry and receive loop as
 * the WPF server, with these differences. A client registers itself when it
 * is constructed, before the handshake, and stays registered when the
 * handshake fails. Every line a session sends goes through the client's
 * `SendMessage` helper, which broadcasts it and echoes it on the console.
 * `BroadcastMessage` takes a sender id and ignores it. There is no `Unban`,
 * and `Close` neither sends the sentinel nor empties the list.
 */
module ConsoleServer {
  import opened Registry
  import opened Transport
  import opened Session

  /** The join notice: the bracketed time, the name, then `joined the chat`. */
  function JoinNotice(name: string, now: Time): string {
    "[" + now + "] " + name + " joined the chat"
  }

  /** The leave notice: the bracketed time, the name, then `leave the chat`. */
  function LeaveNotice(name: string, now: Time): string {
    "[" + now + "] " + name + " leave the chat"
  }

  /** A chat line as everyone sees it: the bracketed time, the name, a spaced colon, then the message. */
  function ChatLine(name: string, now: Time, message: string): (r: string)
    ensures |r| == |now| + |name| + |message| + 6
    ensures r[..|now| + 3] == "[" + now + "] "
    ensures r[|now| + 3..|now| + 3 + |name|] == name
    ensures r[|now| + 3 + |name|..|now| + 6 + |name|] == " : "
    ensures r[|r| - |message|..] == message
  {
    "[" + now + "] " + name + " : " + message
  }

  /** The ban notice: the bracketed time, `Server:`, the banned client's name, then `is banned`. */
  function BanNotice(now: Time, name: string): string {
    "[" + now + "] Server: " + name + " is banned"
  }

  /** The private reply a banned client gets for each line it sends. */
  function Refusal(now: Time): string {
    "[" + now + "] You cannot write to this chat"
  }

  /** The console line `Close` ends with. */
  function StoppedNotice(now: Time): string {
    "[" + now + "] Server stopped"
  }

  /**
   * A broadcast followed by a copy of the line on the console:
   * `ClientModel.SendMessage` and `Ban`. The log keeps what it had and ends
   * with the echo.
   */
  function Said(t: Trace, failing: set<Id>, ids: seq<Id>, line: string): (r: Trace)
    ensures |t.reports| < |r.reports| && r.reports[..|t.reports|] == t.reports
    ensures r.reports[|r.reports| - 1] == Echo(line)
  {
    Logged(Broadcast(t, failing, ids, line), Echo(line))
  }

  /**
   * Saying a line to distinct recipients delivers it once to each working
   * one, reports each failing one in index order, then echoes the line.
   */
  lemma SaidEffect(t: Trace, failing: set<Id>, ids: seq<Id>, line: string)
    requires NoDup(ids)
    ensures forall id ::
              Sent(Said(t, failing, ids, line), id)
                == Sent(t, id) + (if id in ids && id !in failing then [line] else [])
    ensures Said(t, failing, ids, line).reports == t.reports + Failures(ids, failing) + [Echo(line)]
  {
    forall id {
      BroadcastSent(t, failing, ids, line, id);
    }
    BroadcastReports(t, failing, ids, line);
  }

  /** What one pass of the receive loop of `Proceed` does to the trace; the log only grows. */
  function Handle(t: Trace, c: Ctx, item: Incoming): (r: Trace)
    ensures |t.reports| <= |r.reports| && r.reports[..|t.reports|] == t.reports
  {
    match item
    case Broken(at) =>
      Said(Logged(t, Fault(c.self)), c.failing, c.members, LeaveNotice(c.name, at))
    case Line(text, at) =>
      match React(text, c.stop, c.banned)
      case Quit => Said(t, c.failing, c.members, LeaveNotice(c.name, at))
      case Post => Said(t, c.failing, c.members, ChatLine(c.name, at, text))
      case Drop => t
      case Refuse =>
        if c.self in c.failing then
          Said(Logged(t, Fault(c.self)), c.failing, c.members, LeaveNotice(c.name, at))
        else
          Write(t, c.failing, c.self, Refusal(at))
  }

  /** The receive loop run over `items`, one pass per item, in order; the log only grows. */
  function Run(t: Trace, c: Ctx, items: seq<Incoming>): (r: Trace)
    ensures |t.reports| <= |r.reports| && r.reports[..|t.reports|] == t.reports
    decreases |items|
  {
    if items == [] then t
    else Handle(Run(t, c, items[..|items| - 1]), c, items[|items| - 1])
  }

  /**
   * Where the receive loop over `items`, started on trace `t`, leaves the
   * session: either it left after the first item that ends it, with the run
   * up to and including that item as trace `r`, or no item ended it and `r`
   * is the run over all of them.
   */
  predicate Looped(c: Ctx, items: seq<Incoming>, t: Trace, phase: Phase, r: Trace) {
    var n := FirstEnd(c, items);
    if n < |items| then phase == Left && r == Run(t, c, items[..n + 1])
    else phase == Chatting && r == Run(t, c, items)
  }

  /** The loop over the first `k + 1` items is the loop over the first `k`, then one more pass. */
  lemma RunStep(t: Trace, c: Ctx, items: seq<Incoming>, k: nat)
    requires k < |items|
    ensures Run(t, c, items[..k + 1]) == Handle(Run(t, c, items[..k]), c, items[k])
  {
    assert items[..k + 1][..k] == items[..k];
  }

  /**
   * An unbanned client's non-empty line reaches every working registered
   * client, the sender included, and is echoed on the console.
   */
  lemma HandlePost(t: Trace, c: Ctx, text: string, at: Time)
    requires NoDup(c.members) && !c.banned && text != c.stop && text != ""
    ensures !Ends(c, Line(text, at))
    ensures forall id ::
              Sent(Handle(t, c, Line(text, at)), id) == Sent(t, id)
                + (if id in c.members && id !in c.failing then [ChatLine(c.name, at, text)] else [])
    ensures Handle(t, c, Line(text, at)).reports
         == t.reports + Failures(c.members, c.failing) + [Echo(ChatLine(c.name, at, text))]
  {
    SaidEffect(t, c.failing, c.members, ChatLine(c.name, at, text));
  }

  /**
   * `BroadcastMessage` does not skip the sender: a registered, working,
   * unbanned client receives its own chat line back.
   */
  lemma SenderHearsItself(t: Trace, c: Ctx, text: string, at: Time)
    requires NoDup(c.members) && c.self in c.members && c.self !in c.failing
    requires !c.banned && text != c.stop && text != ""
    ensures Sent(Handle(t, c, Line(text, at)), c.self) == Sent(t, c.self) + [ChatLine(c.name, at, text)]
  {
    HandlePost(t, c, text, at);
  }

  /** An unbanned client's empty line is dropped: no broadcast, no reply, no console line. */
  lemma HandleDrop(t: Trace, c: Ctx, at: Time)
    requires !c.banned && c.stop != ""
    ensures !Ends(c, Line("", at))
    ensures Handle(t, c, Line("", at)) == t
  {
  }

  /** A banned client's line other than the sentinel reaches only the sender, as a refusal. */
  lemma HandleRefuse(t: Trace, c: Ctx, text: string, at: Time)
    requires c.banned && text != c.stop && c.self !in c.failing
    ensures !Ends(c, Line(text, at))
    ensures Sent(Handle(t, c, Line(text, at)), c.self) == Sent(t, c.self) + [Refusal(at)]
    ensures forall id :: id != c.self ==> Sent(Handle(t, c, Line(text, at)), id) == Sent(t, id)
    ensures Handle(t, c, Line(text, at)).reports == t.reports
  {
  }

  /**
   * On every exit the pass is the leave notice said after the exit's own
   * failure report: none for the sentinel, one for a failed receive or reply.
   */
  lemma ExitSays(t: Trace, c: Ctx, item: Incoming)
    requires Ends(c, item)
    ensures Handle(t, c, item)
         == Said(if item.Line? && item.text == c.stop then t else Logged(t, Fault(c.self)),
                 c.failing, c.members, LeaveNotice(c.name, item.at))
  {
  }

  /**
   * Every exit of the loop says one leave notice: to every working
   * registered client and on the console, after the failure reports.
   */
  lemma HandleExit(t: Trace, c: Ctx, item: Incoming)
    requires NoDup(c.members) && Ends(c, item)
    ensures forall id ::
              Sent(Handle(t, c, item), id) == Sent(t, id)
                + (if id in c.members && id !in c.failing then [LeaveNotice(c.name, item.at)] else [])
    ensures Handle(t, c, item).reports
         == t.reports + (if item.Line? && item.text == c.stop then [] else [Fault(c.self)])
              + Failures(c.members, c.failing) + [Echo(LeaveNotice(c.name, item.at))]
  {
    var t0 := if item.Line? && item.text == c.stop then t else Logged(t, Fault(c.self));
    ExitSays(t, c, item);
    SaidEffect(t0, c.failing, c.members, LeaveNotice(c.name, item.at));
  }

  /**
   * A banned client that has not left writes nothing to anyone else and
   * prints nothing on the console, however many lines it sends.
   */
  lemma {:induction false} BannedRunSilent(t: Trace, c: Ctx, items: seq<Incoming>)
    requires c.banned
    requires forall i :: 0 <= i < |items| ==> !Ends(c, items[i])
    ensures forall id :: id != c.self ==> Sent(Run(t, c, items), id) == Sent(t, id)
    ensures Run(t, c, items).reports == t.reports
    decreases |items|
  {
    if items != [] {
      var init, last := items[..|items| - 1], items[|items| - 1];
      BannedRunSilent(t, c, init);
      assert !Ends(c, last);
      HandleRefuse(Run(t, c, init), c, last.text, last.at);
    }
  }

  /** The chat lines an unbanned client's items produce, in order: one per non-empty line. */
  function Posted(name: string, items: seq<Incoming>): seq<string>
    decreases |items|
  {
    if items == [] then []
    else
      var last := items[|items| - 1];
      Posted(name, items[..|items| - 1])
        + (if last.Line? && last.text != "" then [ChatLine(name, last.at, last.text)] else [])
  }

  /**
   * An unbanned client that has not left has delivered to every working
   * registered client, itself included, exactly its non-empty lines, in the order it sent them, and
   * nothing else.
   */
  lemma {:induction false} UnbannedRunPosts(t: Trace, c: Ctx, items: seq<Incoming>)
    requires NoDup(c.members) && !c.banned
    requires forall i :: 0 <= i < |items| ==> !Ends(c, items[i])
    ensures forall id ::
              Sent(Run(t, c, items), id)
                == Sent(t, id) + (if id in c.members && id !in c.failing then Posted(c.name, items) else [])
    decreases |items|
  {
    if items != [] {
      var init, last := items[..|items| - 1], items[|items| - 1];
      UnbannedRunPosts(t, c, init);
      assert !Ends(c, last);
      if last.text != "" {
        HandlePost(Run(t, c, init), c, last.text, last.at);
      } else {
        HandleDrop(Run(t, c, init), c, last.at);
      }
    }
  }

  /**
   * A connection whose handshake fails is registered by its constructor and
   * never removed: it stays in the list after its session has ended.
   */
  method FailedHandshake(server: ServerModel, id: Id, at: Time) returns (client: ClientModel)
    modifies server, server.host, server.host.links
    ensures fresh(client) && client.Id == id
    ensures server.clients == old(server.clients) + [client]
    ensures server.host.trace == Logged(old(server.host.trace), Fault(id))
    ensures server.host.links.closed == old(server.host.links.closed)
  {
    client := new ClientModel(id, server);
    var phase := client.Proceed([Broken(at)]);
  }

  class ClientModel {
    /** Assigned once by the constructor from `Guid.NewGuid()`; it never changes. */
    const Id: Id
    const server: ServerModel
    /** `null` until the first line arrives; C# interpolates that as the empty string. */
    var Name: string
    var IsBanned: bool
    /** How many times `Close` has closed this client's connection. */
    var closes: nat

    /** A new client registers itself at once, before it has a name. */
    constructor (id: Id, server: ServerModel)
      modifies server
      ensures Id == id && this.server == server
      ensures Name == "" && !IsBanned && closes == 0
      ensures server.clients == old(server.clients) + [this] && server.stopped == old(server.stopped)
      ensures server.Ids() == old(server.Ids()) + [id]
      ensures server.Owned() == old(server.Owned())
    {
      Id := id;
      this.server := server;
      Name := "";
      IsBanned := false;
      closes := 0;
      new;
      server.AddClient(this);
    }

    /** What the receive loop depends on, in the current state. */
    function Context(): Ctx
      reads this, server, server.host.links
    {
      Ctx(Id, Name, IsBanned, server.host.stopCode, server.host.Failing(), server.Ids())
    }

    /** Closes the connection, `tcpClient.Close()` and `Stream.Close()`: later writes to it throw. */
    method Close()
      modifies this, server.host.links
      ensures closes == old(closes) + 1
      ensures Name == old(Name) && IsBanned == old(IsBanned)
      ensures server.host.links.closed == old(server.host.links.closed) + {Id}
    {
      server.host.links.Close(Id);
      closes := closes + 1;
    }

    /** Broadcasts the line with this client as the sender, then prints it on the console. */
    method SendMessage(message: string)
      modifies server.host
      ensures server.host.trace == Said(old(server.host.trace), server.host.Failing(), server.Ids(), message)
    {
      server.BroadcastMessage(message, Id);
      server.host.Log(Echo(message));
    }

    /**
     * The handshake: the first line becomes the name and everyone, this
     * client included, is told it joined. A failed receive is reported; the
     * client stays registered either way.
     */
    method EnterChat(first: Incoming) returns (ok: bool)
      modifies this, server.host
      ensures ok <==> first.Line?
      ensures IsBanned == old(IsBanned) && closes == old(closes)
      ensures ok ==> Name == first.text
      ensures ok ==>
                server.host.trace == Said(old(server.host.trace), server.host.Failing(), server.Ids(), JoinNotice(first.text, first.at))
      ensures !ok ==> Name == old(Name) && server.host.trace == Logged(old(server.host.trace), Fault(Id))
    {
      match first
      case Broken(_) =>
        server.host.Log(Fault(Id));
        return false;
      case Line(text, at) =>
        Name := text;
        SendMessage(JoinNotice(Name, at));
        return true;
    }

    /** One pass of the receive loop; `done` says whether the loop breaks. */
    method HandleItem(item: Incoming, ghost c: Ctx) returns (done: bool)
      requires c == Context()
      modifies server.host
      ensures done == Ends(c, item)
      ensures server.host.trace == Handle(old(server.host.trace), c, item)
    {
      match item
      case Broken(at) =>
        server.host.Log(Fault(Id));
        SendMessage(LeaveNotice(Name, at));
        done := true;
      case Line(msg, at) =>
        if msg == server.host.stopCode {
          SendMessage(LeaveNotice(Name, at));
          done := true;
        } else if !IsBanned {
          if msg != "" {
            SendMessage(ChatLine(Name, at, msg));
          }
          done := false;
        } else {
          var ok := server.host.Send(Id, Refusal(at));
          if ok {
            done := false;
          } else {
            server.host.Log(Fault(Id));
            SendMessage(LeaveNotice(Name, at));
            done := true;
          }
        }
    }

    /**
     * The whole session over the items received so far. After a successful
     * handshake the loop handles one item at a time until one ends it; the
     * client then removes itself and closes its connection, once each. After
     * a failed handshake nothing more happens and the client stays in the
     * list. When the items run out first, the session is still waiting in
     * `ReceiveMessage`.
     */
    method Proceed(items: seq<Incoming>) returns (phase: Phase)
      modifies this, server, server.host, server.host.links
      ensures IsBanned == old(IsBanned) && server.stopped == old(server.stopped)
      ensures phase != Left ==> server.host.links.closed == old(server.host.links.closed)
      ensures phase == Left ==> server.host.links.closed == old(server.host.links.closed) + {Id}
      ensures |items| == 0 ==> phase == AwaitingName && Name == old(Name) && closes == old(closes)
      ensures |items| == 0 ==> server.clients == old(server.clients) && server.host.trace == old(server.host.trace)
      ensures |items| > 0 && items[0].Broken? ==> phase == Refused && Name == old(Name) && closes == old(closes)
      ensures |items| > 0 && items[0].Broken? ==>
                server.clients == old(server.clients) && server.host.trace == Logged(old(server.host.trace), Fault(Id))
      ensures |items| > 0 && items[0].Line? ==>
                var c := Ctx(Id, items[0].text, old(IsBanned), server.host.stopCode, old(server.host.Failing()), old(server.Ids()));
                var joined := Said(old(server.host.trace), c.failing, c.members, JoinNotice(c.name, items[0].at));
                Name == items[0].text && Looped(c, items[1..], joined, phase, server.host.trace)
      ensures |items| > 0 && items[0].Line? && phase == Left ==>
                server.Ids() == Without(old(server.Ids()), Id) && closes == old(closes) + 1 &&
                (old(server.UniqueIds()) ==> server.UniqueIds() && Id !in server.Ids())
      ensures |items| > 0 && items[0].Line? && phase == Chatting ==>
                server.clients == old(server.clients) && closes == old(closes)
    {
      if |items| == 0 {
        return AwaitingName;
      }
      var ok := EnterChat(items[0]);
      if !ok {
        return Refused;
      }
      ghost var c := Ctx(Id, items[0].text, old(IsBanned), server.host.stopCode, server.host.Failing(), old(server.Ids()));
      assert server.Ids() == old(server.Ids());
      ghost var joined := server.host.trace;
      assert joined == Said(old(server.host.trace), c.failing, c.members, JoinNotice(c.name, items[0].at));
      phase := Converse(items[1..], c);
    }

    /** The session after the handshake: the receive loop, then the teardown if the loop exited. */
    method Converse(items: seq<Incoming>, ghost c: Ctx) returns (phase: Phase)
      requires c == Context()
      modifies this, server, server.host, server.host.links
      ensures Name == old(Name) && IsBanned == old(IsBanned) && server.stopped == old(server.stopped)
      ensures Looped(c, items, old(server.host.trace), phase, server.host.trace)
      ensures phase == Left ==>
                server.Ids() == Without(old(server.Ids()), Id) &&
                server.clients == (match FirstIndex(old(server.Ids()), Id)
                                   case None => old(server.clients)
                                   case Some(k) => RemoveAt(old(server.clients), k)) &&
                (old(server.UniqueIds()) ==> server.UniqueIds() && Id !in server.Ids()) &&
                closes == old(closes) + 1 && server.host.links.closed == old(server.host.links.closed) + {Id}
      ensures phase != Left ==>
                server.clients == old(server.clients) && closes == old(closes) &&
                server.host.links.closed == old(server.host.links.closed)
    {
      var left, handled := ChatLoop(items, c);
      if left {
        server.RemoveClient(Id);
        Close();
        phase := Left;
      } else {
        assert items[..handled] == items;
        phase := Chatting;
      }
    }

    /**
     * The `do { ... } while (true)` receive loop: one pass per item until an
     * item ends it. `left` says whether one did; `handled` counts the items
     * the loop has taken.
     */
    method ChatLoop(items: seq<Incoming>, ghost c: Ctx) returns (left: bool, handled: nat)
      requires c == Context()
      modifies server.host
      ensures left <==> FirstEnd(c, items) < |items|
      ensures handled == if left then FirstEnd(c, items) + 1 else |items|
      ensures server.host.trace == Run(old(server.host.trace), c, items[..handled])
    {
      handled, left := 0, false;
      while !left && handled < |items|
        invariant handled <= |items|
        invariant if left then handled == FirstEnd(c, items) + 1 else handled <= FirstEnd(c, items)
        invariant server.host.trace == Run(old(server.host.trace), c, items[..handled])
      {
        RunStep(old(server.host.trace), c, items, handled);
        left := HandleItem(items[handled], c);
        handled := handled + 1;
      }
      assert !left ==> items[..handled] == items;
    }
  }

  class ServerModel {
    const host: Host
    /** The registered clients, in the order they registered. */
    var clients: seq<ClientModel>
    /** Whether `Close` has stopped the listener. */
    var stopped: bool

    constructor (host: Host)
      ensures this.host == host && clients == [] && !stopped
    {
      this.host := host;
      clients := [];
      stopped := false;
    }

    /** The ids of the registered clients, in list order. */
    function Ids(): (r: seq<Id>)
      reads this
      ensures |r| == |clients|
      ensures forall i :: 0 <= i < |clients| ==> r[i] == clients[i].Id
    {
      var cs := clients;
      seq(|cs|, i requires 0 <= i < |cs| => cs[i].Id)
    }

    /** No id is registered twice. */
    predicate UniqueIds()
      reads this
    {
      NoDup(Ids())
    }

    /** Every registered client is one of this server's: only a client adds itself, to its own server. */
    predicate Owned()
      reads this
    {
      forall c :: c in clients ==> c.server == this
    }

    /** The first listed client with this id, or `null` when there is none. */
    function Lookup(id: Id): (c: ClientModel?)
      reads this
      ensures c == null <==> forall i :: 0 <= i < |clients| ==> clients[i].Id != id
      ensures c != null ==>
                exists k :: 0 <= k < |clients| && clients[k] == c && c.Id == id &&
                  forall j :: 0 <= j < k ==> clients[j].Id != id
    {
      match FirstIndex(Ids(), id)
      case None => null
      case Some(k) => clients[k]
    }

    /** Appends the client, with no duplicate check; ids stay unique exactly when its id is new. */
    method AddClient(client: ClientModel)
      modifies this
      ensures clients == old(clients) + [client] && stopped == old(stopped)
      ensures Ids() == old(Ids()) + [client.Id]
      ensures UniqueIds() <==> old(UniqueIds()) && client.Id !in old(Ids())
      ensures Owned() <==> old(Owned()) && client.server == this
    {
      clients := clients + [client];
      assert Ids() == old(Ids()) + [client.Id];
      NoDupAppend(old(Ids()), client.Id);
    }

    /** Removes the first client with this id; an absent id changes nothing. */
    method RemoveClient(id: Id)
      modifies this
      ensures stopped == old(stopped)
      ensures clients == match FirstIndex(old(Ids()), id)
                         case None => old(clients)
                         case Some(k) => RemoveAt(old(clients), k)
      ensures Ids() == Without(old(Ids()), id)
      ensures old(UniqueIds()) ==> UniqueIds() && id !in Ids()
      ensures old(Owned()) ==> Owned()
    {
      var client := Lookup(id);
      if client != null {
        var k := FirstIndex(Ids(), id).value;
        // `List.Remove` takes out the first occurrence of the object, which is at `k`.
        assert forall j :: 0 <= j < k ==> clients[j] != client;
        clients := RemoveAt(clients, k);
        assert Ids() == RemoveAt(old(Ids()), k);
      }
      if old(UniqueIds()) {
        WithoutUnique(old(Ids()), id);
      }
    }

    /**
     * One send per registered client, in index order, the sender included:
     * `senderId` plays no part. A failure is printed and the loop goes on;
     * nobody is removed.
     */
    method BroadcastMessage(message: string, senderId: Id)
      modifies host
      ensures host.trace == Broadcast(old(host.trace), host.Failing(), Ids(), message)
    {
      var i := 0;
      while i < |clients|
        invariant 0 <= i <= |clients|
        invariant host.trace == Broadcast(old(host.trace), host.Failing(), Ids()[..i], message)
      {
        assert Ids()[..i + 1][..i] == Ids()[..i];
        var ok := host.Send(clients[i].Id, message);
        if !ok {
          host.Log(Fault(clients[i].Id));
        }
        i := i + 1;
      }
      assert Ids()[..i] == Ids();
    }

    /** Bans the client when it is registered and not banned, and says so to everyone and on the console. */
    method Ban(id: Id, now: Time)
      modifies clients, host
      ensures clients == old(clients) && stopped == old(stopped)
      ensures var c := Lookup(id); c != null ==> c.IsBanned
      ensures forall d :: d in clients && d != Lookup(id) ==> d.IsBanned == old(d.IsBanned)
      ensures forall d :: d in clients ==> d.Name == old(d.Name) && d.closes == old(d.closes)
      ensures var c := Lookup(id);
              host.trace == if c != null && !old(c.IsBanned)
                            then Said(old(host.trace), host.Failing(), Ids(), BanNotice(now, c.Name))
                            else old(host.trace)
    {
      var client := Lookup(id);
      if client != null && !client.IsBanned {
        client.IsBanned := true;
        var msg := BanNotice(now, client.Name);
        BroadcastMessage(msg, "");
        host.Log(Echo(msg));
      }
    }

    /** A second `Ban` of the same id sends no notice and changes nothing. */
    method BanTwice(id: Id, first: Time, second: Time)
      modifies clients, host
      ensures clients == old(clients)
      ensures forall d :: d in clients ==> d.Name == old(d.Name) && d.closes == old(d.closes)
      ensures var c := Lookup(id);
              host.trace == if c != null && !old(c.IsBanned)
                            then Said(old(host.trace), host.Failing(), Ids(), BanNotice(first, c.Name))
                            else old(host.trace)
    {
      Ban(id, first);
      ghost var between := host.trace;
      Ban(id, second);
      assert host.trace == between;
    }

    /**
     * After `Close` the clients are still listed but their connections are
     * closed: a `Ban` that follows writes nothing to any connection.
     */
    method CloseThenBan(id: Id, first: Time, second: Time)
      requires Owned()
      modifies this, host, clients, host.links
      ensures clients == old(clients) && stopped
      ensures forall x :: Sent(host.trace, x) == Sent(old(host.trace), x)
    {
      Close(first);
      ghost var closed := host.trace;
      Ban(id, second);
      forall x ensures Sent(host.trace, x) == Sent(closed, x) {
        var c := Lookup(id);
        if c != null && host.trace != closed {
          BroadcastSkips(closed, host.Failing(), Ids(), BanNotice(second, c.Name), x);
        }
      }
    }

    /** The loop of `Close` that closes every registered client's connection, in index order. */
    method CloseEach()
      requires Owned()
      modifies clients, host.links
      ensures forall c :: c in clients ==> c.closes == old(c.closes) + multiset(clients)[c]
      ensures forall c :: c in clients ==> c.Name == old(c.Name) && c.IsBanned == old(c.IsBanned)
      ensures host.links.closed == old(host.links.closed) + Members(Ids())
    {
      var i := 0;
      while i < |clients|
        invariant 0 <= i <= |clients|
        invariant forall c :: c in clients ==> c.closes == old(c.closes) + multiset(clients[..i])[c]
        invariant forall c :: c in clients ==> c.Name == old(c.Name) && c.IsBanned == old(c.IsBanned)
        invariant host.links.closed == old(host.links.closed) + Members(Ids()[..i])
      {
        assert clients[..i + 1] == clients[..i] + [clients[i]];
        assert Ids()[..i + 1] == Ids()[..i] + [clients[i].Id];
        clients[i].Close();
        i := i + 1;
      }
      assert clients[..i] == clients;
      assert Ids()[..i] == Ids();
    }

    /**
     * Shutdown: every client's connection is closed and the listener stops.
     * No client is sent the sentinel and the list keeps its clients, whose
     * connections now throw on every later write.
     */
    method Close(now: Time)
      requires Owned()
      modifies this, host, clients, host.links
      ensures clients == old(clients) && stopped
      ensures host.links.closed == old(host.links.closed) + Members(Ids())
      ensures forall c :: c in clients ==> c.closes == old(c.closes) + multiset(clients)[c]
      ensures forall c :: c in clients ==> c.Name == old(c.Name) && c.IsBanned == old(c.IsBanned)
      ensures forall id :: Sent(host.trace, id) == Sent(old(host.trace), id)
      ensures host.trace.reports == old(host.trace.reports) + [Echo(StoppedNotice(now))]
    {
      CloseEach();
      stopped := true;
      host.Log(Echo(StoppedNotice(now)));
    }
  }
}
