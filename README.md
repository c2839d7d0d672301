# Broadcast chat server core in Dafny

This project models the server side of a TCP broadcast chat. The repository
has two server variants that share one design: the WPF server
(`ServerWPF/Model`) and the console server (`Server/Model`).

Each `ServerModel` keeps a `List<ClientModel>` of registered clients. It
broadcasts lines to them in index order. It bans clients, and the WPF variant
also unbans them and sends private server lines. It shuts the clients down.

Each accepted connection gets one `ClientModel`, which runs the session:

- The first received line becomes the client's name, and everyone is told the client joined.
- The receive loop then handles one line at a time:
  - the termination sentinel `STOP_CODE` leaves the chat;
  - an unbanned client's non-empty line goes to everyone;
  - an unbanned client's empty line is dropped;
  - a banned client gets a private "You cannot write to this chat" reply;
  - a transport failure is reported and leaves the chat.
- After the loop the client removes itself from the list and closes its connection.

The model is sequential: each call is atomic. Five modules make it up.

- `Registry`: the client list seen through its ids. It defines the first-match lookup `FirstIndex` and the first-match removal `Without`. It proves:
  - ids stay unique when an added id is new;
  - with unique ids, removal takes an id out for good and is idempotent;
  - from unique ids, any run of additions of fresh ids and removals keeps the ids unique and leaves exactly the live ids (`ReplayLive`).
- `Transport`: the outside world as a value `Trace`. It holds an outbox per connection (`map<Id, seq<string>>`) and a log of operator reports (`Fault(id)` for a failed transport call, `Echo(line)` for a line printed on the console).
  - A set of failing connections stands for the transport's exceptions. It holds a fixed set of broken connections and every connection closed so far. The closed ones are kept by a `Links` object, so a write to a closed connection throws.
  - `Broadcast` is the effect of one broadcast loop. Its lemmas say that every working recipient gets the line exactly once and every failing one is reported once, in index order.
  - The class `Host` holds the current trace, the broken set, the `Links` and `STOP_CODE`.
  - Connections are keyed by client id. Two clients with the same id therefore share one outbox and one failure status. The lemmas that count deliveries require distinct ids.
- `Session`: the received items (`Line(text, at)` or `Broken(at)`), the decision `React` that both receive loops make, the exit condition `Ends` and its first index `FirstEnd`.
- `WpfServer` and `ConsoleServer`: one module per variant. Each has the classes `ServerModel` and `ClientModel` with their fields, and `modifies`/`reads` frames.
  - Every method that changes state is proved against a specification: the list after the call, the trace as a `Broadcast` or `Run` of the one before, and the flags and counters of the clients.
  - The spec functions `Handle` (one pass of the receive loop) and `Run` (the loop over a sequence of items) carry the session lemmas. The predicate `Looped` says where the loop over a sequence of items leaves the session.
  - `ServerModel.Close` closes each listed client through the client's own `Close`. It requires every listed client to belong to this server (`Owned`). That holds in every reachable state, because a client only ever adds itself, and only to its own server. `AddClient` and `RemoveClient` state how they affect it.

`DateTime.Now` is an opaque `Time` string. Each received item carries its own,
and the server's operations take one as a parameter. `Guid.NewGuid()` is the
constructor's `id` parameter. `STOP_CODE` is `Host.stopCode`.

### How the two variants differ

Each difference is stated by its own contract:

- **Registration.**
  - The WPF client registers in `EnterChat`, after it has its name. After a failed handshake it was never registered (`WpfServer.ClientModel.Proceed`, `WpfServer.FailedHandshake`).
  - The console client registers in its constructor. A failed handshake leaves it in the list for good (`ConsoleServer.ClientModel.constructor`, `ConsoleServer.ClientModel.Proceed`, `ConsoleServer.FailedHandshake`).
- **Shutdown.**
  - WPF `Close` sends `STOP_CODE` to every client, closes them and empties the list (`WpfServer.ServerModel.Close`).
  - Console `Close` closes every client and prints one line. It sends nothing to any connection and keeps the list (`ConsoleServer.ServerModel.Close`). The listed clients' connections are closed, so a later broadcast reaches none of them (`ConsoleServer.ServerModel.CloseThenBan`).
- **Broadcast.**
  - Console `BroadcastMessage` takes a sender id and ignores it. The sender hears its own line (`ConsoleServer.ServerModel.BroadcastMessage`, `ConsoleServer.SenderHearsItself`).
  - Every console session line is also echoed on the console (`ConsoleServer.ClientModel.SendMessage`, `ConsoleServer.SaidEffect`).
- **Private lines.** Only the WPF server has a server-to-client `SendMessage` and an `Unban`.

## Model

| member | source | states |
|---|---|---|
| Registry.FirstIndex | ServerWPF/Model/ServerModel.cs:168-171 | the lookup finds nothing exactly when the id is absent; otherwise it finds a position holding the id with no earlier position holding it (first match) |
| Registry.Without | ServerWPF/Model/ServerModel.cs:188-197 | removing an absent id changes nothing; removing a present id shortens the list by one and takes away exactly one occurrence of it |
| Registry.NoDupAppend | ServerWPF/Model/ServerModel.cs:177-182 | appending keeps ids unique if and only if they were unique and the new id is absent |
| Registry.RemoveAtNoDup | ServerWPF/Model/ServerModel.cs:194 | taking one client out of a list with unique ids keeps them unique |
| Registry.RemoveAtMembers | ServerWPF/Model/ServerModel.cs:194 | with unique ids, what is left after taking out one entry is every other id |
| Registry.WithoutUnique | ServerWPF/Model/ServerModel.cs:188-197 | with unique ids, removal keeps ids unique, leaves the removed id absent, and leaves exactly the other ids |
| Registry.WithoutIdempotent | ServerWPF/Model/ServerModel.cs:188-197 | with unique ids, removing an id twice is the same as removing it once |
| Registry.FirstIndexAppended | ServerWPF/Model/ServerModel.cs:168-182 | a fresh id appended at the end is found at the end |
| Registry.WithoutAppended | ServerWPF/Model/ClientModel.cs:117-133 | registering a fresh id and then removing it restores the ids |
| Registry.ReplayLive | ServerWPF/Model/ServerModel.cs:177-197 | any run of additions of fresh ids and removals keeps ids unique and leaves exactly the ids added and not removed since |
| Transport.Host.Send | ServerWPF/Model/ServerModel.cs:207-210 | a write succeeds exactly when the connection is neither broken nor closed; a successful write appends the line to that connection's outbox only |
| Transport.Host.Log | ServerWPF/Model/ServerModel.cs:236-239 | one report is appended to the operator log |
| Transport.Links.Close | ServerWPF/Model/ClientModel.cs:149-153 | the connection joins the closed ones, so every later write to it throws |
| Transport.Write | ServerWPF/Model/ServerModel.cs:209 | a write appends the line to the connection's outbox exactly when the connection does not fail, leaves every other outbox unchanged, and adds no report |
| Transport.Attempt | ServerWPF/Model/ServerModel.cs:207-214 | a write inside the try/catch: a working connection gets the line and nothing is reported; a failing one gets nothing and is reported once |
| Transport.Broadcast | ServerWPF/Model/ServerModel.cs:203-216 | one attempt per recipient, in index order; the log keeps what it had and grows by at most one report per recipient |
| Transport.Failures | ServerWPF/Model/ServerModel.cs:211-214 | a broadcast reports at most one failure per recipient, and only failing recipients |
| Transport.BroadcastSent | ServerWPF/Model/ServerModel.cs:203-216 | over distinct recipients, each working recipient gets the line exactly once, whatever happens to the others; no other outbox changes |
| Transport.BroadcastReports | ServerWPF/Model/ServerModel.cs:205-215 | a broadcast adds to the log exactly the failing recipients, in index order |
| Transport.FailuresExactly | ServerWPF/Model/ServerModel.cs:211-214 | a connection is reported by a broadcast if and only if it is a recipient and it fails |
| Transport.BroadcastSkips | ServerWPF/Model/ServerModel.cs:205-215 | a broadcast writes nothing to a connection that fails or is not a recipient, whether or not ids repeat |
| Transport.BroadcastSplit | ServerWPF/Model/ServerModel.cs:205-215 | a broadcast to a list in two parts is a broadcast to the first part followed by one to the second |
| Session.React | ServerWPF/Model/ClientModel.cs:90-107 | each of the four reactions happens exactly under its condition: sentinel, unbanned non-empty line, unbanned empty line, banned non-sentinel line |
| Session.EndsExactly | ServerWPF/Model/ClientModel.cs:86-114 | the loop exits exactly on a receive failure, on the sentinel, or on a banned client's line whose private reply fails to send |
| Session.FirstEnd | ServerWPF/Model/ClientModel.cs:84-115 | the loop exits on the first item that ends it: no earlier item does, and the one found does |
| WpfServer.GetMessageToSend | ServerWPF/Model/ClientModel.cs:70-73 | the line is the bracketed time, then the name, then the message, each recoverable by position, with the total length fixed by the three |
| WpfServer.Handle | ServerWPF/Model/ClientModel.cs:86-114 | one pass of the loop on one item, with each branch of the source: the operator log only grows |
| WpfServer.Run | ServerWPF/Model/ClientModel.cs:84-115 | the loop over a sequence of items, one pass per item in order: the operator log only grows |
| WpfServer.RunStep | ServerWPF/Model/ClientModel.cs:84-115 | the loop over one more item is one more pass after the loop so far |
| WpfServer.HandlePost | ServerWPF/Model/ClientModel.cs:96-102 | an unbanned non-empty line does not end the loop, reaches every working member exactly once and reports exactly the failing members |
| WpfServer.HandleDrop | ServerWPF/Model/ClientModel.cs:96-103 | an unbanned empty line does not end the loop and changes nothing at all |
| WpfServer.HandleRefuse | ServerWPF/Model/ClientModel.cs:104-107 | a banned client's non-sentinel line, empty or not, on a working connection does not end the loop; it gives the sender the refusal and nothing else to anyone |
| WpfServer.ExitBroadcasts | ServerWPF/Model/ClientModel.cs:90-114 | every exit is the leave broadcast, preceded by the exit's own failure report unless the item is the sentinel |
| WpfServer.HandleExit | ServerWPF/Model/ClientModel.cs:90-114 | every exit sends one leave notice to every working member; a receive or reply failure is reported before the broadcast's own failures |
| WpfServer.BannedRunSilent | ServerWPF/Model/ClientModel.cs:104-107 | however many lines a banned client sends before leaving, nobody else receives anything and nothing is reported |
| WpfServer.UnbannedRunPosts | ServerWPF/Model/ClientModel.cs:84-115 | before it leaves, an unbanned client has delivered to every working member exactly its non-empty lines, in order, stamped and named |
| WpfServer.FailedHandshake | ServerWPF/Model/ClientModel.cs:128-144 | a connection whose first receive fails is reported and is never in the list |
| WpfServer.ClientModel.constructor | ServerWPF/Model/ClientModel.cs:48-63 | the id is assigned once (a constant); the client starts unnamed and unbanned |
| WpfServer.ClientModel.Close | ServerWPF/Model/ClientModel.cs:149-153 | the connection is closed once more and joins the closed connections, so every later write to it throws; name and flag are unchanged |
| WpfServer.ClientModel.EnterChat | ServerWPF/Model/ClientModel.cs:128-144 | on a line: the name is set, the client is appended to the list, and the join notice goes to everyone, itself included; on a failure: one report, and no change to the list or the name |
| WpfServer.ClientModel.HandleItem | ServerWPF/Model/ClientModel.cs:86-114 | one pass does exactly what `Handle` says and breaks exactly when the item ends the loop |
| WpfServer.ClientModel.ChatLoop | ServerWPF/Model/ClientModel.cs:84-115 | the loop stops exactly after the first ending item, or takes all items, and the trace is the run over what it took |
| WpfServer.ClientModel.Converse | ServerWPF/Model/ClientModel.cs:84-119 | the loop ends where `Looped` says; after it exits, the client object at the first index holding this id is taken out of the list, the order of the rest is kept, and the connection is closed, once each; otherwise the list, the close count and the closed connections are unchanged |
| WpfServer.ClientModel.Proceed | ServerWPF/Model/ClientModel.cs:78-121 | the whole session: no items means nothing happened; a failed handshake means one report, no registration and no close; otherwise the join notice, then the loop as `Looped` says; on exit the id is removed, the connection closed and, with a fresh id, the ids are as before |
| WpfServer.ServerModel.GetClientById | ServerWPF/Model/ServerModel.cs:168-171 | null exactly when no client has the id; otherwise the first client in list order with it |
| WpfServer.ServerModel.OnGotError | ServerWPF/Model/ServerModel.cs:236-239 | one report on the operator channel |
| WpfServer.ServerModel.AddClient | ServerWPF/Model/ServerModel.cs:177-182 | the client is appended and nothing else moves; ids stay unique exactly when its id is new; every client stays this server's exactly when the new one is |
| WpfServer.ServerModel.RemoveClient | ServerWPF/Model/ServerModel.cs:188-197 | the first client with the id is taken out and the order of the rest kept; an absent id changes nothing; unique ids stay unique and the id is gone; the remaining clients are still this server's |
| WpfServer.ServerModel.BroadcastMessage | ServerWPF/Model/ServerModel.cs:203-216 | one attempt per client in index order, each failure reported and the loop continued; the list is untouched |
| WpfServer.ServerModel.SendMessage | ServerWPF/Model/ServerModel.cs:116-128 | a server line to the first client with the id, only when there is one and the message is not null; a failure is swallowed |
| WpfServer.ServerModel.Ban | ServerWPF/Model/ServerModel.cs:136-146 | a registered unbanned client becomes banned and everyone gets one notice; otherwise nothing is sent; no other client's flag, name or list position changes |
| WpfServer.ServerModel.Unban | ServerWPF/Model/ServerModel.cs:152-161 | a registered banned client becomes unbanned and everyone gets one notice; otherwise nothing is sent; no other client's flag changes |
| WpfServer.ServerModel.BanTwice | ServerWPF/Model/ServerModel.cs:136-146 | a second ban of the same id sends nothing more |
| WpfServer.ServerModel.BanThenUnban | ServerWPF/Model/ServerModel.cs:136-161 | unban after ban leaves the client unbanned and the others as they were; the ban notice is sent only if the client was not already banned |
| WpfServer.ServerModel.CloseEach | ServerWPF/Model/ServerModel.cs:224-227 | every listed client's connection is closed once per time it is listed, and every listed id joins the closed connections |
| WpfServer.ServerModel.Close | ServerWPF/Model/ServerModel.cs:221-230 | the sentinel is broadcast to the clients listed before, over the connections failing before; then every one of them is closed and its id joins the closed connections; the list ends empty and the listener is stopped |
| ConsoleServer.ChatLine | Server/Model/ClientModel.cs:80 | the chat line is the bracketed time, the name, then the message, each recoverable by position |
| ConsoleServer.Said | Server/Model/ClientModel.cs:128-132 | a broadcast with the line then printed: the log keeps what it had and ends with the echo |
| ConsoleServer.SaidEffect | Server/Model/ClientModel.cs:128-132 | a session line reaches each working client once, reports the failing ones in order, and is then printed on the console |
| ConsoleServer.Handle | Server/Model/ClientModel.cs:65-93 | one pass of the loop on one item, with each branch of the source: the console log only grows |
| ConsoleServer.Run | Server/Model/ClientModel.cs:63-94 | the loop over a sequence of items, one pass per item in order: the console log only grows |
| ConsoleServer.RunStep | Server/Model/ClientModel.cs:63-94 | the loop over one more item is one more pass after the loop so far |
| ConsoleServer.HandlePost | Server/Model/ClientModel.cs:75-82 | an unbanned non-empty line does not end the loop, reaches every working client exactly once and is printed after the failure reports |
| ConsoleServer.SenderHearsItself | Server/Model/ServerModel.cs:115-140 | the sender id is ignored: a registered, working, unbanned sender receives its own line |
| ConsoleServer.HandleDrop | Server/Model/ClientModel.cs:75-82 | an unbanned empty line does not end the loop and changes nothing at all |
| ConsoleServer.HandleRefuse | Server/Model/ClientModel.cs:83-86 | a banned client's non-sentinel line on a working connection gives the sender the refusal and nothing else, not even a console line |
| ConsoleServer.ExitSays | Server/Model/ClientModel.cs:69-93 | every exit is the leave notice said, preceded by the exit's own failure report unless the item is the sentinel |
| ConsoleServer.HandleExit | Server/Model/ClientModel.cs:69-93 | every exit sends one leave notice to every working client and prints it; a receive or reply failure is reported first |
| ConsoleServer.BannedRunSilent | Server/Model/ClientModel.cs:83-86 | however many lines a banned client sends before leaving, nobody else receives anything and nothing is printed |
| ConsoleServer.UnbannedRunPosts | Server/Model/ClientModel.cs:63-94 | before it leaves, an unbanned client has delivered to every working client, itself included, exactly its non-empty lines, in order |
| ConsoleServer.FailedHandshake | Server/Model/ClientModel.cs:51-100 | a connection whose first receive fails is reported and stays in the list |
| ConsoleServer.ClientModel.constructor | Server/Model/ClientModel.cs:33-52 | the id is assigned once and the client is appended to its own server's list at construction, unnamed |
| ConsoleServer.ClientModel.Close | Server/Model/ClientModel.cs:137-141 | the connection is closed once more and joins the closed connections, so every later write to it throws |
| ConsoleServer.ClientModel.SendMessage | Server/Model/ClientModel.cs:128-132 | a broadcast with this client as sender, then the line on the console |
| ConsoleServer.ClientModel.EnterChat | Server/Model/ClientModel.cs:107-122 | on a line: the name is set and the join notice is said to everyone; on a failure: one report and no other change |
| ConsoleServer.ClientModel.HandleItem | Server/Model/ClientModel.cs:65-93 | one pass does exactly what `Handle` says and breaks exactly when the item ends the loop |
| ConsoleServer.ClientModel.ChatLoop | Server/Model/ClientModel.cs:63-94 | the loop stops exactly after the first ending item, or takes all items, and the trace is the run over what it took |
| ConsoleServer.ClientModel.Converse | Server/Model/ClientModel.cs:63-98 | the loop ends where `Looped` says; after it exits, the client object at the first index holding this id is taken out of the list and the connection closed, once each, and unique ids stay unique without it; otherwise the list, the close count and the closed connections are unchanged |
| ConsoleServer.ClientModel.Proceed | Server/Model/ClientModel.cs:57-100 | the whole session: a failed handshake means one report, and the client stays listed with its connection open; otherwise the join notice, then the loop as `Looped` says; on exit the id is removed from the list and the connection closed and, with unique ids, the id is gone |
| ConsoleServer.ServerModel.Lookup | Server/Model/ServerModel.cs:102 | null exactly when no client has the id; otherwise the first client in list order with it |
| ConsoleServer.ServerModel.AddClient | Server/Model/ServerModel.cs:91-94 | the client is appended with no duplicate check; ids stay unique exactly when its id is new; every client stays this server's exactly when the new one is |
| ConsoleServer.ServerModel.RemoveClient | Server/Model/ServerModel.cs:100-108 | the first client with the id is taken out; an absent id changes nothing; unique ids stay unique and the id is gone; the remaining clients are still this server's |
| ConsoleServer.ServerModel.BroadcastMessage | Server/Model/ServerModel.cs:115-140 | one attempt per client in index order, the sender included, each failure printed and the loop continued; the list is untouched |
| ConsoleServer.ServerModel.Ban | Server/Model/ServerModel.cs:71-83 | a registered unbanned client becomes banned, everyone gets one notice and it is printed; otherwise nothing happens; no other client's flag changes |
| ConsoleServer.ServerModel.BanTwice | Server/Model/ServerModel.cs:71-83 | a second ban of the same id sends and prints nothing more |
| ConsoleServer.ServerModel.CloseThenBan | Server/Model/ServerModel.cs:71-155 | after `Close` the clients stay listed, and a `Ban` that follows writes nothing to any connection |
| ConsoleServer.ServerModel.CloseEach | Server/Model/ServerModel.cs:147-150 | every listed client's connection is closed once per time it is listed, and every listed id joins the closed connections |
| ConsoleServer.ServerModel.Close | Server/Model/ServerModel.cs:145-155 | every client is closed and its id joins the closed connections, and the listener is stopped; no connection receives anything, the list keeps its clients, and one line is printed |

## Left out

- `Listen` and its accept loop, the thread per connection, and the `File.Create`/`AddIPToList` handling of `ip.txt`. These are socket, thread and file I/O.
- Concurrency. Sessions run on their own threads in the source, with no locks on the list, and the model runs each call atomically. It therefore does not capture a `Ban`, `Unban` or `Close` that interleaves with a running session.
- WpfServer.ClientModel.Proceed: the banned flag and the registry are fixed for the whole run of the loop. A ban arriving mid-session is modelled by `HandleItem`, one item at a time, but not inside `Proceed`.
- ConsoleServer.ClientModel.Proceed: the banned flag and the registry are fixed for the whole run of the loop, as in the WPF variant.
- WpfServer.ClientModel.Proceed: on exit it states the ids left in the list, not which client objects remain. `WpfServer.ClientModel.Converse` states the objects. With a fresh id these are the ids from before the handshake.
- ConsoleServer.ClientModel.Proceed: on exit it states the ids left in the list, not which client objects remain. `ConsoleServer.ClientModel.Converse` states the objects.
- The line transport `Communication.Chat` and `NetworkStream`/`TcpClient`. A send either appends the line to the recipient's outbox or throws. It throws on a fixed set of broken connections and on every connection closed so far. A receive yields the next item of the session's input. Closing does not end a running session's receive, because sessions are not interleaved (see Concurrency).
- The constructors' `tcpClient.GetStream()` failure, and the null streams that follow from it. The model assumes every connection has a stream.
- The text of the error reports, which contain the exception message. In the WPF server only the report of `BroadcastMessage` ends with a newline; the reports of `ClientModel` do not. The model reports `Fault(id)`. The `GotError` event and the console both become the operator log.
- `ClientConnected`, `ClientDisconnected`, `PropertyChanged` and the rest of the event plumbing, the WPF view models, views and converters, and the client program.
- The formatting of `DateTime.Now`. Times are opaque strings.
- A session whose input runs out without a sentinel or a failure. The model treats it as still waiting in `ReceiveMessage`, so `Proceed` then reports `Chatting` or `AwaitingName`.
- Connections are told apart by client id, not by stream. Where two listed clients share an id, the source writes once to each of their streams. The model then appends both lines to the one outbox of that id, and closing one closes the other. So the model is exact only with unique ids, which `Guid.NewGuid()` provides. The delivery lemmas (`BroadcastSent`, `HandlePost`, `UnbannedRunPosts` and their kin) require distinct ids. The registry contracts state what holds with a fresh id as implications.
