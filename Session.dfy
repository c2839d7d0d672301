/**
 * What both variants of `ClientModel.Proceed` share: the items a session
 * receives, the rule that decides what one received line does, and the
 * condition that ends the receive loop.
 */
module Session {
  import opened Registry
  import opened Transport

  /**
   * One outcome of `chat.ReceiveMessage(Stream)`: a line, or a transport
   * exception. `at` is the time the server handles it.
   */
  datatype Incoming = Line(text: string, at: Time) | Broken(at: Time)

  /** What a received line asks for. */
  datatype Reaction =
    | Quit    // the termination sentinel: leave the chat
    | Post    // broadcast the line to everyone
    | Drop    // an empty line from an unbanned client: nothing at all
    | Refuse  // a banned client: a private "cannot write" reply

  /** The branches of the receive loop, in the order the source tests them. */
  function React(text: string, stop: string, banned: bool): (r: Reaction)
    ensures r == Quit <==> text == stop
    ensures r == Post <==> text != stop && !banned && text != ""
    ensures r == Drop <==> text != stop && !banned && text == ""
    ensures r == Refuse <==> text != stop && banned
  {
    if text == stop then Quit
    else if !banned then (if text != "" then Post else Drop)
    else Refuse
  }

  /**
   * Everything one run of the receive loop depends on: the client's id, name
   * and banned flag, the sentinel, the failing connections and the ids of the
   * registry while the loop runs.
   */
  datatype Ctx = Ctx(self: Id, name: string, banned: bool, stop: string, failing: set<Id>, members: seq<Id>)

  /**
   * The loop exits after this item: on the sentinel, on a receive failure, and
   * when the private reply to a banned client throws because its own
   * connection fails.
   */
  predicate Ends(c: Ctx, item: Incoming)
  {
    match item
    case Broken(_) => true
    case Line(text, _) =>
      var r := React(text, c.stop, c.banned);
      r == Quit || (r == Refuse && c.self in c.failing)
  }

  /**
   * The three exits of the loop, stated without `React`: a receive failure,
   * the sentinel, or any other line from a banned client whose own
   * connection fails.
   */
  lemma EndsExactly(c: Ctx, item: Incoming)
    ensures Ends(c, item) <==> item.Broken? || item.text == c.stop || (c.banned && c.self in c.failing)
  {
  }

  /** The index of the item the loop exits on, or `|items|` when no item ends it. */
  function FirstEnd(c: Ctx, items: seq<Incoming>): (n: nat)
    ensures n <= |items|
    ensures forall i :: 0 <= i < n ==> !Ends(c, items[i])
    ensures n < |items| ==> Ends(c, items[n])
  {
    if items == [] then 0
    else if Ends(c, items[0]) then 0
    else 1 + FirstEnd(c, items[1..])
  }

  /**
   * Where a session stands after the items received so far: still waiting for
   * the name, turned away because receiving the name failed, in the chat, or
   * gone after its loop exited.
   */
  datatype Phase = AwaitingName | Refused | Chatting | Left
}
