/**
  A consuming service: its database with the inbox table that deduplicates deliveries.
  Every delivery is one database transaction that commits or aborts as a whole.
*/
module Messaging {
  import opened Commerce

  datatype Node<D> = Node(db: D, inbox: set<EventId>)

  /** One input of a service: a delivery attempt, or a change that no event caused. */
  datatype Input<!D> =
    | Delivery(message: Message, commits: bool)
    | Local(change: D -> D)

  /**
    A committed delivery. An id found in the inbox is skipped, an event type without a handler is
    ignored without being recorded, anything else is handled and recorded in the same transaction.
  */
  function Receive<D>(accepts: Message -> bool, handle: (D, Message) -> D, node: Node<D>, m: Message): Node<D> {
    if m.event.id in node.inbox || !accepts(m) then node
    else Node(handle(node.db, m), node.inbox + {m.event.id})
  }

  function Absorb<D>(accepts: Message -> bool, handle: (D, Message) -> D, node: Node<D>, input: Input<D>): Node<D> {
    match input
    case Local(change) => node.(db := change(node.db))
    case Delivery(m, commits) => if commits then Receive(accepts, handle, node, m) else node
  }

  function Run<D>(accepts: Message -> bool, handle: (D, Message) -> D, node: Node<D>, inputs: seq<Input<D>>): Node<D> {
    if |inputs| == 0 then node
    else Absorb(accepts, handle, Run(accepts, handle, node, inputs[..|inputs| - 1]), inputs[|inputs| - 1])
  }

  /** A delivery attempt that committed, for an event type with a handler. */
  predicate Counts<D>(accepts: Message -> bool, input: Input<D>) {
    input.Delivery? && input.commits && accepts(input.message)
  }

  /** Input i is a local change, or the first committed handling of its event. */
  predicate First<D>(accepts: Message -> bool, inputs: seq<Input<D>>, i: nat)
    requires i < |inputs|
  {
    inputs[i].Local? ||
    (Counts(accepts, inputs[i]) &&
     forall j :: 0 <= j < i && Counts(accepts, inputs[j]) ==> inputs[j].message.event.id != inputs[i].message.event.id)
  }

  /** The inputs without repeats, aborted attempts and ignored events. */
  function Firsts<D>(accepts: Message -> bool, inputs: seq<Input<D>>): seq<Input<D>> {
    if |inputs| == 0 then []
    else
      var n := |inputs| - 1;
      if First(accepts, inputs, n) then Firsts(accepts, inputs[..n]) + [inputs[n]] else Firsts(accepts, inputs[..n])
  }

  /** Handling inputs one after another, with no inbox and no second thoughts. */
  function Replay<D>(handle: (D, Message) -> D, db: D, inputs: seq<Input<D>>): D {
    if |inputs| == 0 then db
    else
      var before := Replay(handle, db, inputs[..|inputs| - 1]);
      match inputs[|inputs| - 1]
      case Local(change) => change(before)
      case Delivery(m, _) => handle(before, m)
  }

  /** An id is in the inbox exactly when a delivery of it was handled and committed. */
  lemma {:induction false} InboxHoldsHandled<D>(accepts: Message -> bool, handle: (D, Message) -> D, db: D, inputs: seq<Input<D>>, id: EventId)
    ensures id in Run(accepts, handle, Node(db, {}), inputs).inbox <==>
            exists j :: 0 <= j < |inputs| && Counts(accepts, inputs[j]) && inputs[j].message.event.id == id
  {
    if |inputs| > 0 {
      var n := |inputs| - 1;
      var before := inputs[..n];
      InboxHoldsHandled(accepts, handle, db, before, id);
      assert forall j :: 0 <= j < n ==> inputs[j] == before[j];
    }
  }

  /**
    Exactly-once effect. Whatever deliveries are repeated, aborted or ignored, the database is the
    one that results from handling each distinct event once, in order of first committed handling.
  */
  lemma {:induction false} ExactlyOnce<D>(accepts: Message -> bool, handle: (D, Message) -> D, db: D, inputs: seq<Input<D>>)
    ensures Run(accepts, handle, Node(db, {}), inputs).db == Replay(handle, db, Firsts(accepts, inputs))
  {
    if |inputs| > 0 {
      var n := |inputs| - 1;
      ExactlyOnce(accepts, handle, db, inputs[..n]);
      var kept, last := Firsts(accepts, inputs[..n]), inputs[n];
      var node := Run(accepts, handle, Node(db, {}), inputs[..n]);
      assert forall j :: 0 <= j < n ==> inputs[..n][j] == inputs[j];
      if last.Delivery? {
        InboxHoldsHandled(accepts, handle, db, inputs[..n], last.message.event.id);
      }
      if First(accepts, inputs, n) {
        var all := kept + [last];
        assert all[..|all| - 1] == kept && all[|all| - 1] == last;
        assert Replay(handle, db, all) == Absorb(accepts, handle, node, last).db;
      } else {
        assert Absorb(accepts, handle, node, last) == node;
      }
    }
  }

  /** No event survives twice, and every event with a committed handling survives. */
  lemma {:induction false} FirstsAreDistinct<D>(accepts: Message -> bool, inputs: seq<Input<D>>)
    ensures forall i, j :: 0 <= i < j < |Firsts(accepts, inputs)| &&
                           Firsts(accepts, inputs)[i].Delivery? && Firsts(accepts, inputs)[j].Delivery? ==>
                           Firsts(accepts, inputs)[i].message.event.id != Firsts(accepts, inputs)[j].message.event.id
    ensures forall i :: 0 <= i < |Firsts(accepts, inputs)| && Firsts(accepts, inputs)[i].Delivery? ==>
                        Counts(accepts, Firsts(accepts, inputs)[i]) && Firsts(accepts, inputs)[i] in inputs
    ensures forall k :: 0 <= k < |inputs| && Counts(accepts, inputs[k]) ==>
                        exists i :: 0 <= i < |Firsts(accepts, inputs)| && Firsts(accepts, inputs)[i].Delivery? &&
                                    Firsts(accepts, inputs)[i].message.event.id == inputs[k].message.event.id
  {
    if |inputs| > 0 {
      var n := |inputs| - 1;
      var before := inputs[..n];
      FirstsAreDistinct(accepts, before);
      var kept, all := Firsts(accepts, before), Firsts(accepts, inputs);
      assert forall j :: 0 <= j < n ==> inputs[j] == before[j];
      assert forall i :: 0 <= i < |kept| ==> all[i] == kept[i];
      forall k | 0 <= k < |inputs| && Counts(accepts, inputs[k])
        ensures exists i :: 0 <= i < |all| && all[i].Delivery? && all[i].message.event.id == inputs[k].message.event.id
      {
        if k == n && First(accepts, inputs, n) {
          assert all[|kept|] == inputs[n];
        } else {
          var k' :| 0 <= k' < n && Counts(accepts, before[k']) && before[k'].message.event.id == inputs[k].message.event.id;
          var i :| 0 <= i < |kept| && kept[i].Delivery? && kept[i].message.event.id == before[k'].message.event.id;
          assert all[i] == kept[i];
        }
      }
    }
  }
}
