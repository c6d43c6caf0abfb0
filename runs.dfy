/** The store over a whole run of the bot: dispatcher ticks interleaved with
    the gateway's edits (scheduling and deleting). Marking a message in
    progress before anything is sent keeps every later tick from taking it
    up again, so with a single dispatcher no photo is ever posted twice for
    one message. Two dispatchers running at once (as the development
    server's reloader starts them) are not modelled, and neither are
    gateway edits during a tick: every tick runs as one uninterrupted step. */
module Runs {
  import opened Records
  import opened Dispatch

  /** One thing that happens to the store: a dispatcher tick (with the
      blob store it reads, the outside world's behaviour and the order the
      cursor yields the due messages in), or an edit through the gateway
      that leaves the store as `after`. */
  datatype Step =
    | Tick(now: int, blobs: map<Id, Upload>, attempts: Id -> Attempt, order: seq<Id>)
    | Gateway(after: map<Id, Message>)

  /** What the gateway may do to the store: keep or delete the messages it
      holds, and add pending messages under ids never handed out before
      (`used` holds every id handed out so far). */
  ghost predicate GatewayEdit(before: map<Id, Message>, after: map<Id, Message>, used: set<Id>)
  {
    (forall id :: id in after && id in before ==> after[id] == before[id])
    && (forall id :: id in after && id !in before ==> id !in used && after[id].status == Pending)
  }

  /** `steps` can happen, in this order, to the store `docs`. */
  ghost predicate Admissible(docs: map<Id, Message>, used: set<Id>, steps: seq<Step>)
    decreases |steps|
  {
    steps == [] ||
    match steps[0]
    case Tick(now, blobs, attempts, order) =>
      Enumerates(order, Selected(docs, now))
      && Admissible(TickResult(docs, now, blobs, attempts), used, steps[1..])
    case Gateway(after) =>
      GatewayEdit(docs, after, used) && Admissible(after, used + after.Keys, steps[1..])
  }

  /** The steps all ticks of the run take, one tick after the other. */
  ghost function RunTrace(docs: map<Id, Message>, used: set<Id>, steps: seq<Step>, owner: ChatId): seq<Event>
    requires Admissible(docs, used, steps)
    decreases |steps|
  {
    if steps == [] then []
    else
      match steps[0]
      case Tick(now, blobs, attempts, order) =>
        TickTrace(docs, order, blobs, attempts, owner)
        + RunTrace(TickResult(docs, now, blobs, attempts), used, steps[1..], owner)
      case Gateway(after) =>
        RunTrace(after, used + after.Keys, steps[1..], owner)
  }

  /** How many photo posts message `id` may still get: one if it is pending
      or its id is still unused, none once a tick has taken it up or it was
      deleted. */
  function Budget(docs: map<Id, Message>, used: set<Id>, id: Id): nat
  {
    if id !in used || (id in docs && docs[id].status == Pending) then 1 else 0
  }

  /** With one dispatcher, no message's photo is posted twice over any run:
      at most once, and never again for a message some earlier tick already
      took up or that was deleted before the tick began. Gateway edits fall
      between ticks here; a delete during a tick is not covered. */
  lemma {:induction false} AtMostOnce(docs: map<Id, Message>, used: set<Id>, steps: seq<Step>, owner: ChatId, id: Id)
    requires docs.Keys <= used
    requires Admissible(docs, used, steps)
    ensures Photos(Project(RunTrace(docs, used, steps, owner), id)) <= Budget(docs, used, id) <= 1
    decreases |steps|
  {
    if steps != [] {
      match steps[0]
      case Tick(now, blobs, attempts, order) =>
        var after := TickResult(docs, now, blobs, attempts);
        var here := TickTrace(docs, order, blobs, attempts, owner);
        var rest := RunTrace(after, used, steps[1..], owner);
        AtMostOnce(after, used, steps[1..], owner, id);
        TickPhotos(docs, now, order, blobs, attempts, owner, id);
        ProjectAppend(here, rest, id);
        PhotosAppend(Project(here, id), Project(rest, id));
      case Gateway(after) =>
        AtMostOnce(after, used + after.Keys, steps[1..], owner, id);
    }
  }
}
