/** What one run of the dispatcher (a "tick") does to the store and which
    steps it takes, stated as functions of the store it starts from, the
    clock reading and the outside world's behaviour; and the properties of
    a tick proved from them. */
module Dispatch {
  import opened Records

  /** A message is due at `now` when its time has come and nobody has taken
      it up yet. */
  predicate Due(m: Message, now: int)
  {
    m.time <= now && m.status == Pending
  }

  /** The ids the tick's query returns: every due message. */
  function Selected(docs: map<Id, Message>, now: int): (ids: set<Id>)
    ensures forall id :: id in ids <==> id in docs && Due(docs[id], now)
  {
    set id | id in docs && Due(docs[id], now)
  }

  /** The photo could be sent: the blob is stored and reading it succeeded. */
  predicate Fetched(m: Message, a: Attempt, blobs: map<Id, Upload>)
  {
    m.fileId in blobs && a.fetchOk
  }

  /** The status a selected message has when the tick is done with it. The
      message is marked in progress first; only a photo post answering 200
      followed by an owner confirmation that did not raise advances it to
      sent. Every failure (missing blob, network error, other status code,
      failing confirmation) leaves it in progress. */
  function FinalStatus(m: Message, a: Attempt, blobs: map<Id, Upload>): (s: Status)
    ensures s != Pending
    ensures s == Sent <==> Fetched(m, a, blobs) && a.photo.Reply? && a.photo.code == 200 && a.ownerPostOk
  {
    if Fetched(m, a, blobs) && a.photo.Reply? && a.photo.code == 200 && a.ownerPostOk then Sent else InProgress
  }

  /** The steps the tick takes for one selected message, in order. */
  function RecordEvents(id: Id, m: Message, a: Attempt, blobs: map<Id, Upload>, owner: ChatId): (ev: seq<Event>)
  {
    var claim := [Event(id, SetStatus(InProgress)), Event(id, FetchBlob(m.fileId))];
    if !Fetched(m, a, blobs) then claim
    else
      var post := claim + [Event(id, SendPhoto(m.chatId, Bold(m.caption), m.fileId))];
      match a.photo
      case Raised => post
      case Reply(code, body) =>
        if code == 200 then
          var confirmed := post + [Event(id, SendText(owner, ConfirmationText(m.chatId)))];
          if a.ownerPostOk then confirmed + [Event(id, SetStatus(Sent))] else confirmed
        else
          post + [Event(id, SendText(owner, FailureText(m.chatId, body)))]
  }

  /** The shape of the steps for one message: it is first marked in
      progress, then its image is read; the photo (with the caption in
      bold) is posted only if the read succeeded; `Sent` is written only as
      the very last step, after the confirmation to the owner, which follows
      every 200 answer whether or not it raises; after any other answer
      than 200 the owner gets the failure text; a photo post that raises
      ends the message's steps, with no text to the owner and no further
      write. */
  lemma RecordEventsShape(id: Id, m: Message, a: Attempt, blobs: map<Id, Upload>, owner: ChatId, ev: seq<Event>)
    requires ev == RecordEvents(id, m, a, blobs, owner)
    ensures 2 <= |ev| <= 5
    ensures ev[0] == Event(id, SetStatus(InProgress)) && ev[1] == Event(id, FetchBlob(m.fileId))
    ensures forall k :: 0 <= k < |ev| ==> ev[k].id == id
    ensures forall k :: 1 <= k < |ev| ==> !ev[k].action.SetStatus? || (k == |ev| - 1 && ev[k].action == SetStatus(Sent))
    ensures forall k :: 0 <= k < |ev| && ev[k].action.SendPhoto? ==> k == 2
    ensures Fetched(m, a, blobs) <==> 2 < |ev|
    ensures Fetched(m, a, blobs) ==> ev[2] == Event(id, SendPhoto(m.chatId, Bold(m.caption), m.fileId))
    ensures ev[|ev| - 1] == Event(id, SetStatus(Sent)) <==> FinalStatus(m, a, blobs) == Sent
    ensures FinalStatus(m, a, blobs) == Sent ==> |ev| == 5
    ensures Fetched(m, a, blobs) && a.photo.Reply? && a.photo.code == 200 ==>
              4 <= |ev| && ev[3] == Event(id, SendText(owner, ConfirmationText(m.chatId)))
    ensures Fetched(m, a, blobs) && a.photo.Raised? ==> |ev| == 3
    ensures Fetched(m, a, blobs) && a.photo.Reply? && a.photo.code != 200 ==>
              ev[|ev| - 1] == Event(id, SendText(owner, FailureText(m.chatId, a.photo.body)))
  {
  }

  /** Every step for one message carries its id, and none writes `Pending`. */
  lemma RecordEventsOwned(id: Id, m: Message, a: Attempt, blobs: map<Id, Upload>, owner: ChatId, ev: seq<Event>)
    requires ev == RecordEvents(id, m, a, blobs, owner)
    ensures forall k :: 0 <= k < |ev| ==> ev[k].id == id && ev[k].action != SetStatus(Pending)
  {
    RecordEventsShape(id, m, a, blobs, owner, ev);
  }

  /** The number of photo posts among `ev`. */
  function Photos(ev: seq<Event>): nat
  {
    if ev == [] then 0
    else Photos(ev[..|ev| - 1]) + (if ev[|ev| - 1].action.SendPhoto? then 1 else 0)
  }

  /** The store after the messages in `done` (all taken from the query's
      result) have been handled; every other message is as it was. */
  function Settled(docs: map<Id, Message>, done: set<Id>, blobs: map<Id, Upload>, attempts: Id -> Attempt): map<Id, Message>
  {
    map id | id in docs :: if id in done then docs[id].(status := FinalStatus(docs[id], attempts(id), blobs)) else docs[id]
  }

  /** Handling one more message updates that message only. */
  lemma SettledStep(docs: map<Id, Message>, done: set<Id>, id: Id, blobs: map<Id, Upload>, attempts: Id -> Attempt)
    requires id in docs && id !in done
    ensures Settled(docs, done + {id}, blobs, attempts)
            == Settled(docs, done, blobs, attempts)[id := docs[id].(status := FinalStatus(docs[id], attempts(id), blobs))]
  {
  }

  /** The store after a whole tick at `now`. */
  function TickResult(docs: map<Id, Message>, now: int, blobs: map<Id, Upload>, attempts: Id -> Attempt): (r: map<Id, Message>)
    ensures r.Keys == docs.Keys
    ensures forall id :: id in docs && !Due(docs[id], now) ==> r[id] == docs[id]
    ensures forall id :: id in docs && Due(docs[id], now) ==>
              r[id].status != Pending && r[id] == docs[id].(status := r[id].status)
  {
    Settled(docs, Selected(docs, now), blobs, attempts)
  }

  /** `order` lists every id of `ids` exactly once: one possible order in
      which the query's cursor yields the due messages. */
  predicate Enumerates(order: seq<Id>, ids: set<Id>)
  {
    (forall k :: 0 <= k < |order| ==> order[k] in ids)
    && (forall x :: x in ids ==> x in order)
    && (forall j, k :: 0 <= j < k < |order| ==> order[j] != order[k])
  }

  /** The steps of a tick that handles the messages of `docs` in `order`. */
  function TickTrace(docs: map<Id, Message>, order: seq<Id>, blobs: map<Id, Upload>, attempts: Id -> Attempt, owner: ChatId): seq<Event>
    requires forall k :: 0 <= k < |order| ==> order[k] in docs
  {
    if order == [] then []
    else
      var id := order[|order| - 1];
      TickTrace(docs, order[..|order| - 1], blobs, attempts, owner) + RecordEvents(id, docs[id], attempts(id), blobs, owner)
  }

  /** Handling one more message appends its steps to the tick's. */
  lemma TickTraceSnoc(docs: map<Id, Message>, order: seq<Id>, id: Id, blobs: map<Id, Upload>, attempts: Id -> Attempt, owner: ChatId)
    requires forall k :: 0 <= k < |order| ==> order[k] in docs
    requires id in docs
    ensures TickTrace(docs, order + [id], blobs, attempts, owner)
            == TickTrace(docs, order, blobs, attempts, owner) + RecordEvents(id, docs[id], attempts(id), blobs, owner)
  {
    assert (order + [id])[..|order|] == order;
  }

  /** The steps of `ev` taken for message `id`, in their order. */
  function Project(ev: seq<Event>, id: Id): seq<Event>
  {
    if ev == [] then []
    else Project(ev[..|ev| - 1], id) + (if ev[|ev| - 1].id == id then [ev[|ev| - 1]] else [])
  }

  // Properties of the steps of one tick

  lemma {:induction false} ProjectAppend(a: seq<Event>, b: seq<Event>, id: Id)
    ensures Project(a + b, id) == Project(a, id) + Project(b, id)
    decreases |b|
  {
    if b == [] {
      assert a + b == a;
    } else {
      var b' := b[..|b| - 1];
      assert (a + b)[..|a + b| - 1] == a + b';
      ProjectAppend(a, b', id);
    }
  }

  /** Projecting the steps of one message onto its own id keeps them all;
      onto any other id, keeps none. */
  lemma {:induction false} ProjectSingle(ev: seq<Event>, owner: Id, id: Id)
    requires forall k :: 0 <= k < |ev| ==> ev[k].id == owner
    ensures Project(ev, id) == if owner == id then ev else []
    decreases |ev|
  {
    if ev != [] {
      ProjectSingle(ev[..|ev| - 1], owner, id);
      assert ev[..|ev| - 1] + [ev[|ev| - 1]] == ev;
    }
  }

  /** One more message's steps, all carrying its own id, extend the
      projection onto that id only. */
  lemma ProjectExtend(before: seq<Event>, ev: seq<Event>, front: seq<Id>, last: Id, id: Id, mine: seq<Event>)
    requires forall k :: 0 <= k < |ev| ==> ev[k].id == last
    requires last !in front
    requires Project(before, id) == if id in front then mine else []
    requires id == last ==> ev == mine
    ensures Project(before + ev, id) == if id in front + [last] then mine else []
  {
    ProjectAppend(before, ev, id);
    ProjectSingle(ev, last, id);
  }

  /** Isolation: within the steps of a whole tick, the steps taken for one
      message are exactly the steps that message alone calls for, whatever
      happened to the messages handled before or after it; a message the
      tick did not take up has no step at all. */
  lemma {:induction false} TraceProjection(docs: map<Id, Message>, order: seq<Id>, blobs: map<Id, Upload>,
                                           attempts: Id -> Attempt, owner: ChatId, id: Id)
    requires forall k :: 0 <= k < |order| ==> order[k] in docs
    requires forall j, k :: 0 <= j < k < |order| ==> order[j] != order[k]
    ensures Project(TickTrace(docs, order, blobs, attempts, owner), id)
            == if id in order then RecordEvents(id, docs[id], attempts(id), blobs, owner) else []
    decreases |order|
  {
    if order != [] {
      var last := order[|order| - 1];
      var front := order[..|order| - 1];
      var ev := RecordEvents(last, docs[last], attempts(last), blobs, owner);
      var mine := if id in docs then RecordEvents(id, docs[id], attempts(id), blobs, owner) else [];
      RecordEventsOwned(last, docs[last], attempts(last), blobs, owner, ev);
      TraceProjection(docs, front, blobs, attempts, owner, id);
      assert order == front + [last];
      ProjectExtend(TickTrace(docs, front, blobs, attempts, owner), ev, front, last, id, mine);
    }
  }

  /** A tick only takes steps for the messages its query returned, and never
      writes the status `Pending`. */
  lemma {:induction false} TraceWrites(docs: map<Id, Message>, order: seq<Id>, blobs: map<Id, Upload>,
                                       attempts: Id -> Attempt, owner: ChatId)
    requires forall k :: 0 <= k < |order| ==> order[k] in docs
    ensures forall e :: e in TickTrace(docs, order, blobs, attempts, owner) ==>
              e.id in order && e.action != SetStatus(Pending)
    decreases |order|
  {
    if order != [] {
      var front := order[..|order| - 1];
      var last := order[|order| - 1];
      TraceWrites(docs, front, blobs, attempts, owner);
      RecordEventsOwned(last, docs[last], attempts(last), blobs, owner, RecordEvents(last, docs[last], attempts(last), blobs, owner));
      assert forall x :: x in front ==> x in order;
    }
  }

  lemma {:induction false} PhotosAppend(a: seq<Event>, b: seq<Event>)
    ensures Photos(a + b) == Photos(a) + Photos(b)
    decreases |b|
  {
    if b == [] {
      assert a + b == a;
    } else {
      var b' := b[..|b| - 1];
      assert (a + b)[..|a + b| - 1] == a + b';
      PhotosAppend(a, b');
    }
  }

  /** A sequence whose only possible photo post is at index `i` counts
      that one post, if it is there. */
  lemma {:induction false} PhotosOnlyAt(ev: seq<Event>, i: nat)
    requires forall k :: 0 <= k < |ev| && ev[k].action.SendPhoto? ==> k == i
    ensures Photos(ev) == if i < |ev| && ev[i].action.SendPhoto? then 1 else 0
    decreases |ev|
  {
    if ev != [] {
      var front := ev[..|ev| - 1];
      PhotosOnlyAt(front, i);
    }
  }

  /** The steps for one message post its photo once when its image could be
      read, and not at all otherwise. */
  lemma RecordPhotos(id: Id, m: Message, a: Attempt, blobs: map<Id, Upload>, owner: ChatId)
    ensures Photos(RecordEvents(id, m, a, blobs, owner)) == if Fetched(m, a, blobs) then 1 else 0
  {
    var ev := RecordEvents(id, m, a, blobs, owner);
    RecordEventsShape(id, m, a, blobs, owner, ev);
    PhotosOnlyAt(ev, 2);
  }

  /** Within one tick a message's photo is posted at most once, and only if
      the message was due and its image could be read. */
  lemma TickPhotos(docs: map<Id, Message>, now: int, order: seq<Id>, blobs: map<Id, Upload>,
                   attempts: Id -> Attempt, owner: ChatId, id: Id)
    requires Enumerates(order, Selected(docs, now))
    ensures Photos(Project(TickTrace(docs, order, blobs, attempts, owner), id))
            == if id in docs && Due(docs[id], now) && Fetched(docs[id], attempts(id), blobs) then 1 else 0
  {
    TraceProjection(docs, order, blobs, attempts, owner, id);
    if id in order {
      RecordPhotos(id, docs[id], attempts(id), blobs, owner);
    }
  }

  /** The last status written among `ev`, if any. */
  function LastWrite(ev: seq<Event>): Option<Status>
  {
    if ev == [] then None
    else if ev[|ev| - 1].action.SetStatus? then Some(ev[|ev| - 1].action.status)
    else LastWrite(ev[..|ev| - 1])
  }

  /** The last status written for a message is the status it ends with. */
  lemma RecordLastWrite(id: Id, m: Message, a: Attempt, blobs: map<Id, Upload>, owner: ChatId)
    ensures LastWrite(RecordEvents(id, m, a, blobs, owner)) == Some(FinalStatus(m, a, blobs))
  {
    var ev := RecordEvents(id, m, a, blobs, owner);
    RecordEventsShape(id, m, a, blobs, owner, ev);
    var claim := [Event(id, SetStatus(InProgress)), Event(id, FetchBlob(m.fileId))];
    assert LastWrite(claim) == Some(InProgress) by {
      assert claim[..1] == [claim[0]];
    }
    if |ev| > 2 {
      assert ev[..2] == claim;
      if |ev| > 3 {
        assert ev[..3][..2] == claim;
        if |ev| > 4 {
          assert ev[..4][..3][..2] == claim;
          assert ev[..4][..3] == ev[..3];
        }
      }
    }
  }

  /** The store a tick leaves agrees with the steps it took: every message
      ends with the last status the tick wrote for it, and a message it
      wrote nothing for keeps its status. */
  lemma TraceMatchesStore(docs: map<Id, Message>, now: int, order: seq<Id>, blobs: map<Id, Upload>,
                          attempts: Id -> Attempt, owner: ChatId, id: Id)
    requires Enumerates(order, Selected(docs, now))
    requires id in docs
    ensures TickResult(docs, now, blobs, attempts)[id].status
            == LastWrite(Project(TickTrace(docs, order, blobs, attempts, owner), id)).GetOr(docs[id].status)
  {
    TraceProjection(docs, order, blobs, attempts, owner, id);
    if id in order {
      RecordLastWrite(id, docs[id], attempts(id), blobs, owner);
    }
  }

  // Properties of the store after a tick

  /** A tick leaves nothing due at the same clock reading: running it again
      right away, whatever the outside world does, changes nothing. */
  lemma TickIdempotent(docs: map<Id, Message>, now: int, blobs: map<Id, Upload>, attempts: Id -> Attempt,
                       blobs': map<Id, Upload>, attempts': Id -> Attempt)
    ensures var once := TickResult(docs, now, blobs, attempts);
            TickResult(once, now, blobs', attempts') == once
  {
    var once := TickResult(docs, now, blobs, attempts);
    assert Selected(once, now) == {};
  }

  /** A message a tick took up is never taken up by a later tick, whatever
      its clock reading. */
  lemma NeverReselected(docs: map<Id, Message>, now: int, blobs: map<Id, Upload>, attempts: Id -> Attempt, later: int)
    ensures Selected(docs, now) !! Selected(TickResult(docs, now, blobs, attempts), later)
  {
  }

  /** Status never moves backwards in a tick, and a sent message is left
      exactly as it was. */
  lemma TickAdvances(docs: map<Id, Message>, now: int, blobs: map<Id, Upload>, attempts: Id -> Attempt)
    ensures var after := TickResult(docs, now, blobs, attempts);
            forall id :: id in docs ==>
              Rank(docs[id].status) <= Rank(after[id].status)
              && (docs[id].status == Sent ==> after[id] == docs[id])
  {
  }

  /** A message becomes sent in a tick exactly when it was due, its image
      could be read, the photo post answered 200 and the confirmation to
      the owner returned without raising. */
  lemma SentExactlyWhen(docs: map<Id, Message>, now: int, blobs: map<Id, Upload>, attempts: Id -> Attempt, id: Id)
    requires id in docs && docs[id].status != Sent
    ensures TickResult(docs, now, blobs, attempts)[id].status == Sent
            <==> Due(docs[id], now) && Fetched(docs[id], attempts(id), blobs)
                 && attempts(id).photo.Reply? && attempts(id).photo.code == 200 && attempts(id).ownerPostOk
  {
  }
}
