/** The bot's state and its three operations on it: the form handler that
    schedules a photo, the handler that deletes a scheduled message, and the
    dispatcher tick that sends every due photo. */
module Bot {
  import opened Records
  import opened Dispatch
  import opened Runs

  /** A form field is filled in when it is present and not empty. */
  predicate Filled(field: Option<string>)
  {
    field.Some? && field.value != ""
  }

  /** An uploaded file counts as given when the form carries one with a
      file name (a file input left empty arrives with an empty name). */
  predicate Given(image: Option<Upload>)
  {
    image.Some? && image.value.filename != ""
  }

  class Bot {
    /** The default chat every scheduled photo goes to. */
    const chatId: ChatId
    /** The owner's chat, which receives the confirmations and failure reports. */
    const ownerChatId: ChatId
    /** The `scheduled_messages` collection, by ObjectId. */
    var messages: map<Id, Message>
    /** The GridFS bucket holding the uploaded images, by ObjectId. */
    var blobs: map<Id, Upload>
    /** The next ObjectId to hand out; every later one is unused too. */
    var nextId: Id
    /** The ObjectIds handed out so far, to documents and files alike. */
    ghost var issued: set<Id>

    /** Every stored document and file carries an id already handed out, and
        no id from `nextId` on has been, so a fresh id never names an
        existing or deleted message. */
    ghost predicate Valid()
      reads this
    {
      messages.Keys <= issued && blobs.Keys <= issued
      && forall id :: id in issued ==> id < nextId
    }

    constructor (chatId: ChatId, ownerChatId: ChatId)
      ensures Valid()
      ensures this.chatId == chatId && this.ownerChatId == ownerChatId
      ensures messages == map[] && blobs == map[]
      ensures issued == {} && nextId == 0
    {
      this.chatId := chatId;
      this.ownerChatId := ownerChatId;
      messages := map[];
      blobs := map[];
      nextId := 0;
      issued := {};
    }

    /** Handles the scheduling form. `parse` is the conversion of the date
        field into an instant on the canonical clock, None when the text
        does not parse. Answers 400 when a field is missing, 500 when the
        date does not parse (after the image was stored), and otherwise
        stores the image, inserts one pending message and redirects (302). */
    method Schedule(datetimeStr: Option<string>, caption: Option<string>, image: Option<Upload>,
                    parse: string -> Option<int>) returns (code: int)
      requires Valid()
      modifies this`messages, this`blobs, this`nextId, this`issued
      ensures Valid()
      ensures GatewayEdit(old(messages), messages, old(issued))
      ensures old(issued) <= issued && old(nextId) <= nextId
      ensures code == 400 <==> !(Filled(datetimeStr) && Filled(caption) && Given(image))
      ensures code == 400 ==>
                messages == old(messages) && blobs == old(blobs) && nextId == old(nextId) && issued == old(issued)
      ensures code != 400 ==>
                blobs == old(blobs)[old(nextId) := image.value] && old(nextId) !in old(issued) && old(nextId) in issued
      ensures code == 500 <==> code != 400 && parse(datetimeStr.value).None?
      ensures code == 500 ==> messages == old(messages)
      ensures code == 302 <==> code != 400 && code != 500
      ensures code == 302 ==>
                var id := old(nextId) + 1;
                id !in old(issued) && id in issued
                && messages == old(messages)[id := Message(chatId, old(nextId), caption.value, parse(datetimeStr.value).value, Pending)]
    {
      if !Filled(datetimeStr) || !Filled(caption) || !Given(image) {
        return 400;
      }
      var fileId := nextId;
      blobs := blobs[fileId := image.value];
      nextId := nextId + 1;
      issued := issued + {fileId};
      var scheduleTime := parse(datetimeStr.value);
      if scheduleTime.None? {
        return 500;
      }
      var id := nextId;
      messages := messages[id := Message(chatId, fileId, caption.value, scheduleTime.value, Pending)];
      nextId := nextId + 1;
      issued := issued + {id};
      code := 302;
    }

    /** Handles a delete request. `messageId` is the path segment converted
        to an ObjectId, None when it is not a valid one. Answers 200 when a
        message was removed, 404 when none has that id, 500 when the id is
        malformed. The message's image stays in the blob store. */
    method DeleteMessage(messageId: Option<Id>) returns (code: int)
      requires Valid()
      modifies this`messages
      ensures Valid()
      ensures GatewayEdit(old(messages), messages, issued)
      ensures code == 500 <==> messageId.None?
      ensures code == 200 <==> messageId.Some? && messageId.value in old(messages)
      ensures code == 404 <==> messageId.Some? && messageId.value !in old(messages)
      ensures messages == if code == 200 then old(messages) - {messageId.value} else old(messages)
    {
      if messageId.None? {
        return 500;
      }
      var id := messageId.value;
      if id in messages {
        messages := messages - {id};
        code := 200;
      } else {
        code := 404;
      }
    }

    /** One dispatcher tick at clock reading `now`, run as one uninterrupted
        step: no gateway edit happens while it runs (in the code the handlers
        run on the server thread and can delete a message mid-tick, and its
        photo is then still posted). The query's result is fixed once; each
        due message is marked in progress, its image read,
        the photo posted with the caption in bold, and only after a 200
        answer and a confirmation to the owner that did not raise is it
        marked sent. Any failure for one message is caught and the loop goes
        on with the next. `attempts` gives the outside world's behaviour
        for each message; `trace` lists the steps taken, and the ghost
        `order` the order in which the cursor yielded the messages. */
    method SendScheduledImages(now: int, attempts: Id -> Attempt) returns (trace: seq<Event>, ghost order: seq<Id>)
      requires Valid()
      modifies this`messages
      ensures Valid()
      ensures Enumerates(order, Selected(old(messages), now))
      ensures Admissible(old(messages), issued, [Tick(now, blobs, attempts, order)])
      ensures messages == TickResult(old(messages), now, blobs, attempts)
      ensures trace == TickTrace(old(messages), order, blobs, attempts, ownerChatId)
    {
      var found := Selected(messages, now);
      var cursor := map id | id in found :: messages[id];
      ghost var before := messages;
      var remaining := found;
      trace, order := [], [];
      while remaining != {}
        invariant remaining <= found
        invariant forall k :: 0 <= k < |order| ==> order[k] in found && order[k] !in remaining
        invariant forall x :: x in found && x !in remaining ==> x in order
        invariant forall j, k :: 0 <= j < k < |order| ==> order[j] != order[k]
        invariant messages == Settled(before, found - remaining, blobs, attempts)
        invariant trace == TickTrace(before, order, blobs, attempts, ownerChatId)
        decreases remaining
      {
        var id :| id in remaining;
        var steps := Deliver(id, cursor[id], attempts(id));
        SettledStep(before, found - remaining, id, blobs, attempts);
        assert found - (remaining - {id}) == (found - remaining) + {id};
        TickTraceSnoc(before, order, id, blobs, attempts, ownerChatId);
        trace := trace + steps;
        order := order + [id];
        remaining := remaining - {id};
      }
      assert found - remaining == found;
    }

    /** The body of the tick's loop for one message `id`, read from the
        cursor as `image`, with `a` the outside world's behaviour for it. */
    method Deliver(id: Id, image: Message, a: Attempt) returns (steps: seq<Event>)
      requires id in messages && messages[id] == image
      modifies this`messages
      ensures messages == old(messages)[id := image.(status := FinalStatus(image, a, blobs))]
      ensures steps == RecordEvents(id, image, a, blobs, ownerChatId)
    {
      var groupId := image.chatId;
      var fileId := image.fileId;
      var caption := Bold(image.caption);

      messages := messages[id := messages[id].(status := InProgress)];
      steps := [Event(id, SetStatus(InProgress)), Event(id, FetchBlob(fileId))];
      if fileId in blobs && a.fetchOk {
        steps := steps + [Event(id, SendPhoto(groupId, caption, fileId))];
        var response := a.photo;
        if response.Reply? {
          if response.code == 200 {
            steps := steps + [Event(id, SendText(ownerChatId, ConfirmationText(groupId)))];
            if a.ownerPostOk {
              messages := messages[id := messages[id].(status := Sent)];
              steps := steps + [Event(id, SetStatus(Sent))];
            }
          } else {
            steps := steps + [Event(id, SendText(ownerChatId, FailureText(groupId, response.body)))];
          }
        }
      }
    }
  }
}
