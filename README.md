# Scheduled photo bot: dispatcher and gateway model

This project models the core of a small Telegram bot that posts images at
scheduled times. An operator fills in a form (date and time, caption,
image). The gateway stores the image in a GridFS bucket and inserts a
`pending` document into the `scheduled_messages` collection. A background
dispatcher wakes up every minute ("a tick"). It queries every document
whose time has come and whose status is `pending`. For each one it:

1. writes `in-progress`;
2. reads the image;
3. posts the photo with the caption in Markdown bold;
4. on a 200 answer, posts a confirmation to the owner's chat and only then
   writes `sent`;
5. on any other answer, posts a failure report to the owner and writes no
   further status.

An exception raised while one document's image is read, its photo and
owner texts are posted, or its `sent` status is written is caught, and the
loop moves on to the next document. An exception from the query or from
the `in-progress` write is not caught: it leaves the tick and ends the
background thread, so no tick runs again (see "## Left out").

Files and modules:

- `records.dfy`, module `Records`: the documents (`Message`, `Status`,
  `Upload`), the outside world's answers (`HttpReply`, `Attempt`), the
  steps a tick takes (`Event`), and the caption and owner texts.
- `dispatch.dfy`, module `Dispatch`: one tick as functions of the store it
  starts from, the clock reading and the outside world's behaviour. These
  are `Selected`, `FinalStatus`, `RecordEvents`, `TickResult` and
  `TickTrace`. The module also holds the lemmas about one tick.
- `runs.dfy`, module `Runs`: whole runs in which ticks of a single
  dispatcher and gateway edits interleave, and the theorem that, with one
  dispatcher, no message's photo is posted twice. The code as launched
  runs two dispatchers (see "## Left out"), which this theorem does not
  cover.
- `bot.dfy`, module `Bot`: class `Bot` with the collection
  (`messages: map<Id, Message>`), the GridFS bucket (`blobs`) and the
  ObjectId supply. Its methods `Schedule`, `DeleteMessage` and
  `SendScheduledImages` change that state step by step, as the handlers
  and the dispatcher do. Each method is proved against the functions
  above.

External effects are inputs of the model:

- the clock reading is `now`;
- the date parser is `parse`;
- the ObjectId conversion of a path segment is an `Option<Id>`;
- what the outside world does for each message is `attempts: Id -> Attempt`.
  That covers whether the blob read succeeds, what the photo post answers
  (it raises, or a status code and body), and whether the owner post
  returns without raising.

The order in which Mongo's cursor yields the due documents is not
specified. The tick picks them in an arbitrary order and returns that
order as a ghost out-parameter.

Points to note about the code:

- The code never writes a `failed` status. A record whose send fails stays
  `in-progress`. So does a record whose photo went out but whose owner
  confirmation raised.
- The code has no atomic claim. It runs one query, then does a separate
  `in-progress` update for each document.
- A failure to confirm to the owner does affect the status: the `sent` write
  comes after the confirmation post and is skipped when that post raises.
- `schedule` stores the image before it parses the date. A date that does
  not parse therefore answers 500 and leaves the stored image behind.

## Model

| member | source | states |
|---|---|---|
| `Records.Bold` | bot.py:107 | the caption sent is the stored caption with exactly one `*` added on each side |
| `Records.ConfirmationText` | bot.py:123 | the owner's success text names the target chat |
| `Records.FailureText` | bot.py:131 | the owner's failure text names the target chat and quotes the photo post's response text |
| `Dispatch.Selected` | bot.py:101-102 | the query returns exactly the stored ids whose time is at or before the clock reading and whose status is `pending` |
| `Dispatch.RecordEvents` | bot.py:105-133 | the steps for one due message, in the order the loop body takes them; its properties are stated by `RecordEventsShape` |
| `Dispatch.TickTrace` | bot.py:104-135 | the steps of a whole tick: each due message's steps, one message after the other in cursor order; its properties are stated by `TraceProjection`, `TraceWrites` and `TickPhotos` |
| `Dispatch.FinalStatus` | bot.py:110-133 | a handled message never stays `pending`; it ends `sent` if and only if the blob was read, the photo post answered 200 and the owner confirmation returned without raising; otherwise it stays `in-progress` |
| `Dispatch.RecordEventsShape` | bot.py:105-133 | for one message, the first step is the `in-progress` write and the second the blob read, before any post; the photo is posted once, only after a successful read; `sent` is written only as the last step, right after the owner confirmation; a non-200 answer ends with the failure text to the owner; a photo post that raises ends the steps, with no owner text and no further write |
| `Dispatch.TickResult` | bot.py:100-135 | a tick neither inserts nor deletes documents; a message that is not due (later time or not `pending`) is unchanged; a due message changes only its status, and never to `pending` |
| `Dispatch.TraceProjection` | bot.py:104-135 | isolation: inside the interleaved steps of a tick, the steps for each message are exactly those its own outcome calls for, whatever happened to the others; a message the query did not return gets no step |
| `Dispatch.TraceWrites` | bot.py:100-135 | every step of a tick belongs to a message the query returned, and no step writes `pending` |
| `Dispatch.RecordPhotos` | bot.py:112-119 | one message's steps post its photo once if its blob could be read and not at all otherwise |
| `Dispatch.TickPhotos` | bot.py:101-119 | within a tick, a message's photo is posted once if it was due and its blob could be read, and never otherwise |
| `Dispatch.RecordLastWrite` | bot.py:110-128 | the last status written for a handled message is the status it ends with |
| `Dispatch.TraceMatchesStore` | bot.py:110-128 | the store after a tick agrees with the tick's steps: each message ends with the last status written for it, or keeps its status if none was written |
| `Dispatch.TickIdempotent` | bot.py:101-110 | a second tick at the same clock reading finds nothing due and changes nothing, whatever the outside world does |
| `Dispatch.NeverReselected` | bot.py:102-110 | a message that one tick took up is never returned by the query of a later tick |
| `Dispatch.TickAdvances` | bot.py:100-135 | within a tick no status moves backwards (`pending` < `in-progress` < `sent`) and a `sent` message is left as it was |
| `Dispatch.SentExactlyWhen` | bot.py:121-128 | a message not yet sent becomes `sent` in a tick if and only if it was due, its blob was read, the photo post answered 200 and the owner confirmation did not raise |
| `Runs.AtMostOnce` | bot.py:100-141 | with a single dispatcher, over any run of its ticks interleaved with gateway edits that fall between ticks, each message's photo is posted at most once, and never for a message that a tick already took up or that was deleted before the tick began |
| `Bot.Bot.constructor` | bot.py:21-24 | a first deployment: the collection and the GridFS bucket behind these handles start empty, and no ObjectId has been handed out |
| `Bot.Filled` | bot.py:52 | a form field counts as filled when it is present and not the empty string, as Python's truth test has it |
| `Bot.Given` | bot.py:52 | an uploaded file counts as given when it is present and has a non-empty file name, as Werkzeug's truth test for a `FileStorage` has it |
| `Bot.Bot.Schedule` | bot.py:44-74 | answers 400 and changes nothing exactly when the date, caption or image is missing or empty; otherwise it stores the image under a fresh id, then answers 500 with no document when the date does not parse; otherwise it inserts exactly one `pending` document (default chat, stored image, caption, parsed time) under a fresh id and answers 302; it is a gateway edit; handed-out ids only grow, and a 400 answer hands out none |
| `Bot.Bot.DeleteMessage` | bot.py:76-87 | answers 500 for a malformed id; otherwise it removes the document and answers 200 when one has that id, and answers 404 without changes when none does; it is a gateway edit |
| `Bot.Bot.SendScheduledImages` | bot.py:100-135 | handles the due messages in some cursor order that lists each exactly once; the new store is `TickResult` of the old one and the steps taken are `TickTrace` in that order |
| `Bot.Bot.Deliver` | bot.py:105-135 | the loop body for one message updates only that message's status, to `FinalStatus`, and takes exactly the steps `RecordEvents` |

## Left out

- Flask routing, templates, redirects, and the `index` and `get_image` routes (bot.py:30-42, 89-96). These are user interface. `get_image` calls `send_file`, which is never imported, so it always answers 404.
- The HTTP requests to the Telegram API (bot.py:117-133). Only their outcomes enter the model, as the `Attempt` of each message. The bot token, the URLs and the `parse_mode` field are not modelled.
- The MongoDB connection and its configuration (bot.py:20-22). The collection and the GridFS bucket themselves are fields of `Bot`; their durable contents from earlier deployments are not modelled, and the constructor stands for a first deployment. The byte contents of stored images are kept but never inspected.
- Store failures in the handlers: an exception from GridFS `put`, `insert_one` or `delete_one` answers 500 in the code; the model does not produce those answers.
- Store failures in the tick that end the dispatcher: an exception from `find` (bot.py:102) or from the `in-progress` `update_one` (bot.py:110) is outside the loop's `try`. It leaves `send_scheduled_images`, and since the `while True` loop of `scheduled_task` (bot.py:138-141) has no `try` either, the daemon thread ends and no tick ever runs again. The model assumes these two operations succeed.
- FinalStatus: assumes the `sent` `update_one` (bot.py:128) succeeds. If it raises, the code catches the error and the message stays `in-progress` although its photo and the owner confirmation went out; the model would call it `sent`.
- SentExactlyWhen: the same assumption about the `sent` write at bot.py:128; with a failing write the "if" direction does not hold in the code.
- `strptime` and the pytz localisation (bot.py:59-60). They are the `parse` parameter, and times are integers on one canonical clock.
- `bson.ObjectId` conversion of the path segment (bot.py:80). It is an `Option<Id>` input; `None` stands for a segment that is not a valid ObjectId.
- The 400 and 500 response bodies. Only the status codes are modelled.
- The `while True` loop with `sleep(60)` and the daemon thread (bot.py:138-144). `Runs` models sequences of ticks of one dispatcher, without timing or concurrency.
- AtMostOnce: gateway edits are modelled as happening only between ticks; each tick is one uninterrupted step, and `Deliver` is only called for a message still in the store. In the code `schedule` and `delete_message` run on the server thread (bot.py:148) while the dispatcher thread (bot.py:144) is partway through a tick. A message deleted after the query (bot.py:102) returned it but before the loop reaches it still has its photo posted: the `update_one` calls at bot.py:110 and bot.py:128 match no document and raise nothing, and `fs.get` (bot.py:114) still finds the image, because `delete_message` leaves GridFS alone. Likewise a message can be deleted while its photo is being sent. The clause "never for a message that was deleted" holds only for deletes before the tick began.
- Concurrent dispatchers. Launched as a script, bot.py starts its dispatcher thread (bot.py:147) and then calls `app.run(debug=True)` (bot.py:148). With `debug=True`, Flask turns on Werkzeug's reloader by default, which runs bot.py again as `__main__` in a child process while the parent stays alive; so the normal launch starts two dispatcher threads. The two can both read a message as `pending` in the query (bot.py:102) before either writes `in-progress` (bot.py:110), and then both post its photo. This race cannot be expressed in the sequential model, and `AtMostOnce` holds only for a single dispatcher.
- Creation of the upload folder (bot.py:16-18). It is file-system I/O that nothing else uses.
- The `print` of a caught exception in the tick and in `delete_message`. It is logging.
