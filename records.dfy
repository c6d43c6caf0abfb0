/** The documents of the `scheduled_messages` collection and of the GridFS
    bucket, and the outcomes of the calls a dispatcher tick makes to the
    outside world. */
module Records {

  /** An ObjectId, as used for both message documents and GridFS files. */
  type Id = nat

  /** A chat identifier as configured (the default target chat or the owner's
      chat); it is only ever formatted into requests and texts. */
  type ChatId = string

  type Byte = bv8

  datatype Option<+T> = None | Some(value: T) {
    /** The value held, or `default` when there is none. */
    function GetOr(default: T): T
    {
      match this
      case Some(v) => v
      case None => default
    }
  }

  /** The three values the code writes into a message's `status` field. */
  datatype Status = Pending | InProgress | Sent

  /** One document of the `scheduled_messages` collection. `time` is the
      scheduled instant on the single canonical clock. */
  datatype Message = Message(chatId: ChatId, fileId: Id, caption: string, time: int, status: Status)

  /** An uploaded file as the form delivers it, and as GridFS stores it. */
  datatype Upload = Upload(filename: string, data: seq<Byte>)

  /** What an HTTP POST to the messaging API does: it raises (network
      error) or it returns a status code and a response text. */
  datatype HttpReply = Raised | Reply(code: int, body: string)

  /** The outside world's behaviour while one message is handled: whether the
      blob read succeeds at the transport level, what the photo post returns,
      and whether the text post to the owner returns without raising. */
  datatype Attempt = Attempt(fetchOk: bool, photo: HttpReply, ownerPostOk: bool)

  /** One step a tick takes for a message: a status write to the store, a
      blob read, the photo post, or a text post. */
  datatype Action =
    | SetStatus(status: Status)
    | FetchBlob(fileId: Id)
    | SendPhoto(chat: ChatId, caption: string, fileId: Id)
    | SendText(chat: ChatId, text: string)

  /** A step of a tick, tagged with the message it was taken for. */
  datatype Event = Event(id: Id, action: Action)

  /** The order in which statuses advance: a message is never set back. */
  function Rank(s: Status): nat
  {
    match s
    case Pending => 0
    case InProgress => 1
    case Sent => 2
  }

  /** The caption as posted: the stored caption in Markdown bold, one `*` on
      each side. */
  function Bold(caption: string): (r: string)
    ensures |r| == |caption| + 2
    ensures r[0] == '*' && r[|r| - 1] == '*'
    ensures r[1..|r| - 1] == caption
  {
    "*" + caption + "*"
  }

  /** `part` occurs in `text` as a contiguous piece. */
  predicate Contains(text: string, part: string)
  {
    exists i :: 0 <= i <= |text| && part <= text[i..]
  }

  /** The text the owner receives after a photo post answered 200; it names
      the target chat. */
  function ConfirmationText(group: ChatId): (r: string)
    ensures Contains(r, group)
  {
    assert group <= ("Message sent successfully to " + group + ".")[29..];
    "Message sent successfully to " + group + "."
  }

  /** The text the owner receives after a photo post answered with any other
      status code; it names the target chat and quotes the answer's text. */
  function FailureText(group: ChatId, body: string): (r: string)
    ensures Contains(r, group) && Contains(r, body)
  {
    var r := "Failed to send message to " + group + ". Error: " + body;
    assert group <= r[26..];
    assert body <= r[|r| - |body|..];
    r
  }
}
