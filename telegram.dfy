/**
  The parts of the Telegram Bot API the bot reads and writes: the decoded
  webhook message, its entities, and the requests it posts back.
 */
module Telegram {
  import opened Wrappers
  import PyStr

  /** A tagged span of the message text (`bot_command`, `mention`, ...). */
  datatype Entity = Entity(kind: string, offset: int, length: int)

  /** The `new_chat_participant` record; `username` may be missing. */
  datatype Participant = Participant(id: int, username: Option<string>)

  /** The `message` record of an update, already decoded from JSON.
      `chat.title` is only ever printed, so it is not kept. */
  datatype Message = Message(
    chatId: int,
    chatType: string,
    fromId: int,
    messageId: int,
    text: Option<string>,
    entities: Option<seq<Entity>>,
    newChatParticipant: Option<Participant>)

  /** A Bot API request, by method name and payload. */
  datatype Request =
    | SendMessage(chatId: int, replyTo: Option<int>, text: string)
    | SendDocument(chatId: int, replyTo: Option<int>, document: string)
    | KickChatMember(chatId: int, userId: int)

  /** One `requests.post` to `https://api.telegram.org/bot<botKey>/<method>`. */
  datatype Post = Post(botKey: string, request: Request)

  /** `response.raise_for_status()` raises exactly for 4xx and 5xx codes. */
  predicate RaisesForStatus(status: int) {
    400 <= status < 600
  }

  /** `next(filter(lambda e: e['type'] == kind, entities), None)`: the first
      entity of the given type, or None when there is none. */
  function FirstOfType(entities: seq<Entity>, kind: string): (r: Option<Entity>)
    ensures r.None? <==> forall i :: 0 <= i < |entities| ==> entities[i].kind != kind
    ensures r.Some? ==> exists i :: (0 <= i < |entities| && entities[i] == r.value
      && entities[i].kind == kind
      && forall j :: 0 <= j < i ==> entities[j].kind != kind)
  {
    if |entities| == 0 then None
    else if entities[0].kind == kind then Some(entities[0])
    else
      var r := FirstOfType(entities[1..], kind);
      assert forall j :: 1 <= j < |entities| ==> entities[j] == entities[1..][j - 1];
      r
  }

  /** `text[e['offset']:e['offset'] + e['length']]`. */
  function EntityText(text: string, e: Entity): (r: string)
    ensures 0 <= e.offset && 0 <= e.length && e.offset + e.length <= |text| ==>
      r == text[e.offset..e.offset + e.length]
  {
    PyStr.Slice(text, e.offset, e.offset + e.length)
  }

  /** What the webhook handler returns to the platform: always status 200
      with an empty JSON object. */
  datatype Response = Response(statusCode: int, body: string)

  /** The value a `lambda_handler` returns when it completes, or the
      exception it raises. */
  function ResponseOf<F>(outcome: Outcome<F>): (r: Result<Response, F>)
    ensures r.Success? <==> outcome.Pass?
    ensures r.Success? ==> r.value == Response(200, "{}")
    ensures r.Failure? ==> r.error == outcome.error
  {
    match outcome
    case Pass => Success(Response(200, "{}"))
    case Fail(f) => Failure(f)
  }
}
