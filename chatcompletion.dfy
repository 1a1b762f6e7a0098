/**
 * The completion core of the Discord bot (src/chatcompletion.py): building the
 * request payload, classifying the outcome of one chat-completion call into a
 * `ChatCompletionData`, and dispatching that data to the effects it has on a
 * Discord thread and on the guild's moderation log.
 */
module ChatCompletion {
  import opened Wrappers
  import opened Base
  import opened PyStr

  // ---------------------------------------------------------------------------
  // Data model
  // ---------------------------------------------------------------------------

  /** The six statuses of one completion (`ChatCompletionResult`, values 0 to 5 in order). */
  datatype ChatCompletionResult =
    | Ok
    | TooLong
    | InvalidRequest
    | OtherError
    | ModerationFlagged
    | ModerationBlocked

  /** What the classifier hands to the dispatcher: a status, an optional reply and an optional status text. */
  datatype ChatCompletionData = ChatCompletionData(
    status: ChatCompletionResult,
    replyText: Option<string>,
    statusText: Option<string>)

  /**
   * What one call of the completion endpoint produced: a reply whose content is
   * still unstripped, an invalid-request error (its `user_message` and its
   * string form `str(e)`), or any other exception (its string form).
   */
  datatype Outcome =
    | Reply(content: string)
    | InvalidRequestError(userMessage: string, text: string)
    | OtherException(text: string)

  /** The text whose presence in an invalid-request error means the prompt exceeded the context window. */
  const ContextLengthMarker: string := "This model's maximum context length"

  // ---------------------------------------------------------------------------
  // Request payload
  // ---------------------------------------------------------------------------

  /** One entry of the `messages` argument: a dictionary with the keys "role" and "content". */
  type PayloadEntry = map<string, string>

  /** The `messages` argument sent to the endpoint: one dictionary per message, in order. */
  function RequestPayload(messages: seq<Message>): (r: seq<PayloadEntry>)
    ensures |r| == |messages|
    ensures forall i :: 0 <= i < |r| ==>
      r[i].Keys == {"role", "content"}
      && r[i]["role"] == messages[i].role
      && r[i]["content"] == messages[i].content
  {
    if messages == [] then []
    else [map["role" := messages[0].role, "content" := messages[0].content]] + RequestPayload(messages[1..])
  }

  /** How the endpoint reads one payload entry back as a message. */
  function EntryMessage(e: PayloadEntry): Option<Message> {
    if "role" in e && "content" in e then Some(Message(e["role"], e["content"])) else None
  }

  /** Reading the payload back entry by entry gives exactly the messages it was built from. */
  lemma PayloadReadsBack(messages: seq<Message>)
    ensures forall i :: 0 <= i < |messages| ==>
      EntryMessage(RequestPayload(messages)[i]) == Some(messages[i])
  {
  }

  /** Different conversations never produce the same payload. */
  lemma RequestPayloadInjective(a: seq<Message>, b: seq<Message>)
    requires RequestPayload(a) == RequestPayload(b)
    ensures a == b
  {
  }

  // ---------------------------------------------------------------------------
  // Classification (generate_chatcompletion_response)
  // ---------------------------------------------------------------------------

  /**
   * The outcome of one completion call as the classifier reports it. `None` is
   * the source's falling off the end of the function: a reply that strips to
   * the empty string and no exception.
   */
  function Classify(outcome: Outcome): (r: Option<ChatCompletionData>)
    ensures r.None? <==> outcome.Reply? && AllSpace(outcome.content)
    ensures r.Some? ==> r.value.status !in {ModerationFlagged, ModerationBlocked}
    ensures outcome.Reply? && r.Some? ==>
      && r.value.status == Ok
      && r.value.replyText.Some?
      && (exists i :: StripsTo(outcome.content, i, r.value.replyText.value))
      && r.value.replyText.value != ""
      && r.value.statusText == None
    ensures outcome.InvalidRequestError? ==>
      && r.Some?
      && r.value.replyText == None
      && r.value.statusText == Some(outcome.text)
      && r.value.status in {TooLong, InvalidRequest}
      && (r.value.status == TooLong <==> exists i :: OccursAt(outcome.userMessage, ContextLengthMarker, i))
    ensures outcome.OtherException? ==>
      r == Some(ChatCompletionData(OtherError, None, Some(outcome.text)))
  {
    match outcome
    case Reply(content) =>
      var reply := Strip(content);
      if reply != "" then Some(ChatCompletionData(Ok, Some(reply), None)) else None
    case InvalidRequestError(userMessage, text) =>
      if Contains(userMessage, ContextLengthMarker) then
        Some(ChatCompletionData(TooLong, None, Some(text)))
      else
        Some(ChatCompletionData(InvalidRequest, None, Some(text)))
    case OtherException(text) =>
      Some(ChatCompletionData(OtherError, None, Some(text)))
  }

  /** An invalid-request error that mentions the context-length limit anywhere in its message is TOO_LONG. */
  lemma ContextLengthErrorIsTooLong(before: string, after: string, text: string)
    ensures Classify(InvalidRequestError(before + ContextLengthMarker + after, text))
      == Some(ChatCompletionData(TooLong, None, Some(text)))
  {
    ContainsInfix(before, ContextLengthMarker, after);
  }

  /** The reply the classifier passes on is already stripped: stripping it again changes nothing. */
  lemma ClassifiedReplyIsStripped(content: string)
    requires Classify(Reply(content)).Some?
    ensures Strip(Classify(Reply(content)).value.replyText.value) == Classify(Reply(content)).value.replyText.value
  {
    StripIdempotent(content);
  }

  /** A reply made of white space only falls off the end of the classifier. */
  lemma BlankReplyYieldsNothing(content: string)
    requires AllSpace(content)
    ensures Classify(Reply(content)) == None
  {
  }

  /**
   * The classifier as its declared return type promises it: always a
   * `ChatCompletionData`; a reply that strips to nothing is reported as OK with
   * an empty reply, the case the dispatcher answers with the "empty response" notice.
   */
  function ClassifyComplete(outcome: Outcome): (r: ChatCompletionData)
    ensures Classify(outcome).Some? ==> r == Classify(outcome).value
    ensures Classify(outcome).None? ==> r == ChatCompletionData(Ok, Some(""), None)
    ensures r.status !in {ModerationFlagged, ModerationBlocked}
  {
    match Classify(outcome)
    case Some(data) => data
    case None => ChatCompletionData(Ok, Some(""), None)
  }

  // ---------------------------------------------------------------------------
  // Effects of dispatching (process_response)
  // ---------------------------------------------------------------------------

  datatype Color = Yellow | Red

  /** What `thread.send` is given: plain text, or an embed with a description and a colour. */
  datatype Content = Text(text: string) | Embed(description: string, color: Color)

  /** A handle to a message sent to the thread: its position in the thread's effect trace. */
  datatype SentMessage = SentMessage(position: nat)

  /** The `url` passed to the flagged notification: the sent message's jump link, or the literal "no url". */
  datatype Link = JumpUrl(position: nat) | NoUrl

  /** One observable effect of the dispatcher, in the order it happens. */
  datatype Action =
    | Post(content: Content)
    | FlaggedNotification(user: string, flaggedStr: Option<string>, message: Option<string>, url: Link)
    | BlockedNotification(user: string, blockedStr: Option<string>, message: Option<string>)
    | CloseThread

  const EmptyResponseNotice: Content := Embed("**Invalid response** - empty response", Yellow)
  const FlaggedNotice: Content := Embed("\U{26a0}\U{fe0f} **This conversation has been flagged by moderation.**", Yellow)
  const BlockedNotice: Content := Embed("\U{274c} **The response has been blocked by moderation.**", Red)

  /** Python's `not x` for an optional string: absent or empty. */
  predicate IsFalsy(x: Option<string>) {
    x.None? || x.value == ""
  }

  /** How an f-string renders an optional string: the string itself, or "None". */
  function Shown(x: Option<string>): string {
    if x.Some? then x.value else "None"
  }

  /** The text posts of `chunks`, one per chunk, in order. */
  function ChunkPosts(chunks: seq<string>): seq<Action> {
    if chunks == [] then [] else [Post(Text(chunks[0]))] + ChunkPosts(chunks[1..])
  }

  /** The sends of the OK path: the empty-response notice, or every chunk of the split reply. */
  function ReplyPosts(replyText: Option<string>, split: string -> seq<string>): seq<Action> {
    if IsFalsy(replyText) then [Post(EmptyResponseNotice)] else ChunkPosts(split(replyText.value))
  }

  /**
   * The whole effect of dispatching `data` on a thread whose trace already
   * holds `base` effects (`base` locates the sent messages for their links).
   */
  function Effects(user: string, data: ChatCompletionData, split: string -> seq<string>, base: nat): seq<Action> {
    match data.status
    case Ok => ReplyPosts(data.replyText, split)
    case ModerationFlagged =>
      var posts := ReplyPosts(data.replyText, split);
      var url := if posts == [] then NoUrl else JumpUrl(base + |posts| - 1);
      posts + [FlaggedNotification(user, data.statusText, data.replyText, url), Post(FlaggedNotice)]
    case ModerationBlocked =>
      [BlockedNotification(user, data.statusText, data.replyText), Post(BlockedNotice)]
    case TooLong => [CloseThread]
    case InvalidRequest => [Post(Embed("**Invalid request** - " + Shown(data.statusText), Yellow))]
    case OtherError => [Post(Embed("**Error** - " + Shown(data.statusText), Yellow))]
  }

  /**
   * A Discord thread as the dispatcher sees it: every effect it causes on the
   * thread, or on the guild's moderation log on the thread's behalf, in order.
   */
  class Thread {
    var trace: seq<Action>

    constructor ()
      ensures trace == []
    {
      trace := [];
    }

    /** `thread.send`: posts `content` and returns a handle to the new message. */
    method Send(content: Content) returns (m: SentMessage)
      modifies this
      ensures trace == old(trace) + [Post(content)]
      ensures m.position == |old(trace)| && trace[m.position] == Post(content)
    {
      m := SentMessage(|trace|);
      trace := trace + [Post(content)];
    }

    /** `close_thread(thread)`. */
    method Close()
      modifies this
      ensures trace == old(trace) + [CloseThread]
    {
      trace := trace + [CloseThread];
    }

    /** `send_moderation_flagged_message` for this thread's guild. */
    method NotifyFlagged(user: string, flaggedStr: Option<string>, message: Option<string>, url: Link)
      modifies this
      ensures trace == old(trace) + [FlaggedNotification(user, flaggedStr, message, url)]
    {
      trace := trace + [FlaggedNotification(user, flaggedStr, message, url)];
    }

    /** `send_moderation_blocked_message` for this thread's guild. */
    method NotifyBlocked(user: string, blockedStr: Option<string>, message: Option<string>)
      modifies this
      ensures trace == old(trace) + [BlockedNotification(user, blockedStr, message)]
    {
      trace := trace + [BlockedNotification(user, blockedStr, message)];
    }
  }

  /** Every chunk becomes exactly one text post, at its own index. */
  lemma {:induction false} ChunkPostsAt(chunks: seq<string>)
    ensures |ChunkPosts(chunks)| == |chunks|
    ensures forall k :: 0 <= k < |chunks| ==> ChunkPosts(chunks)[k] == Post(Text(chunks[k]))
  {
    if chunks != [] {
      ChunkPostsAt(chunks[1..]);
    }
  }

  /** Posting one more chunk extends the posts of the earlier chunks. */
  lemma {:induction false} ChunkPostsSnoc(chunks: seq<string>, c: string)
    ensures ChunkPosts(chunks + [c]) == ChunkPosts(chunks) + [Post(Text(c))]
  {
    ChunkPostsAt(chunks + [c]);
    ChunkPostsAt(chunks);
  }

  /** `process_response`: performs on `thread` the effects of `data`, in order. */
  method ProcessResponse(user: string, thread: Thread, data: ChatCompletionData, split: string -> seq<string>)
    modifies thread
    ensures thread.trace == old(thread.trace) + Effects(user, data, split, |old(thread.trace)|)
  {
    var status := data.status;
    var replyText := data.replyText;
    var statusText := data.statusText;
    if status == Ok || status == ModerationFlagged {
      var sentMessage: Option<SentMessage> := None;
      if IsFalsy(replyText) {
        var m := thread.Send(EmptyResponseNotice);
        sentMessage := Some(m);
      } else {
        var shorterResponse := split(replyText.value);
        for i := 0 to |shorterResponse|
          invariant thread.trace == old(thread.trace) + ChunkPosts(shorterResponse[..i])
          invariant |thread.trace| == |old(thread.trace)| + i
          invariant sentMessage == if i == 0 then None else Some(SentMessage(|old(thread.trace)| + i - 1))
        {
          ChunkPostsSnoc(shorterResponse[..i], shorterResponse[i]);
          assert shorterResponse[..i + 1] == shorterResponse[..i] + [shorterResponse[i]];
          var m := thread.Send(Text(shorterResponse[i]));
          sentMessage := Some(m);
        }
        assert shorterResponse[..|shorterResponse|] == shorterResponse;
        ChunkPostsAt(shorterResponse);
      }
      if status == ModerationFlagged {
        var url := if sentMessage.Some? then JumpUrl(sentMessage.value.position) else NoUrl;
        thread.NotifyFlagged(user, statusText, replyText, url);
        var _ := thread.Send(FlaggedNotice);
      }
    } else if status == ModerationBlocked {
      thread.NotifyBlocked(user, statusText, replyText);
      var _ := thread.Send(BlockedNotice);
    } else if status == TooLong {
      thread.Close();
    } else if status == InvalidRequest {
      var _ := thread.Send(Embed("**Invalid request** - " + Shown(statusText), Yellow));
    } else {
      var _ := thread.Send(Embed("**Error** - " + Shown(statusText), Yellow));
    }
  }

  // ---------------------------------------------------------------------------
  // Properties of the dispatch
  // ---------------------------------------------------------------------------

  /** The OK-path sends are thread posts only: no notification, no closing. */
  lemma ReplyPostsArePosts(replyText: Option<string>, split: string -> seq<string>)
    ensures forall k :: 0 <= k < |ReplyPosts(replyText, split)| ==> ReplyPosts(replyText, split)[k].Post?
  {
    if !IsFalsy(replyText) {
      ChunkPostsAt(split(replyText.value));
    }
  }

  /** An absent or empty reply gives one "empty response" notice, and the splitter plays no part. */
  lemma EmptyReplyOneNotice(replyText: Option<string>, split: string -> seq<string>, otherSplit: string -> seq<string>)
    requires IsFalsy(replyText)
    ensures ReplyPosts(replyText, split) == [Post(EmptyResponseNotice)]
    ensures ReplyPosts(replyText, split) == ReplyPosts(replyText, otherSplit)
  {
  }

  /** A non-empty reply is sent chunk by chunk: each chunk of the split reply once, in order, and nothing else. */
  lemma ReplyChunksSentInOrder(replyText: Option<string>, split: string -> seq<string>)
    requires !IsFalsy(replyText)
    ensures |ReplyPosts(replyText, split)| == |split(replyText.value)|
    ensures forall k :: 0 <= k < |split(replyText.value)| ==>
      ReplyPosts(replyText, split)[k] == Post(Text(split(replyText.value)[k]))
  {
    ChunkPostsAt(split(replyText.value));
  }

  /** For OK, the effects are exactly the reply sends. */
  lemma OkSendsOnlyReply(user: string, data: ChatCompletionData, split: string -> seq<string>, base: nat)
    requires data.status == Ok
    ensures Effects(user, data, split, base) == ReplyPosts(data.replyText, split)
    ensures forall k :: 0 <= k < |Effects(user, data, split, base)| ==> Effects(user, data, split, base)[k].Post?
  {
    ReplyPostsArePosts(data.replyText, split);
  }

  /**
   * For MODERATION_FLAGGED: all reply sends come first, then exactly one flagged
   * notification, then the flagged notice, and nothing after it.
   */
  lemma FlaggedOrder(user: string, data: ChatCompletionData, split: string -> seq<string>, base: nat)
    requires data.status == ModerationFlagged
    ensures var e := Effects(user, data, split, base);
      var n := |ReplyPosts(data.replyText, split)|;
      && |e| == n + 2
      && e[..n] == ReplyPosts(data.replyText, split)
      && e[n].FlaggedNotification?
      && e[n] == FlaggedNotification(user, data.statusText, data.replyText, e[n].url)
      && e[n + 1] == Post(FlaggedNotice)
      && (forall k :: 0 <= k < |e| && e[k].FlaggedNotification? ==> k == n)
      && (forall k :: 0 <= k < |e| && !e[k].Post? ==> k == n)
  {
    ReplyPostsArePosts(data.replyText, split);
  }

  /**
   * For MODERATION_FLAGGED, the notification links to the last message sent for
   * the reply, and it carries "no url" exactly when nothing was sent.
   */
  lemma FlaggedLink(user: string, data: ChatCompletionData, split: string -> seq<string>, base: nat)
    requires data.status == ModerationFlagged
    ensures var e := Effects(user, data, split, base);
      var n := |ReplyPosts(data.replyText, split)|;
      && (e[n].url == NoUrl <==> n == 0)
      && (e[n].url == NoUrl <==> !IsFalsy(data.replyText) && split(data.replyText.value) == [])
      && (e[n].url.JumpUrl? ==> e[n].url.position == base + n - 1 && e[n - 1].Post?)
  {
    ReplyPostsArePosts(data.replyText, split);
    if !IsFalsy(data.replyText) {
      ChunkPostsAt(split(data.replyText.value));
    }
  }

  /** For MODERATION_BLOCKED the reply is never posted: only the notification and the blocked notice. */
  lemma BlockedNeverSendsReply(user: string, data: ChatCompletionData, split: string -> seq<string>, base: nat)
    requires data.status == ModerationBlocked
    ensures var e := Effects(user, data, split, base);
      && e == [BlockedNotification(user, data.statusText, data.replyText), Post(BlockedNotice)]
      && forall k :: 0 <= k < |e| ==> !(e[k].Post? && e[k].content.Text?)
  {
  }

  /** The error statuses: TOO_LONG only closes the thread; the others post one notice with the status text. */
  lemma ErrorStatusEffects(user: string, data: ChatCompletionData, split: string -> seq<string>, base: nat)
    ensures var e := Effects(user, data, split, base);
      && (data.status == TooLong ==> e == [CloseThread])
      && (data.status == InvalidRequest ==>
            e == [Post(Embed("**Invalid request** - " + Shown(data.statusText), Yellow))])
      && (data.status == OtherError ==> e == [Post(Embed("**Error** - " + Shown(data.statusText), Yellow))])
  {
  }

  /** Only the moderation statuses ever reach the moderation log. */
  lemma NotificationsOnlyForModeration(user: string, data: ChatCompletionData, split: string -> seq<string>, base: nat)
    requires data.status !in {ModerationFlagged, ModerationBlocked}
    ensures var e := Effects(user, data, split, base);
      forall k :: 0 <= k < |e| ==> !e[k].FlaggedNotification? && !e[k].BlockedNotification?
  {
    ReplyPostsArePosts(data.replyText, split);
  }

  /** Whatever the classifier reports, dispatching it never reaches the moderation log. */
  lemma ClassifiedNeverNotifies(user: string, outcome: Outcome, split: string -> seq<string>, base: nat)
    ensures var e := Effects(user, ClassifyComplete(outcome), split, base);
      forall k :: 0 <= k < |e| ==> !e[k].FlaggedNotification? && !e[k].BlockedNotification?
  {
    NotificationsOnlyForModeration(user, ClassifyComplete(outcome), split, base);
  }

  /** The completed classifier turns a blank reply into exactly the "empty response" notice. */
  lemma BlankReplyGetsEmptyNotice(user: string, content: string, split: string -> seq<string>, base: nat)
    requires AllSpace(content)
    ensures Effects(user, ClassifyComplete(Reply(content)), split, base) == [Post(EmptyResponseNotice)]
  {
  }
}
