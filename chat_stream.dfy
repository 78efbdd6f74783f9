/**
 * The chat-stream hook: `sendMessage` makes sure a chat exists, appends the user's
 * message and an empty bot placeholder, then reads the response chunk by chunk into an
 * accumulator, pushing each running text to `updateLastBotMessage`; `stop` aborts the
 * request. The network is abstracted as the already-decoded chunks the reader delivers
 * and how the reader ends. Every call the hook makes on the provider, and every change
 * of its loading flag, is recorded in `trace`.
 */
module ChatStream {
  import opened Wrappers
  import opened ChatContext

  const AbortErrorName: string := "AbortError"
  const StopMarker: string := "\n\n\U{26D4} **Stopped by user**"
  const NoStreamWarning: string := "\U{26A0}\U{FE0F} No response stream."

  /** How the reader ends once the delivered chunks are exhausted. */
  datatype StreamEnd = Done | Thrown(name: string)

  /** The response: no body at all, or a body that delivers `chunks` and then ends. */
  datatype Response = NoBody | Body(chunks: seq<string>, end: StreamEnd)

  /** What one `reader.read()` yields. */
  datatype ReadResult = Chunk(value: string) | Finished | Raised(name: string)

  /** An observable step of the hook: a call on the provider, or a loading-flag change. */
  datatype Effect =
    | CreateNewChat
    | AddMessage(msg: Message)
    | UpdateLastBotMessage(text: string)
    | SetLoading(on: bool)

  /** The `step`-th read of a body that delivers `chunks` and then ends with `end`. */
  function ReadAt(chunks: seq<string>, end: StreamEnd, step: nat): (r: ReadResult)
    ensures step < |chunks| <==> r.Chunk?
    ensures r.Chunk? ==> r.value == chunks[step]
    ensures r.Finished? <==> step >= |chunks| && end.Done?
    ensures r.Raised? <==> step >= |chunks| && end.Thrown?
    ensures r.Raised? ==> r.name == end.name
  {
    if step < |chunks| then Chunk(chunks[step])
    else match end
      case Done => Finished
      case Thrown(name) => Raised(name)
  }

  /** `!currentChatId`: a null current id and the empty id are both falsy. */
  predicate NeedsNewChat(current: Option<string>) {
    current.None? || current.value == ""
  }

  function UserMessage(id: string, text: string, now: Instant): Message {
    Message(id, text, User, now)
  }

  function BotPlaceholder(id: string, now: Instant): Message {
    Message(id, "", Bot, now)
  }

  /** The concatenation of the chunks, in order. */
  function Concat(chunks: seq<string>): string {
    if chunks == [] then "" else Concat(chunks[..|chunks| - 1]) + chunks[|chunks| - 1]
  }

  /** One `updateLastBotMessage` per delivered chunk, each with the text so far. */
  function Updates(chunks: seq<string>): (r: seq<Effect>)
    ensures |r| == |chunks|
    ensures forall e :: e in r ==> e.UpdateLastBotMessage?
  {
    if chunks == [] then [] else Updates(chunks[..|chunks| - 1]) + [UpdateLastBotMessage(Concat(chunks))]
  }

  /** The calls made before the request: create a chat if needed, then the two messages. */
  function Prelude(current: Option<string>, text: string, userId: string, botId: string, now: Instant): seq<Effect> {
    (if NeedsNewChat(current) then [CreateNewChat] else [])
      + [AddMessage(UserMessage(userId, text, now)), AddMessage(BotPlaceholder(botId, now))]
  }

  /** The abort branch of the `catch`: the error's name decides, as in the hook. */
  predicate IsAbort(end: StreamEnd) {
    end.Thrown? && end.name == AbortErrorName
  }

  /** The updates that follow the request: the warning, or the stream's updates and an abort's marker. */
  function UpdatesOf(response: Response): seq<Effect> {
    match response
    case NoBody => [UpdateLastBotMessage(NoStreamWarning)]
    case Body(chunks, end) =>
      Updates(chunks) + (if IsAbort(end) then [UpdateLastBotMessage(Concat(chunks) + StopMarker)] else [])
  }

  /** What follows the request: the updates, then loading off. */
  function StreamEffects(response: Response): seq<Effect> {
    UpdatesOf(response) + [SetLoading(false)]
  }

  /** Everything one `sendMessage` does, in order. */
  function SendEffects(current: Option<string>, text: string, userId: string, botId: string, now: Instant,
                       response: Response): seq<Effect> {
    Prelude(current, text, userId, botId, now) + [SetLoading(true)] + StreamEffects(response)
  }

  /** The number of `reader.read()` calls: none without a body, else one per chunk plus the last. */
  function ReadCount(response: Response): nat {
    match response
    case NoBody => 0
    case Body(chunks, _) => |chunks| + 1
  }

  /** The text of the last `updateLastBotMessage` among the effects, if any. */
  function LastUpdate(effects: seq<Effect>): Option<string> {
    if effects == [] then None
    else match effects[|effects| - 1]
      case UpdateLastBotMessage(t) => Some(t)
      case _ => LastUpdate(effects[..|effects| - 1])
  }

  // ---------------------------------------------------------------------------
  // Lemmas about the accumulator

  lemma {:induction false} ConcatAppend(chunks: seq<string>, i: nat)
    requires i < |chunks|
    ensures Concat(chunks[..i + 1]) == Concat(chunks[..i]) + chunks[i]
  {
    assert chunks[..i + 1][..i] == chunks[..i];
  }

  /** After the k-th chunk the text pushed is the concatenation of chunks 1..k. */
  lemma {:induction false} UpdatesAt(chunks: seq<string>, k: nat)
    requires k < |chunks|
    ensures |Updates(chunks)| == |chunks|
    ensures Updates(chunks)[k] == UpdateLastBotMessage(Concat(chunks[..k + 1]))
  {
    var n := |chunks| - 1;
    var init := chunks[..n];
    if k < n {
      UpdatesAt(init, k);
      assert init[..k + 1] == chunks[..k + 1];
    } else {
      assert chunks[..k + 1] == chunks;
      if n > 0 { UpdatesAt(init, 0); }
    }
  }

  /** Every running text is a prefix of the final one: the accumulator only grows. */
  lemma {:induction false} ConcatPrefix(chunks: seq<string>, k: nat)
    requires k <= |chunks|
    ensures Concat(chunks[..k]) <= Concat(chunks)
  {
    if k < |chunks| {
      var n := |chunks| - 1;
      assert chunks[..n][..k] == chunks[..k];
      ConcatPrefix(chunks[..n], k);
    } else {
      assert chunks[..k] == chunks;
    }
  }

  /** The `Updates` and the next update: one running text more. */
  lemma {:induction false} UpdatesStep(chunks: seq<string>, i: nat)
    requires i < |chunks|
    ensures Updates(chunks[..i + 1]) == Updates(chunks[..i]) + [UpdateLastBotMessage(Concat(chunks[..i + 1]))]
  {
    assert chunks[..i + 1][..i] == chunks[..i];
  }

  lemma {:induction false} LastUpdateOfUpdates(chunks: seq<string>)
    ensures LastUpdate(Updates(chunks)) == if chunks == [] then None else Some(Concat(chunks))
  {
  }

  lemma {:induction false} LastUpdateSkips(effects: seq<Effect>, tail: seq<Effect>)
    requires forall e :: e in tail ==> !e.UpdateLastBotMessage?
    ensures LastUpdate(effects + tail) == LastUpdate(effects)
  {
    if tail != [] {
      var n := |tail| - 1;
      assert (effects + tail)[..|effects + tail| - 1] == effects + tail[..n];
      assert tail[n] in tail;
      assert forall e :: e in tail[..n] ==> e in tail;
      LastUpdateSkips(effects, tail[..n]);
    } else {
      assert effects + tail == effects;
    }
  }

  /** Steps that are not updates, placed before the effects, do not change the last pushed text. */
  lemma {:induction false} LastUpdateIgnoresPrefix(head: seq<Effect>, effects: seq<Effect>)
    requires forall e :: e in head ==> !e.UpdateLastBotMessage?
    ensures LastUpdate(head + effects) == LastUpdate(effects)
    decreases |effects|
  {
    if effects == [] {
      LastUpdateSkips([], head);
      assert [] + head == head + effects;
    } else {
      var n := |effects| - 1;
      assert (head + effects)[..|head + effects| - 1] == head + effects[..n];
      assert (head + effects)[|head + effects| - 1] == effects[n];
      LastUpdateIgnoresPrefix(head, effects[..n]);
    }
  }

  /**
   * The text the bot message shows after `sendMessage` is the last one the stream pushed:
   * the calls before the request and the loading changes never change it.
   */
  lemma DisplayedText(current: Option<string>, text: string, userId: string, botId: string, now: Instant,
                      response: Response)
    ensures LastUpdate(StreamEffects(response)) == LastUpdate(UpdatesOf(response))
    ensures LastUpdate(SendEffects(current, text, userId, botId, now, response)) == LastUpdate(UpdatesOf(response))
  {
    var head := Prelude(current, text, userId, botId, now) + [SetLoading(true)];
    var ups := UpdatesOf(response);
    LastUpdateSkips(ups, [SetLoading(false)]);
    assert forall e :: e in head ==> !e.UpdateLastBotMessage? by {
      forall e | e in head ensures !e.UpdateLastBotMessage? {
        assert e == CreateNewChat || e.AddMessage? || e == SetLoading(true);
      }
    }
    LastUpdateIgnoresPrefix(head, StreamEffects(response));
    assert SendEffects(current, text, userId, botId, now, response) == head + StreamEffects(response);
  }

  /**
   * The text the bot message is left with: the warning without a body; otherwise the
   * concatenated chunks, followed by the stop marker after an abort. Another error
   * leaves the last partial text (with no chunk at all, the empty placeholder stands).
   */
  lemma FinalText(response: Response)
    ensures response.NoBody? ==> LastUpdate(StreamEffects(response)) == Some(NoStreamWarning)
    ensures response.Body? && IsAbort(response.end) ==>
              LastUpdate(StreamEffects(response)) == Some(Concat(response.chunks) + StopMarker)
    ensures response.Body? && !IsAbort(response.end) ==>
              LastUpdate(StreamEffects(response)) == if response.chunks == [] then None else Some(Concat(response.chunks))
  {
  }

  /**
   * How many updates a response leads to: exactly the chunks after a normal end or
   * another error, one more after an abort, exactly one (the warning) without a body;
   * and no read happens without a body.
   */
  lemma UpdateCount(response: Response)
    ensures forall e :: e in UpdatesOf(response) ==> e.UpdateLastBotMessage?
    ensures response.NoBody? ==> |UpdatesOf(response)| == 1 && ReadCount(response) == 0
    ensures response.Body? && IsAbort(response.end) ==> |UpdatesOf(response)| == |response.chunks| + 1
    ensures response.Body? && !IsAbort(response.end) ==> |UpdatesOf(response)| == |response.chunks|
    ensures response.Body? && IsAbort(response.end) ==>
              UpdatesOf(response)[|response.chunks|] == UpdateLastBotMessage(Concat(response.chunks) + StopMarker)
  {
  }

  /** Each text pushed while streaming is a prefix of the text the stream ends with. */
  lemma StreamPrefixes(chunks: seq<string>, k: nat)
    requires k < |chunks|
    ensures Updates(chunks)[k].text <= Concat(chunks)
  {
  }

  /**
   * Loading is switched on once, right after the two messages, and off once, as the
   * very last step; nothing in between touches it.
   */
  lemma LoadingBracket(current: Option<string>, text: string, userId: string, botId: string, now: Instant,
                       response: Response)
    ensures var effects := SendEffects(current, text, userId, botId, now, response);
            var on := |Prelude(current, text, userId, botId, now)|;
            && on < |effects| - 1
            && effects[on] == SetLoading(true)
            && effects[|effects| - 1] == SetLoading(false)
            && forall i :: 0 <= i < |effects| && effects[i].SetLoading? ==> i == on || i == |effects| - 1
  {
    var effects := SendEffects(current, text, userId, botId, now, response);
    var pre := Prelude(current, text, userId, botId, now);
    var ups := UpdatesOf(response);
    assert effects == pre + [SetLoading(true)] + ups + [SetLoading(false)];
    UpdateCount(response);
    forall i | 0 <= i < |pre| ensures !effects[i].SetLoading? {
      assert effects[i] == pre[i];
    }
    forall i | |pre| < i < |effects| - 1 ensures !effects[i].SetLoading? {
      assert effects[i] == ups[i - |pre| - 1] && ups[i - |pre| - 1] in ups;
    }
  }

  /** The example run: "Hel" then "lo!" leave the bot message reading "Hello!". */
  lemma HelloExample()
    ensures Updates(["Hel", "lo!"]) == [UpdateLastBotMessage("Hel"), UpdateLastBotMessage("Hello!")]
    ensures LastUpdate(StreamEffects(Body(["Hel", "lo!"], Done))) == Some("Hello!")
  {
    var chunks := ["Hel", "lo!"];
    assert chunks[..1] == ["Hel"] && ["Hel"][..0] == [];
    assert Concat(["Hel"]) == "Hel";
    assert Concat(chunks) == "Hello!";
    FinalText(Body(chunks, Done));
  }

  // ---------------------------------------------------------------------------
  // What the calls do to the registry

  /**
   * Plays the hook's provider calls against a registry: `createNewChat` with the given
   * fresh id, `addMessage` with the given clock; updates of the bot message are not
   * defined by the provider and leave the registry alone, as do loading changes.
   */
  function Replay(reg: Registry, effects: seq<Effect>, newId: string, dateLabel: string, now: Instant): Registry
    decreases |effects|
  {
    if effects == [] then reg
    else
      var next := match effects[0]
        case CreateNewChat => WithNewChat(reg, newId, dateLabel, now)
        case AddMessage(m) => reg.(chats := WithMessage(reg.chats, reg.currentChatId, m, now))
        case _ => reg;
      Replay(next, effects[1..], newId, dateLabel, now)
  }

  /**
   * One `addMessage` whose closure captured the current id `captured` when it was
   * rendered: it appends to the chats with that id, whatever is current by now.
   */
  function AddedUnder(reg: Registry, captured: Option<string>, m: Message, now: Instant): Registry {
    reg.(chats := WithMessage(reg.chats, captured, m, now))
  }

  /** One `addMessage` played against a registry. */
  function Added(reg: Registry, m: Message, now: Instant): Registry {
    reg.(chats := WithMessage(reg.chats, reg.currentChatId, m, now))
  }

  /** The prelude's calls amount to an optional new chat followed by the two appends. */
  lemma ReplayPrelude(reg: Registry, text: string, userId: string, botId: string, now: Instant,
                      newId: string, dateLabel: string)
    ensures var start := if NeedsNewChat(reg.currentChatId) then WithNewChat(reg, newId, dateLabel, now) else reg;
            Replay(reg, Prelude(reg.currentChatId, text, userId, botId, now), newId, dateLabel, now) ==
            Added(Added(start, UserMessage(userId, text, now), now), BotPlaceholder(botId, now), now)
  {
    var u := UserMessage(userId, text, now);
    var b := BotPlaceholder(botId, now);
    var start := if NeedsNewChat(reg.currentChatId) then WithNewChat(reg, newId, dateLabel, now) else reg;
    var p := Prelude(reg.currentChatId, text, userId, botId, now);
    var q := [AddMessage(u), AddMessage(b)];
    var mid := Added(start, u, now);
    assert Replay(mid, [AddMessage(b)], newId, dateLabel, now) == Replay(Added(mid, b, now), [], newId, dateLabel, now);
    assert q[1..] == [AddMessage(b)];
    assert Replay(start, q, newId, dateLabel, now) == Replay(mid, [AddMessage(b)], newId, dateLabel, now);
    if NeedsNewChat(reg.currentChatId) {
      assert p == [CreateNewChat] + q && p[1..] == q;
    } else {
      assert p == q;
    }
  }

  /** The registry after `sendMessage`'s calls, before any chunk arrives. */
  function AfterPrelude(reg: Registry, text: string, userId: string, botId: string, now: Instant,
                        newId: string, dateLabel: string): Registry {
    Replay(reg, Prelude(reg.currentChatId, text, userId, botId, now), newId, dateLabel, now)
  }

  /** Two appends in a row: the current chat gains both messages, in order. */
  lemma FindAfterTwoAdds(chats: seq<Chat>, current: Option<string>, u: Message, b: Message, now: Instant)
    requires FindChat(chats, current).Some?
    ensures var c := FindChat(chats, current).value;
            FindChat(WithMessage(WithMessage(chats, current, u, now), current, b, now), current) ==
            Some(c.(messages := c.messages + [u] + [b], updatedAt := now))
  {
  }

  /**
   * With a falsy current id, a new greeting chat is created, made current, and ends with
   * the user's message and the empty bot placeholder.
   */
  lemma TurnInNewChat(reg: Registry, text: string, userId: string, botId: string, now: Instant,
                      newId: string, dateLabel: string)
    requires NeedsNewChat(reg.currentChatId)
    ensures var r := AfterPrelude(reg, text, userId, botId, now, newId, dateLabel);
            r.currentChatId == Some(newId) &&
            FindChat(r.chats, r.currentChatId) ==
            Some(CreateChat(newId, dateLabel, now).(
                   messages := [Greeting(now)] + [UserMessage(userId, text, now)] + [BotPlaceholder(botId, now)],
                   updatedAt := now))
  {
    var start := WithNewChat(reg, newId, dateLabel, now);
    ReplayPrelude(reg, text, userId, botId, now, newId, dateLabel);
    var c := CreateChat(newId, dateLabel, now);
    assert FindChat(start.chats, start.currentChatId) == Some(c);
    FindAfterTwoAdds(start.chats, start.currentChatId, UserMessage(userId, text, now), BotPlaceholder(botId, now), now);
  }

  /**
   * The same turn as the hook is written: both `addMessage` calls still carry the falsy id
   * captured before `createNewChat`, so neither message reaches the new chat, which keeps
   * only its greeting; with a null captured id nothing changes after the creation at all.
   */
  lemma TurnLostInFreshChat(reg: Registry, text: string, userId: string, botId: string, now: Instant,
                            newId: string, dateLabel: string)
    requires NeedsNewChat(reg.currentChatId) && newId != ""
    ensures var start := WithNewChat(reg, newId, dateLabel, now);
            var captured := reg.currentChatId;
            var r := AddedUnder(AddedUnder(start, captured, UserMessage(userId, text, now), now),
                                captured, BotPlaceholder(botId, now), now);
            && r.currentChatId == Some(newId)
            && FindChat(r.chats, r.currentChatId) == Some(CreateChat(newId, dateLabel, now))
            && (captured.None? ==> r == start)
  {
  }

  /**
   * With a truthy current id that names a chat, that chat (the first with the id) ends
   * with the user's message and the empty bot placeholder, and stays current.
   */
  lemma TurnInCurrentChat(reg: Registry, text: string, userId: string, botId: string, now: Instant,
                          newId: string, dateLabel: string)
    requires !NeedsNewChat(reg.currentChatId) && FindChat(reg.chats, reg.currentChatId).Some?
    ensures var r := AfterPrelude(reg, text, userId, botId, now, newId, dateLabel);
            var c := FindChat(reg.chats, reg.currentChatId).value;
            r.currentChatId == reg.currentChatId &&
            FindChat(r.chats, r.currentChatId) ==
            Some(c.(messages := c.messages + [UserMessage(userId, text, now)] + [BotPlaceholder(botId, now)],
                    updatedAt := now))
  {
    ReplayPrelude(reg, text, userId, botId, now, newId, dateLabel);
    FindAfterTwoAdds(reg.chats, reg.currentChatId, UserMessage(userId, text, now), BotPlaceholder(botId, now), now);
  }

  /** With a truthy current id that names no chat, both messages are silently lost. */
  lemma TurnLostOnDanglingId(reg: Registry, text: string, userId: string, botId: string, now: Instant,
                                  newId: string, dateLabel: string)
    requires !NeedsNewChat(reg.currentChatId) && FindChat(reg.chats, reg.currentChatId).None?
    ensures AfterPrelude(reg, text, userId, botId, now, newId, dateLabel) == reg
  {
    var u := UserMessage(userId, text, now);
    var b := BotPlaceholder(botId, now);
    ReplayPrelude(reg, text, userId, botId, now, newId, dateLabel);
    AddWithoutCurrentIsNoop(reg.chats, reg.currentChatId, u, now);
    AddWithoutCurrentIsNoop(reg.chats, reg.currentChatId, b, now);
  }

  // ---------------------------------------------------------------------------
  // The hook's state

  /** The request's cancellation handle. */
  class AbortController {
    var aborted: bool

    constructor ()
      ensures !aborted
    {
      aborted := false;
    }

    method Abort()
      modifies this
      ensures aborted
    {
      aborted := true;
    }
  }

  class StreamHook {
    var isLoading: bool
    var abortController: AbortController?
    var trace: seq<Effect>

    constructor ()
      ensures !isLoading && abortController == null && trace == []
    {
      isLoading := false;
      abortController := null;
      trace := [];
    }

    /**
     * `sendMessage(text)` with the current id the provider shows, the ids and clock value
     * the hook would generate, and the response the request receives. Returns how many
     * times the reader was read.
     */
    method SendMessage(current: Option<string>, text: string, userId: string, botId: string, now: Instant,
                       response: Response) returns (readCount: nat)
      modifies this
      ensures trace == old(trace) + SendEffects(current, text, userId, botId, now, response)
      ensures !isLoading
      ensures abortController != null && fresh(abortController) && !abortController.aborted
      ensures readCount == ReadCount(response)
    {
      StartTurn(current, text, userId, botId, now);
      isLoading := true;
      trace := trace + [SetLoading(true)];
      ghost var requested := trace;
      abortController := new AbortController();
      match response {
        case NoBody =>
          trace := trace + [UpdateLastBotMessage(NoStreamWarning)];
          readCount := 0;
        case Body(chunks, end) =>
          readCount := ReadStream(chunks, end);
      }
      isLoading := false;
      trace := trace + [SetLoading(false)];
      assert trace == requested + StreamEffects(response);
    }

    /**
     * The synchronous start of `sendMessage`: create a chat when the current id is
     * falsy, then append the user's message and the empty bot placeholder.
     */
    method StartTurn(current: Option<string>, text: string, userId: string, botId: string, now: Instant)
      modifies this`trace
      ensures trace == old(trace) + Prelude(current, text, userId, botId, now)
    {
      if NeedsNewChat(current) {
        trace := trace + [CreateNewChat];
      }
      trace := trace + [AddMessage(UserMessage(userId, text, now)), AddMessage(BotPlaceholder(botId, now))];
    }

    /**
     * The `try` block and its `catch`: read until the reader ends, pushing the running
     * text after every chunk; after an abort, push it once more with the stop marker.
     */
    method ReadStream(chunks: seq<string>, end: StreamEnd) returns (readCount: nat)
      modifies this`trace
      ensures trace == old(trace) + UpdatesOf(Body(chunks, end))
      ensures readCount == |chunks| + 1
    {
      var botText := "";
      var caught: Option<string> := None;
      readCount := 0;
      while true
        invariant readCount <= |chunks|
        invariant botText == Concat(chunks[..readCount])
        invariant trace == old(trace) + Updates(chunks[..readCount])
        decreases |chunks| - readCount
      {
        var r := ReadAt(chunks, end, readCount);
        match r {
          case Finished =>
            readCount := readCount + 1;
            break;
          case Raised(name) =>
            readCount := readCount + 1;
            caught := Some(name);
            break;
          case Chunk(value) =>
            UpdatesStep(chunks, readCount);
            ConcatAppend(chunks, readCount);
            botText := botText + value;
            trace := trace + [UpdateLastBotMessage(botText)];
            readCount := readCount + 1;
        }
      }
      assert chunks[..readCount - 1] == chunks;
      assert caught.Some? <==> end.Thrown?;
      if caught.Some? && caught.value == AbortErrorName {
        trace := trace + [UpdateLastBotMessage(botText + StopMarker)];
      }
    }

    /** `stop`: abort the request if there is one, and clear loading either way. */
    method Stop()
      modifies this, abortController
      ensures abortController == old(abortController)
      ensures abortController != null ==> abortController.aborted
      ensures !isLoading
      ensures trace == old(trace) + [SetLoading(false)]
    {
      if abortController != null {
        abortController.Abort();
      }
      isLoading := false;
      trace := trace + [SetLoading(false)];
    }
  }
}
