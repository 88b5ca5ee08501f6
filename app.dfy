/** The completion orchestrator and the handling of one inbound message
    (app.py). The provider's answer is an input: a finite sequence of
    chunks when streaming, one response otherwise, or a fault raised by
    the call. Cancellation by other tasks is observed, not performed: each
    chunk carries the values the cancel flag was seen to have at the two
    points where the orchestrator polls it. */
module App {
  import opened Wrappers
  import opened Manager
  import opened Formater

  /** The provider's default model, used when a request names none. */
  const DefaultModel := "qwen3-max"

  /** Text of the event that acknowledges a cancel command ("session cancelled"). */
  const CancelledNotice := "会话已取消"

  /** Text of the event for a decoding fault ("invalid JSON format"). */
  const InvalidJsonNotice := "无效的JSON格式"

  /** Prefix of the event for any other fault ("error while handling the message: "). */
  const FaultPrefix := "处理消息时出错: "

  /** An inbound frame, already parsed; absent keys are None. A present
      `stream` is held as its truthiness, so JSON null is `Some(false)`; a
      present `model` may be JSON null, which is `Some(None)`. */
  datatype ClientArgs = ClientArgs(
    message: Option<string>,
    sessionId: Option<string>,
    stream: Option<bool>,
    model: Option<Option<string>>)

  function UserText(args: ClientArgs): string {
    args.message.GetOr("")
  }

  function StreamFlag(args: ClientArgs): bool {
    args.stream.GetOr(true)
  }

  /** The model passed to the provider: the default only when the key is
      absent; a present null is passed on as None. */
  function ModelName(args: ClientArgs): Option<string> {
    args.model.GetOr(Some(DefaultModel))
  }

  /** The arguments handed to the provider. */
  datatype Request = Request(model: Option<string>, messages: seq<LLMMessage>, stream: bool)

  /** One provider response: HTTP status OK or not, a non-empty choice list
      or not, the first choice's content, and the provider's message text. */
  datatype Chunk = Chunk(ok: bool, hasChoices: bool, content: string, errMsg: string)

  predicate Succeeded(c: Chunk) {
    c.ok && c.hasChoices
  }

  /** A streamed chunk together with the cancel flag as seen when the chunk
      is taken, and as seen after its running event has been sent. */
  datatype Polled = Polled(chunk: Chunk, cancelledOnTake: bool, cancelledAfterSend: bool)

  /** A fault raised by the provider call. */
  datatype Fault = MalformedJson | Raised(description: string)

  datatype Provider =
    | Streamed(steps: seq<Polled>)
    | Single(resp: Chunk)
    | CallFailed(fault: Fault)

  /** An outbound event: its session, its status tag and its content. */
  datatype Event = Event(sessionId: string, status: SessionStatus, content: Option<string>)

  /** How a completion ends: normally, or by raising. */
  datatype Exit = Returned | RaisedHistory(error: Error) | RaisedFault(description: string)

  // ---------------------------------------------------------------------
  // Specification of the streaming loop and of a whole completion

  /** The event a chunk produces when it is processed. */
  function ChunkEvent(sid: string, c: Chunk): Event {
    if Succeeded(c) then Event(sid, RUNNING, Some(c.content)) else Event(sid, ERROR, Some(c.errMsg))
  }

  /** Events sent so far, content accumulated so far, and whether the loop returned. */
  datatype StreamState = StreamState(events: seq<Event>, full: string, stopped: bool)

  function StreamStep(sid: string, st: StreamState, p: Polled): StreamState {
    if st.stopped then st
    else if p.cancelledOnTake then st.(stopped := true)
    else if Succeeded(p.chunk) then
      StreamState(st.events + [ChunkEvent(sid, p.chunk)], st.full + p.chunk.content, p.cancelledAfterSend)
    else StreamState(st.events + [ChunkEvent(sid, p.chunk)], st.full, false)
  }

  /** The streaming loop over the given chunks. */
  function StreamRun(sid: string, steps: seq<Polled>): StreamState {
    if steps == [] then StreamState([], "", false)
    else StreamStep(sid, StreamRun(sid, steps[..|steps| - 1]), steps[|steps| - 1])
  }

  /** What a completion produced: its events, the assistant reply appended to
      history (if any), and how it ended. */
  datatype Run = Run(events: seq<Event>, reply: Option<string>, exit: Exit)

  /** The tail common to both modes: unless cancelled, one completed event
      and the accumulated content as the reply. */
  function Finish(sid: string, events: seq<Event>, full: string, cancelledAtEnd: bool): Run {
    if cancelledAtEnd then Run(events, None, Returned)
    else Run(events + [Event(sid, COMPLETED, None)], Some(full), Returned)
  }

  /** Everything a completion does after the user message is stored.
      `cancelledAtEnd` is the is_cancelled flag as read after the provider's answer. */
  function CompletionRun(sid: string, provider: Provider, cancelledAtEnd: bool): Run {
    match provider
    case CallFailed(MalformedJson) => Run([Event(sid, ERROR, Some(InvalidJsonNotice))], None, Returned)
    case CallFailed(Raised(d)) => Run([Event(sid, ERROR, Some(FaultPrefix + d))], None, RaisedFault(d))
    case Streamed(steps) =>
      var st := StreamRun(sid, steps);
      if st.stopped then Run(st.events, None, Returned)
      else Finish(sid, st.events, st.full, cancelledAtEnd)
    case Single(c) =>
      if Succeeded(c) then Finish(sid, [ChunkEvent(sid, c)], c.content, cancelledAtEnd)
      else Finish(sid, [], "", cancelledAtEnd)
  }

  /** Concatenated content of the running events. */
  function RunningText(events: seq<Event>): string {
    if events == [] then ""
    else
      var e := events[|events| - 1];
      RunningText(events[..|events| - 1]) + (if e.status == RUNNING then e.content.GetOr("") else "")
  }

  /** Concatenated content of the successful chunks. */
  function OkText(steps: seq<Polled>): string {
    if steps == [] then ""
    else
      var c := steps[|steps| - 1].chunk;
      OkText(steps[..|steps| - 1]) + (if Succeeded(c) then c.content else "")
  }

  /** One event per chunk, in order. */
  function ChunkEvents(sid: string, steps: seq<Polled>): seq<Event> {
    seq(|steps|, i requires 0 <= i < |steps| => ChunkEvent(sid, steps[i].chunk))
  }

  /** A chunk at which the loop returns. */
  predicate Interrupts(p: Polled) {
    p.cancelledOnTake || (Succeeded(p.chunk) && p.cancelledAfterSend)
  }

  predicate Uninterrupted(steps: seq<Polled>) {
    forall i :: 0 <= i < |steps| ==> !Interrupts(steps[i])
  }

  // ---------------------------------------------------------------------
  // Properties of the streaming loop

  /** Once the loop has returned, later chunks change nothing. */
  lemma {:induction false} StopIsFinal(sid: string, steps: seq<Polled>, k: nat)
    requires k <= |steps| && StreamRun(sid, steps[..k]).stopped
    ensures StreamRun(sid, steps) == StreamRun(sid, steps[..k])
    decreases |steps|
  {
    if k < |steps| {
      var init := steps[..|steps| - 1];
      assert init[..k] == steps[..k];
      StopIsFinal(sid, init, k);
    } else {
      assert steps[..k] == steps;
    }
  }

  /** Every streamed event belongs to the session and is a running or an error event. */
  lemma {:induction false} StreamEventTags(sid: string, steps: seq<Polled>)
    ensures forall e :: e in StreamRun(sid, steps).events ==>
      e.sessionId == sid && (e.status == RUNNING || e.status == ERROR)
  {
    if steps != [] {
      StreamEventTags(sid, steps[..|steps| - 1]);
    }
  }

  lemma RunningTextSnoc(events: seq<Event>, e: Event)
    ensures RunningText(events + [e]) ==
      RunningText(events) + (if e.status == RUNNING then e.content.GetOr("") else "")
  {
    assert (events + [e])[..|events|] == events;
  }

  /** The running events carry, in order, exactly the accumulated content. */
  lemma {:induction false} StreamTextMatches(sid: string, steps: seq<Polled>)
    ensures RunningText(StreamRun(sid, steps).events) == StreamRun(sid, steps).full
  {
    if steps != [] {
      var init := steps[..|steps| - 1];
      var p := steps[|steps| - 1];
      var prev := StreamRun(sid, init);
      StreamTextMatches(sid, init);
      if !prev.stopped && !p.cancelledOnTake {
        RunningTextSnoc(prev.events, ChunkEvent(sid, p.chunk));
      }
    }
  }

  /** Without a cancellation, each chunk yields exactly one event (running
      with its content, or error with the provider's message), and the
      accumulated content is that of the successful chunks. */
  lemma {:induction false} UninterruptedStream(sid: string, steps: seq<Polled>)
    requires Uninterrupted(steps)
    ensures StreamRun(sid, steps) == StreamState(ChunkEvents(sid, steps), OkText(steps), false)
  {
    if steps != [] {
      var init := steps[..|steps| - 1];
      assert Uninterrupted(init) by {
        forall i | 0 <= i < |init| ensures !Interrupts(init[i]) {
          assert init[i] == steps[i];
        }
      }
      UninterruptedStream(sid, init);
      assert !Interrupts(steps[|steps| - 1]);
      assert ChunkEvents(sid, steps) == ChunkEvents(sid, init) + [ChunkEvent(sid, steps[|steps| - 1].chunk)];
    }
  }

  /** A cancel seen when chunk k is taken ends the loop after the events of
      the chunks before it; chunk k produces nothing. */
  lemma CancelOnTake(sid: string, steps: seq<Polled>, k: nat)
    requires k < |steps| && Uninterrupted(steps[..k]) && steps[k].cancelledOnTake
    ensures StreamRun(sid, steps) == StreamState(ChunkEvents(sid, steps[..k]), OkText(steps[..k]), true)
  {
    UninterruptedStream(sid, steps[..k]);
    assert steps[..k + 1][..k] == steps[..k];
    StopIsFinal(sid, steps, k + 1);
  }

  /** A cancel seen right after chunk k's running event ends the loop with
      that event as the last one. */
  lemma CancelAfterSend(sid: string, steps: seq<Polled>, k: nat)
    requires k < |steps| && Uninterrupted(steps[..k])
    requires !steps[k].cancelledOnTake && Succeeded(steps[k].chunk) && steps[k].cancelledAfterSend
    ensures StreamRun(sid, steps) == StreamState(ChunkEvents(sid, steps[..k + 1]), OkText(steps[..k + 1]), true)
  {
    UninterruptedStream(sid, steps[..k]);
    assert steps[..k + 1][..k] == steps[..k];
    assert ChunkEvents(sid, steps[..k + 1]) == ChunkEvents(sid, steps[..k]) + [ChunkEvent(sid, steps[k].chunk)];
    StopIsFinal(sid, steps, k + 1);
  }

  // ---------------------------------------------------------------------
  // Properties of a whole completion

  /** The events all belong to the session; a completed event occurs only as
      the very last event, exactly when a reply is stored; and a reply is
      stored exactly when the call did not fail, the loop did not return
      and the session was not cancelled at the end. */
  lemma CompletedIsLast(sid: string, provider: Provider, cancelledAtEnd: bool)
    ensures var r := CompletionRun(sid, provider, cancelledAtEnd);
      && (forall e :: e in r.events ==> e.sessionId == sid)
      && (forall i :: 0 <= i < |r.events| && r.events[i].status == COMPLETED ==>
            i == |r.events| - 1 && r.reply.Some?)
      && (r.reply.Some? ==> |r.events| > 0 && r.events[|r.events| - 1] == Event(sid, COMPLETED, None))
      && (r.reply.Some? <==>
            !cancelledAtEnd && !provider.CallFailed? &&
            !(provider.Streamed? && StreamRun(sid, provider.steps).stopped))
  {
    if provider.Streamed? {
      StreamEventTags(sid, provider.steps);
      var evs := StreamRun(sid, provider.steps).events;
      assert forall i :: 0 <= i < |evs| ==> evs[i] in evs;
    }
  }

  /** Finishing keeps the running text of the events and stores it as the reply. */
  lemma FinishKeepsText(sid: string, events: seq<Event>, full: string, cancelledAtEnd: bool)
    requires RunningText(events) == full
    ensures var r := Finish(sid, events, full, cancelledAtEnd);
      r.reply.Some? ==> r.reply.value == RunningText(r.events)
  {
    RunningTextSnoc(events, Event(sid, COMPLETED, None));
  }

  /** A single successful answer gives running text equal to its content. */
  lemma SingleChunkText(sid: string, c: Chunk)
    ensures RunningText([ChunkEvent(sid, c)]) == (if Succeeded(c) then c.content else "")
  {
    RunningTextSnoc([], ChunkEvent(sid, c));
    assert [] + [ChunkEvent(sid, c)] == [ChunkEvent(sid, c)];
  }

  /** The stored reply is the concatenation of the running events' contents. */
  lemma ReplyIsRunningText(sid: string, provider: Provider, cancelledAtEnd: bool)
    ensures var r := CompletionRun(sid, provider, cancelledAtEnd);
      r.reply.Some? ==> r.reply.value == RunningText(r.events)
  {
    var r := CompletionRun(sid, provider, cancelledAtEnd);
    match provider
    case Streamed(steps) =>
      var st := StreamRun(sid, steps);
      StreamTextMatches(sid, steps);
      if !st.stopped {
        assert r == Finish(sid, st.events, st.full, cancelledAtEnd);
        FinishKeepsText(sid, st.events, st.full, cancelledAtEnd);
      }
    case Single(c) =>
      if Succeeded(c) {
        SingleChunkText(sid, c);
        assert r == Finish(sid, [ChunkEvent(sid, c)], c.content, cancelledAtEnd);
        FinishKeepsText(sid, [ChunkEvent(sid, c)], c.content, cancelledAtEnd);
      } else {
        assert r == Finish(sid, [], "", cancelledAtEnd);
        FinishKeepsText(sid, [], "", cancelledAtEnd);
      }
    case CallFailed(_) =>
  }

  /** An uncancelled streaming run: one event per chunk, then one completed
      event, and the successful chunks' content stored as the reply. */
  lemma StreamedCompletion(sid: string, steps: seq<Polled>)
    requires Uninterrupted(steps)
    ensures CompletionRun(sid, Streamed(steps), false) ==
      Run(ChunkEvents(sid, steps) + [Event(sid, COMPLETED, None)], Some(OkText(steps)), Returned)
  {
    UninterruptedStream(sid, steps);
  }

  /** A session already cancelled when the stream starts (and still when it
      ends, if the stream is empty) gets no event and no reply. */
  lemma CancelledBeforeFirstChunk(sid: string, steps: seq<Polled>, cancelledAtEnd: bool)
    requires steps == [] ==> cancelledAtEnd
    requires steps != [] ==> steps[0].cancelledOnTake
    ensures CompletionRun(sid, Streamed(steps), cancelledAtEnd) == Run([], None, Returned)
  {
    if steps != [] {
      CancelOnTake(sid, steps, 0);
    }
  }

  /** Single-shot mode never polls the cancel flag: a successful answer is
      sent as one running event even on a cancelled session; a failed one
      sends no running or error event. Unless the session is cancelled, the
      completed event follows and the answer (empty on failure) is stored. */
  lemma SingleShot(sid: string, c: Chunk, cancelledAtEnd: bool)
    ensures var r := CompletionRun(sid, Single(c), cancelledAtEnd);
      var completed := if cancelledAtEnd then [] else [Event(sid, COMPLETED, None)];
      && r.exit == Returned
      && (Succeeded(c) ==>
            && r.events == [Event(sid, RUNNING, Some(c.content))] + completed
            && r.reply == (if cancelledAtEnd then None else Some(c.content)))
      && (!Succeeded(c) ==>
            && r.events == completed
            && r.reply == (if cancelledAtEnd then None else Some("")))
  {
  }

  // ---------------------------------------------------------------------
  // The orchestrator

  function UserMessage(args: ClientArgs, stamp: Stamp): CompletionMessage {
    NewMessage(stamp, USER, Some(UserText(args)), Some("user"))
  }

  /** The history entry stored for a reply, if there is one. */
  function ReplyEntry(reply: Option<string>, stamp: Stamp): seq<CompletionMessage> {
    if reply.Some? then [NewMessage(stamp, ASSISTANT, Some(reply.value), Some("assistant"))] else []
  }

  /** One completion for `session`: store the user message, build the
      request from the history window, process the provider's answer, and
      unless cancelled send the completed event and store the reply. History
      goes through the connection registry, by session id. */
  method Completion(wm: WebSocketManager, session: Session, args: ClientArgs, provider: Provider,
                    cancelledAtEnd: bool, userStamp: Stamp, replyStamp: Stamp)
    returns (request: Option<Request>, events: seq<Event>, exit: Exit)
    requires provider.Streamed? ==> StreamFlag(args)
    requires provider.Single? ==> !StreamFlag(args)
    modifies wm.Footprint(session.id)`messages
    ensures old(wm.CheckSession(session.id)).Failure? ==>
      request == None && events == [] && exit == RaisedHistory(old(wm.CheckSession(session.id)).error)
    ensures old(wm.CheckSession(session.id)).Success? ==>
      var target := old(wm.CheckSession(session.id)).value;
      var user := UserMessage(args, userStamp);
      var run := CompletionRun(session.id, provider, cancelledAtEnd);
      && events == run.events
      && exit == run.exit
      && target.messages == old(target.messages) + [user] + ReplyEntry(run.reply, replyStamp)
      && request == Some(Request(ModelName(args),
           LLMFormat(if target == session then old(session.messages) + [user] else old(session.messages),
                     DefaultHistoryLimit),
           StreamFlag(args)))
  {
    var sid := session.id;
    var user := UserMessage(args, userStamp);
    var added := wm.AddHistory(sid, user);
    if added.Failure? {
      return None, [], RaisedHistory(added.error);
    }
    var llmMessages := FormatHistory(session.messages, DefaultHistoryLimit);
    request := Some(Request(ModelName(args), llmMessages, StreamFlag(args)));
    var full := "";
    match provider {
      case CallFailed(MalformedJson) =>
        return request, [Event(sid, ERROR, Some(InvalidJsonNotice))], Returned;
      case CallFailed(Raised(d)) =>
        return request, [Event(sid, ERROR, Some(FaultPrefix + d))], RaisedFault(d);
      case Streamed(steps) =>
        var stopped;
        events, full, stopped := ConsumeStream(sid, steps);
        if stopped {
          return request, events, Returned;
        }
      case Single(c) =>
        events := [];
        if Succeeded(c) {
          full := c.content;
          events := [Event(sid, RUNNING, Some(c.content))];
        }
    }
    if !cancelledAtEnd {
      events := events + [Event(sid, COMPLETED, None)];
      added := wm.AddHistory(sid, NewMessage(replyStamp, ASSISTANT, Some(full), Some("assistant")));
    }
    exit := Returned;
  }

  /** The streaming loop as the source runs it: poll the cancel flag, send a
      running or an error event per chunk, accumulate the content, and return
      as soon as a cancel is seen. */
  method ConsumeStream(sid: string, steps: seq<Polled>) returns (events: seq<Event>, full: string, stopped: bool)
    ensures StreamRun(sid, steps) == StreamState(events, full, stopped)
  {
    events, full, stopped := [], "", false;
    var i := 0;
    while i < |steps|
      invariant 0 <= i <= |steps|
      invariant StreamRun(sid, steps[..i]) == StreamState(events, full, false)
    {
      var p := steps[i];
      assert steps[..i + 1][..i] == steps[..i];
      if p.cancelledOnTake {
        StopIsFinal(sid, steps, i + 1);
        return events, full, true;
      }
      if Succeeded(p.chunk) {
        full := full + p.chunk.content;
        events := events + [Event(sid, RUNNING, Some(p.chunk.content))];
        if p.cancelledAfterSend {
          StopIsFinal(sid, steps, i + 1);
          return events, full, true;
        }
      } else {
        events := events + [Event(sid, ERROR, Some(p.chunk.errMsg))];
      }
      i := i + 1;
    }
    assert steps[..i] == steps;
  }

  // ---------------------------------------------------------------------
  // Inbound messages

  /** Python's str.isspace for one character. */
  predicate IsSpace(c: char) {
    var n := c as int;
    || n == 0x20 || (0x09 <= n <= 0x0D) || (0x1C <= n <= 0x1F) || n == 0x85 || n == 0xA0
    || n == 0x1680 || (0x2000 <= n <= 0x200A) || n == 0x2028 || n == 0x2029
    || n == 0x202F || n == 0x205F || n == 0x3000
  }

  predicate AllSpace(s: string) {
    forall i :: 0 <= i < |s| ==> IsSpace(s[i])
  }

  function StripLeft(s: string): string {
    if s != [] && IsSpace(s[0]) then StripLeft(s[1..]) else s
  }

  function StripRight(s: string): string {
    if s != [] && IsSpace(s[|s| - 1]) then StripRight(s[..|s| - 1]) else s
  }

  /** Python's str.strip() with no argument. */
  function Strip(s: string): string {
    StripRight(StripLeft(s))
  }

  predicate IsCancelCommand(text: string) {
    Strip(text) == "cancel"
  }

  lemma {:induction false} StripLeftSplits(s: string)
    ensures |StripLeft(s)| <= |s|
    ensures s == s[..|s| - |StripLeft(s)|] + StripLeft(s)
    ensures AllSpace(s[..|s| - |StripLeft(s)|])
  {
    if s != [] && IsSpace(s[0]) {
      StripLeftSplits(s[1..]);
      var n := |s| - |StripLeft(s)|;
      assert s[..n] == [s[0]] + s[1..][..n - 1];
    }
  }

  lemma {:induction false} StripRightSplits(s: string)
    ensures |StripRight(s)| <= |s|
    ensures s == StripRight(s) + s[|StripRight(s)|..]
    ensures AllSpace(s[|StripRight(s)|..])
  {
    if s != [] && IsSpace(s[|s| - 1]) {
      var init := s[..|s| - 1];
      StripRightSplits(init);
      var n := |StripRight(s)|;
      assert s[n..] == init[n..] + [s[|s| - 1]];
    }
  }

  lemma {:induction false} StripLeftPadded(pre: string, u: string)
    requires AllSpace(pre) && (u == [] || !IsSpace(u[0]))
    ensures StripLeft(pre + u) == u
  {
    if pre != [] {
      assert (pre + u)[1..] == pre[1..] + u;
      StripLeftPadded(pre[1..], u);
    }
  }

  lemma {:induction false} StripRightPadded(u: string, post: string)
    requires AllSpace(post) && (u == [] || !IsSpace(u[|u| - 1]))
    ensures StripRight(u + post) == u
  {
    if post != [] {
      var init := post[..|post| - 1];
      assert (u + post)[..|u + post| - 1] == u + init;
      StripRightPadded(u, init);
    } else {
      assert u + post == u;
    }
  }

  /** Stripping a cancel command leaves whitespace on both sides of it. */
  lemma CancelCommandPadding(text: string)
    requires IsCancelCommand(text)
    ensures var left := StripLeft(text);
      && |left| >= 6 && |left| <= |text|
      && AllSpace(text[..|text| - |left|]) && AllSpace(left[6..])
      && text == text[..|text| - |left|] + "cancel" + left[6..]
  {
    StripLeftSplits(text);
    var left := StripLeft(text);
    StripRightSplits(left);
    assert |StripRight(left)| == 6;
  }

  /** "cancel" with whitespace around it strips to the cancel command. */
  lemma PaddedCancelCommand(pre: string, post: string)
    requires AllSpace(pre) && AllSpace(post)
    ensures IsCancelCommand(pre + "cancel" + post)
  {
    assert pre + "cancel" + post == pre + ("cancel" + post);
    StripLeftPadded(pre, "cancel" + post);
    StripRightPadded("cancel", post);
  }

  /** A message is the cancel command exactly when it is "cancel" with
      whitespace, and only whitespace, around it. */
  lemma CancelCommandShape(text: string)
    ensures IsCancelCommand(text) <==>
      exists pre, post :: AllSpace(pre) && AllSpace(post) && text == pre + "cancel" + post
  {
    if IsCancelCommand(text) {
      CancelCommandPadding(text);
    }
    if exists pre, post :: AllSpace(pre) && AllSpace(post) && text == pre + "cancel" + post {
      var pre, post :| AllSpace(pre) && AllSpace(post) && text == pre + "cancel" + post;
      PaddedCancelCommand(pre, post);
    }
  }

  /** What handling one inbound message does to its session, and whether it
      sends the cancelled event. */
  datatype Decision = Decision(state: Lifecycle, notify: bool)

  function Decide(st: Lifecycle, cancelCommand: bool, now: string): Decision {
    if cancelCommand then
      (if !st.isCancelled then Decision(Cancel(st, now), true) else Decision(st, false))
    else if st.isCancelled then
      Decision(st.(status := CREATED, cancelEvent := false, isCancelled := false), false)
    else Decision(st, false)
  }

  /** A non-cancel message always leaves the session uncancelled, brings a
      cancelled one back to CREATED with a clear signal, and never sends an event. */
  lemma OtherMessageReactivates(st: Lifecycle, now: string)
    ensures var d := Decide(st, false, now);
      && !d.notify && !d.state.isCancelled
      && (st.isCancelled ==> d.state.status == CREATED && !d.state.cancelEvent)
      && (!st.isCancelled ==> d.state == st)
  {
  }

  /** On a consistent session: the result is consistent, the session ends up
      cancelled exactly when the message was the cancel command, and the
      cancelled event is sent exactly when that command met an uncancelled session. */
  lemma DecideConsistent(st: Lifecycle, cancelCommand: bool, now: string)
    requires Consistent(st)
    ensures var d := Decide(st, cancelCommand, now);
      && Consistent(d.state)
      && (d.state.isCancelled <==> cancelCommand)
      && (d.state.status == CANCELLED <==> cancelCommand)
      && (d.notify <==> cancelCommand && !st.isCancelled)
  {
  }

  /** One turn of the inbound loop: resolve or create the session, record
      its id in the arguments, act on a cancel command or reactivate a
      cancelled session, and launch the completion (task `handle`), also for
      a cancel command. */
  method HandleInbound(sm: SessionManager, args: ClientArgs, freshId: string, createdAt: string, cancelledAt: string, handle: TaskHandle)
    returns (session: Session, launched: ClientArgs, events: seq<Event>)
    requires sm.Valid()
    requires !Truthy(args.sessionId) ==> freshId != "" && freshId !in sm.sessions
    modifies sm, sm.sessions.Values
    ensures sm.Valid()
    ensures session.id == SessionManager.Key(args.sessionId, freshId)
    ensures sm.sessions == old(sm.sessions)[session.id := session]
    ensures session.id in old(sm.sessions) ==>
      session == old(sm.sessions)[session.id] && session.messages == old(sm.sessions[session.id].messages)
    ensures session.id in old(sm.sessions) ==> session.startTime == old(sm.sessions[session.id].startTime)
    ensures session.id !in old(sm.sessions) ==>
      fresh(session) && session.messages == [] && session.startTime == createdAt
    ensures launched == args.(sessionId := Some(session.id))
    ensures session.task == Some(handle)
    ensures var key := SessionManager.Key(args.sessionId, freshId);
      var before := if key in old(sm.sessions) then old(sm.sessions[key].State()) else Initial;
      var d := Decide(before, IsCancelCommand(UserText(args)), cancelledAt);
      && session.State() == d.state
      && events == (if d.notify then [Event(session.id, CANCELLED, Some(CancelledNotice))] else [])
    ensures forall s :: s in old(sm.sessions.Values) && s != session ==> unchanged(s)
    ensures old(sm.AllConsistent()) ==> sm.AllConsistent()
  {
    session := sm.CreateSession(args.sessionId, freshId, createdAt);
    ghost var key := SessionManager.Key(args.sessionId, freshId);
    assert session.State() == if key in old(sm.sessions) then old(sm.sessions[key].State()) else Initial;
    launched := args.(sessionId := Some(session.id));
    var notify := ApplyDecision(sm, session, IsCancelCommand(UserText(args)), cancelledAt);
    events := if notify then [Event(session.id, CANCELLED, Some(CancelledNotice))] else [];
    label decided:
    ghost var decided := session.State();
    ghost var consistent := sm.AllConsistent();
    session.task := Some(handle);
    assert session.State() == decided;
    assert consistent ==> sm.AllConsistent() by {
      if consistent {
        forall s | s in sm.sessions.Values ensures Consistent(s.State()) {
          if s != session {
            assert old@decided(Consistent(s.State()));
          }
        }
      }
    }
  }

  /** The branch on the message: cancel an uncancelled session on the
      cancel command (reporting that the cancelled event is due), or
      reactivate a cancelled session on any other message. */
  method ApplyDecision(sm: SessionManager, session: Session, cancelCommand: bool, now: string)
    returns (notify: bool)
    requires sm.Valid() && session.id != "" && session.id in sm.sessions && sm.sessions[session.id] == session
    modifies sm.sessions.Values
    ensures session.State() == Decide(old(session.State()), cancelCommand, now).state
    ensures notify == Decide(old(session.State()), cancelCommand, now).notify
    ensures session.messages == old(session.messages) && session.task == old(session.task)
    ensures session.startTime == old(session.startTime)
    ensures forall s :: s in sm.sessions.Values && s != session ==> unchanged(s)
    ensures old(sm.AllConsistent()) ==> sm.AllConsistent()
  {
    notify := false;
    if cancelCommand {
      if !session.isCancelled {
        var _ := sm.CancelSession(Some(session.id), _ => now);
        notify := true;
      }
    } else if session.isCancelled {
      session.status := CREATED;
      session.cancelEvent := false;
      session.isCancelled := false;
    }
  }
}
