/** The per-channel work queue: messages of one channel are processed one at a time, in the order
    they arrived, by a single worker loop per channel. JavaScript runs one piece of code at a time
    between awaits, so the queue is a state machine whose steps are `Enqueue` (the event handler,
    which on an idle channel runs the worker up to its first await), `Complete` (the worker
    resuming after an item's processing settled, up to its next await or its exit) and
    `LoopRejected` (the worker's promise rejecting). Any interleaving of these is a run. */
module ChannelQueue {
  import opened Common
  import opened PromptBuilder
  import opened SessionManagement

  /** What the queue reads of a queued message: the message id and text, its channel, and that
      channel's configured name and skill. */
  datatype QueuedMessage = QueuedMessage(messageId: string, channelId: string, content: string, name: string, skill: string)

  /** How processing one message settled:
      - the attachment download threw (it removes what it had saved itself);
      - the query or the stream to Discord threw after the download;
      - the stream finished with a session id, `""` when it reported none. */
  datatype Processing =
    | DownloadFailed
    | StreamFailed(paths: seq<string>)
    | Streamed(paths: seq<string>, sessionId: string)

  /** What the queue does that the outside sees. */
  datatype QueueEffect =
    | Began(item: QueuedMessage)
    | Queried(prompt: string, channelId: string)
    | CleanedUp(paths: seq<string>)
    | Replied(channelId: string, text: string)
    | LoopFailed(channelId: string)

  /** The reply to a message whose processing threw. */
  const ErrorReplyText := "Error processing your request."

  /** The prompt `processMessage` builds from a message and its downloaded attachments. */
  function PromptFor(item: QueuedMessage, paths: seq<string>): string {
    BuildMessagePrompt(PromptParams(item.messageId, item.skill, item.content, item.channelId, Some(paths)))
  }

  /** `processMessage`: query with the built prompt once the download succeeded, and clean up
      the downloaded files whatever the stream did (`finally`). */
  function MessageEffects(item: QueuedMessage, outcome: Processing): seq<QueueEffect> {
    match outcome
    case DownloadFailed => []
    case StreamFailed(paths) => [Queried(PromptFor(item, paths), item.channelId), CleanedUp(paths)]
    case Streamed(paths, _) => [Queried(PromptFor(item, paths), item.channelId), CleanedUp(paths)]
  }

  /** One iteration of the worker: `processMessage`, and when it threw, the `catch` that replies
      with the error text (a failure to send that reply is swallowed). */
  function ProcessEffects(item: QueuedMessage, outcome: Processing): seq<QueueEffect> {
    MessageEffects(item, outcome) + (if outcome.Streamed? then [] else [Replied(item.channelId, ErrorReplyText)])
  }

  /** The session id is stored only when the stream reported a non-empty one. */
  predicate StoresSession(outcome: Processing) {
    outcome.Streamed? && outcome.sessionId != ""
  }

  /** The error reply is sent exactly when processing threw, and last. */
  lemma ReplyExactlyOnFailure(item: QueuedMessage, outcome: Processing)
    ensures var effects := ProcessEffects(item, outcome);
            (Replied(item.channelId, ErrorReplyText) in effects <==> !outcome.Streamed?)
            && (!outcome.Streamed? ==> effects[|effects| - 1] == Replied(item.channelId, ErrorReplyText))
  {
  }

  /** Downloaded files are cleaned up exactly once, whether the stream finished or threw, and a
      failed download leaves nothing to clean up; the query comes before the clean-up. */
  lemma CleanupAfterDownload(item: QueuedMessage, outcome: Processing)
    ensures var effects := ProcessEffects(item, outcome);
            (outcome.DownloadFailed? ==> forall i :: 0 <= i < |effects| ==> !effects[i].CleanedUp?)
            && (!outcome.DownloadFailed? ==>
                  effects[0] == Queried(PromptFor(item, outcome.paths), item.channelId)
                  && effects[1] == CleanedUp(outcome.paths)
                  && forall i :: 2 <= i < |effects| ==> !effects[i].CleanedUp?)
  {
  }

  // ---------------------------------------------------------------------------------------
  // One channel

  /** One channel of the queue as a value: the messages waiting, the `processing` flag, the
      message its worker is processing, and (for the proofs) every message enqueued and every
      message begun so far, in order. */
  datatype ChannelView = ChannelView(
    waiting: seq<QueuedMessage>, busy: bool, current: Option<QueuedMessage>,
    enqueued: seq<QueuedMessage>, begun: seq<QueuedMessage>)

  /** Messages are begun in the order they were enqueued, each once, and all belong to the
      channel. */
  predicate Ordered(v: ChannelView, c: string) {
    && v.enqueued == v.begun + v.waiting
    && (forall i :: 0 <= i < |v.enqueued| ==> v.enqueued[i].channelId == c)
  }

  /** The flag is set exactly while a worker is processing a message, the last one begun. */
  predicate ValidView(v: ChannelView, c: string) {
    && Ordered(v, c)
    && (v.busy <==> v.current.Some?)
    && (v.current.Some? ==> |v.begun| > 0 && v.begun[|v.begun| - 1] == v.current.value)
  }

  /** The worker between two messages: the flag is set and nothing is being processed. */
  predicate Between(v: ChannelView, c: string) {
    Ordered(v, c) && v.busy && v.current.None?
  }

  /** `enqueue`'s push: the message joins the end of the channel's queue. */
  function Pushed(v: ChannelView, item: QueuedMessage): ChannelView {
    ChannelView(v.waiting + [item], v.busy, v.current, v.enqueued + [item], v.begun)
  }

  /** The head of the worker loop: nothing waiting clears the flag; otherwise the first waiting
      message is taken off the queue and begun. */
  function Advanced(v: ChannelView): ChannelView {
    if v.waiting == [] then ChannelView(v.waiting, false, v.current, v.enqueued, v.begun)
    else ChannelView(v.waiting[1..], v.busy, Some(v.waiting[0]), v.enqueued, v.begun + [v.waiting[0]])
  }

  /** A worker that leaves the head of its loop is processing the next message or has cleared
      the flag; either way the channel is consistent again. */
  lemma AdvancedValid(v: ChannelView, c: string)
    requires Between(v, c)
    ensures ValidView(Advanced(v), c)
  {
    if v.waiting != [] {
      assert v.begun + v.waiting == (v.begun + [v.waiting[0]]) + v.waiting[1..];
    }
  }

  /** Items are taken only from the head, so the message begun next is the earliest enqueued one
      not yet begun: FIFO order. */
  lemma NextIsOldest(v: ChannelView, c: string)
    requires Ordered(v, c) && v.waiting != []
    ensures Advanced(v).current == Some(v.enqueued[|v.begun|])
    ensures Advanced(v).begun == v.enqueued[..|v.begun| + 1]
  {
    assert v.enqueued[|v.begun|] == v.waiting[0];
    assert v.enqueued[..|v.begun| + 1] == v.begun + [v.waiting[0]];
  }

  /** In a consistent channel the messages begun so far are exactly the earliest ones enqueued,
      in order. */
  lemma BegunArePrefix(v: ChannelView, c: string)
    requires ValidView(v, c)
    ensures |v.begun| <= |v.enqueued| && v.begun == v.enqueued[..|v.begun|]
    ensures v.waiting == v.enqueued[|v.begun|..]
  {
    assert (v.begun + v.waiting)[..|v.begun|] == v.begun;
    assert (v.begun + v.waiting)[|v.begun|..] == v.waiting;
  }

  /** Pushing onto a channel with a running worker keeps it consistent and starts nothing; on an
      idle channel the new worker, having set the flag, is at the head of its loop. */
  lemma PushedValid(v: ChannelView, c: string, item: QueuedMessage)
    requires ValidView(v, c) && item.channelId == c
    ensures v.busy ==> ValidView(Pushed(v, item), c) && Pushed(v, item).current == v.current
    ensures !v.busy ==> Between(ChannelView(v.waiting + [item], true, None, v.enqueued + [item], v.begun), c)
    ensures Pushed(v, item).waiting[|Pushed(v, item).waiting| - 1] == item
  {
    assert v.enqueued + [item] == v.begun + (v.waiting + [item]);
  }

  // ---------------------------------------------------------------------------------------
  // ChannelQueue

  /** The view of channel `c` in the queue's maps. */
  ghost function ViewOf(queues: map<string, seq<QueuedMessage>>, processing: map<string, bool>,
                        inFlight: map<string, QueuedMessage>, enqueued: map<string, seq<QueuedMessage>>,
                        begun: map<string, seq<QueuedMessage>>, c: string): ChannelView
  {
    ChannelView(if c in queues then queues[c] else [], c in processing && processing[c],
                if c in inFlight then Some(inFlight[c]) else None,
                if c in enqueued then enqueued[c] else [], if c in begun then begun[c] else [])
  }

  /** `ChannelQueue`. `inFlight` holds the message each running worker is processing. The
      ghost maps record every message enqueued, and every message begun, per channel. */
  class ChannelQueue {
    var queues: map<string, seq<QueuedMessage>>
    var processing: map<string, bool>
    var inFlight: map<string, QueuedMessage>
    var trace: seq<QueueEffect>
    const sessions: SessionManager
    ghost var enqueued: map<string, seq<QueuedMessage>>
    ghost var begun: map<string, seq<QueuedMessage>>

    /** The messages waiting on a channel. */
    function Waiting(c: string): seq<QueuedMessage>
      reads this
    {
      if c in queues then queues[c] else []
    }

    /** The `processing` flag of a channel. */
    predicate Busy(c: string)
      reads this
    {
      c in processing && processing[c]
    }

    ghost function View(c: string): ChannelView
      reads this
    {
      ViewOf(queues, processing, inFlight, enqueued, begun, c)
    }

    /** Every channel is consistent: at most one worker per channel, FIFO order. */
    ghost predicate Valid()
      reads this
    {
      forall c :: ValidView(View(c), c)
    }

    constructor(sessions: SessionManager)
      ensures Valid() && this.sessions == sessions
      ensures queues == map[] && processing == map[] && inFlight == map[] && trace == []
    {
      this.sessions := sessions;
      queues, processing, inFlight, trace := map[], map[], map[], [];
      enqueued, begun := map[], map[];
    }

    /** The head of the worker loop `processLoop`, run until the next await or the exit. */
    method NextItem(c: string)
      requires Between(View(c), c)
      modifies this
      ensures View(c) == Advanced(old(View(c)))
      ensures forall d :: d != c ==> View(d) == old(View(d))
      ensures trace == old(trace) + (if old(Waiting(c)) == [] then [] else [Began(old(Waiting(c))[0])])
    {
      var queue := Waiting(c);
      if |queue| == 0 {
        processing := processing[c := false];
        return;
      }
      var item := queue[0];
      queues := queues[c := queue[1..]];
      inFlight := inFlight[c := item];
      begun := begun[c := View(c).begun + [item]];
      trace := trace + [Began(item)];
    }

    /** `processLoop` on an idle channel, up to its first await: set the flag, then the head of
        the loop. */
    method ProcessLoop(c: string)
      requires ValidView(View(c), c) && !Busy(c)
      modifies this
      ensures var v := old(View(c)); View(c) == Advanced(ChannelView(v.waiting, true, None, v.enqueued, v.begun))
      ensures forall d :: d != c ==> View(d) == old(View(d))
      ensures trace == old(trace) + (if old(Waiting(c)) == [] then [] else [Began(old(Waiting(c))[0])])
    {
      processing := processing[c := true];
      NextItem(c);
    }

    /** `enqueue`'s first half: create the channel's queue when absent and push the message. */
    method Push(item: QueuedMessage)
      modifies this
      ensures View(item.channelId) == Pushed(old(View(item.channelId)), item)
      ensures forall d :: d != item.channelId ==> View(d) == old(View(d))
      ensures trace == old(trace)
    {
      var c := item.channelId;
      ghost var v := View(c);
      if c !in queues {
        queues := queues[c := []];
      }
      queues := queues[c := queues[c] + [item]];
      enqueued := enqueued[c := v.enqueued + [item]];
    }

    /** `enqueue`: push the message onto its channel's queue, and start the worker only when the
        channel's flag is not set. */
    method Enqueue(item: QueuedMessage)
      requires Valid()
      modifies this
      ensures Valid()
      ensures var c := item.channelId;
              var v := old(View(c));
              if v.busy then View(c) == Pushed(v, item) && trace == old(trace)
              else View(c) == Advanced(ChannelView(v.waiting + [item], true, None, v.enqueued + [item], v.begun))
                   && trace == old(trace) + [Began((v.waiting + [item])[0])]
      ensures forall d :: d != item.channelId ==> View(d) == old(View(d))
    {
      var c := item.channelId;
      ghost var v := View(c);
      PushedValid(v, c, item);
      Push(item);
      if !Busy(c) {
        ProcessLoop(c);
        AdvancedValid(ChannelView(v.waiting + [item], true, None, v.enqueued + [item], v.begun), c);
      }
    }

    /** `processMessage`: the prompt goes to the agent once the attachments are downloaded; a
        non-empty session id is stored; the files are cleaned up even when the stream threw.
        `threw` tells whether it rejected. */
    method ProcessMessage(item: QueuedMessage, outcome: Processing) returns (threw: bool)
      modifies this`trace, sessions
      ensures threw == !outcome.Streamed?
      ensures trace == old(trace) + MessageEffects(item, outcome)
      ensures StoresSession(outcome) ==>
                sessions.sessions == old(sessions.sessions)[item.channelId := outcome.sessionId] && sessions.Synced()
      ensures !StoresSession(outcome) ==> sessions.sessions == old(sessions.sessions)
                                          && sessions.persisted == old(sessions.persisted)
    {
      match outcome {
        case DownloadFailed =>
          return true;
        case StreamFailed(paths) =>
          trace := trace + [Queried(PromptFor(item, paths), item.channelId)];
          trace := trace + [CleanedUp(paths)];
          return true;
        case Streamed(paths, id) =>
          trace := trace + [Queried(PromptFor(item, paths), item.channelId)];
          if id != "" {
            sessions.SetSessionId(item.channelId, id);
          }
          trace := trace + [CleanedUp(paths)];
          return false;
      }
    }

    /** The worker resumes after its message's processing settled: `processMessage`, then the
        `catch` that replies when it threw. */
    method Settle(c: string, outcome: Processing) returns (item: QueuedMessage)
      requires c in inFlight && inFlight[c].channelId == c
      modifies this, sessions
      ensures item == old(inFlight[c])
      ensures View(c) == old(View(c)).(current := None)
      ensures forall d :: d != c ==> View(d) == old(View(d))
      ensures trace == old(trace) + ProcessEffects(item, outcome)
      ensures StoresSession(outcome) ==> sessions.sessions == old(sessions.sessions)[c := outcome.sessionId]
      ensures !StoresSession(outcome) ==> sessions.sessions == old(sessions.sessions)
    {
      item := inFlight[c];
      inFlight := inFlight - {c};
      ghost var q, p, f, e, b := queues, processing, inFlight, enqueued, begun;
      var threw := ProcessMessage(item, outcome);
      assert queues == q && processing == p && inFlight == f && enqueued == e && begun == b;
      if threw {
        trace := trace + [Replied(item.channelId, ErrorReplyText)];
      }
    }

    /** One full turn of the worker loop after a message's processing settled: the reply on a
        failure, then the next message or the end of the loop. */
    method Complete(c: string, outcome: Processing)
      requires Valid() && c in inFlight
      modifies this, sessions
      ensures Valid()
      ensures var v := old(View(c)); View(c) == Advanced(ChannelView(v.waiting, true, None, v.enqueued, v.begun))
      ensures forall d :: d != c ==> View(d) == old(View(d))
      ensures trace == old(trace) + ProcessEffects(old(inFlight[c]), outcome)
                       + (if old(Waiting(c)) == [] then [] else [Began(old(Waiting(c))[0])])
      ensures StoresSession(outcome) ==> sessions.sessions == old(sessions.sessions)[c := outcome.sessionId]
      ensures !StoresSession(outcome) ==> sessions.sessions == old(sessions.sessions)
    {
      ghost var v := View(c);
      assert ValidView(v, c);
      assert inFlight[c].channelId == c by {
        assert v.begun[|v.begun| - 1] in v.enqueued;
      }
      var item := Settle(c, outcome);
      NextItem(c);
      AdvancedValid(ChannelView(v.waiting, true, None, v.enqueued, v.begun), c);
    }

    /** The state change of a rejected worker: the channel's entry in flight is dropped and its
        flag cleared. */
    method Abandon(c: string)
      modifies this
      ensures View(c) == old(View(c)).(busy := false, current := None)
      ensures forall d :: d != c ==> View(d) == old(View(d))
      ensures trace == old(trace) + [LoopFailed(c)]
    {
      inFlight := inFlight - {c};
      processing := processing[c := false];
      trace := trace + [LoopFailed(c)];
    }

    /** The worker's promise rejected: the `catch` attached in `enqueue` logs it and clears the
        flag. Messages still waiting stay queued for the next `enqueue`. */
    method LoopRejected(c: string)
      requires Valid() && c in inFlight
      modifies this
      ensures Valid()
      ensures var v := old(View(c)); View(c) == ChannelView(v.waiting, false, None, v.enqueued, v.begun)
      ensures forall d :: d != c ==> View(d) == old(View(d))
      ensures trace == old(trace) + [LoopFailed(c)]
    {
      assert ValidView(View(c), c);
      Abandon(c);
    }
  }
}
