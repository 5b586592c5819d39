/** The agent session of one channel: `run` feeds a prompt to the agent, walks the message
    stream it answers with, hands each non-blank assistant text to the line handler, and feeds
    a history transcript back as the next prompt, for at most `MaxLoopCount` rounds. The agent
    and the line handler are oracles; the session records what it asks of them. */
module Session {
  import opened Common
  import opened ResponseLineParser
  import opened ResponseParser

  /** `MAX_LOOP_COUNT`. */
  const MaxLoopCount := 5

  /** The stream of a query, by the number of queries started before it, the prompt and the
      session id the query resumes. */
  type Stream = (nat, string, Option<string>) -> seq<SdkMessage>

  /** `handleLines`, by the number of earlier calls and the lines: a feedback prompt or none. */
  type LineHandler = (nat, seq<ParsedLine>) -> Option<string>

  /** Grapheme segmentation. */
  type Segmenter = string -> seq<string>

  /** A call of `startClaudeQuery`: the prompt and the session id it resumes. */
  datatype Query = Query(prompt: string, resume: Option<string>)

  /** The session as a value: its id, the queries it started, the ids `onSessionChange` was
      told of, and the lines it handed to `handleLines`, each in call order. */
  datatype SessionState = SessionState(
    sessionId: Option<string>, queries: seq<Query>, changes: seq<string>, calls: seq<seq<ParsedLine>>)

  /** Where a walk over a stream ends: the state, and the feedback prompt if one stopped it. */
  datatype Walked = Walked(state: SessionState, feedback: Option<string>)

  // ---------------------------------------------------------------------------------------
  // handlePrompt

  /** A result or assistant message carries the session id; a different one replaces the
      current id and is passed to `onSessionChange` when a listener is set. */
  function Adopt(st: SessionState, id: string, listening: bool): (r: SessionState)
    ensures r.sessionId == Some(id) && r.queries == st.queries && r.calls == st.calls
    ensures r.changes == (if st.sessionId != Some(id) && listening then st.changes + [id] else st.changes)
  {
    if st.sessionId == Some(id) then st
    else SessionState(Some(id), st.queries, if listening then st.changes + [id] else st.changes, st.calls)
  }

  /** The lines an assistant message hands to `handleLines`: its text parsed line by line,
      unless the text is blank. */
  function LinesOf(m: SdkMessage, graphemes: Segmenter): Option<seq<ParsedLine>> {
    var text := AssistantText(m);
    if m.Assistant? && Trim(text) != "" then Some(ParseResponseText(text, graphemes)) else None
  }

  /** One message of the stream. Results only update the id, whatever their subtype; other
      kinds are skipped; an assistant message with non-blank text goes to `handleLines`. */
  function MessageStep(m: SdkMessage, st: SessionState, listening: bool, handler: LineHandler,
                       graphemes: Segmenter): Walked {
    if m.Other? then Walked(st, None)
    else
      var s := Adopt(st, m.sessionId, listening);
      var lines := LinesOf(m, graphemes);
      if lines.None? then Walked(s, None)
      else Walked(SessionState(s.sessionId, s.queries, s.changes, s.calls + [lines.value]), handler(|s.calls|, lines.value))
  }

  /** The `for await` walk: message by message, until a handled text yields feedback. */
  function Walk(messages: seq<SdkMessage>, st: SessionState, listening: bool, handler: LineHandler,
                graphemes: Segmenter): Walked
    decreases |messages|
  {
    if |messages| == 0 then Walked(st, None)
    else
      var w := MessageStep(messages[0], st, listening, handler, graphemes);
      if w.feedback.Some? then w else Walk(messages[1..], w.state, listening, handler, graphemes)
  }

  /** `handlePrompt`: start a query that resumes the current session, walk its stream, and
      return the feedback as a list of at most one prompt. */
  function Prompt(st: SessionState, prompt: string, listening: bool, stream: Stream, handler: LineHandler,
                  graphemes: Segmenter): (r: (SessionState, seq<string>))
    ensures |r.1| <= 1
  {
    var started := SessionState(st.sessionId, st.queries + [Query(prompt, st.sessionId)], st.changes, st.calls);
    var w := Walk(stream(|st.queries|, prompt, st.sessionId), started, listening, handler, graphemes);
    (w.state, if w.feedback.Some? then [w.feedback.value] else [])
  }

  // ---------------------------------------------------------------------------------------
  // run

  /** One round of `run`: every prompt in turn, collecting their feedback in order. */
  function Round(st: SessionState, prompts: seq<string>, listening: bool, stream: Stream, handler: LineHandler,
                 graphemes: Segmenter): (SessionState, seq<string>)
    decreases |prompts|
  {
    if |prompts| == 0 then (st, [])
    else
      var before := Round(st, prompts[..|prompts| - 1], listening, stream, handler, graphemes);
      var last := Prompt(before.0, prompts[|prompts| - 1], listening, stream, handler, graphemes);
      (last.0, before.1 + last.1)
  }

  /** `run` with `rounds` rounds left: stop as soon as a round yields no feedback; `true` when the
      rounds ran out (the bound is reported). */
  function RunRounds(st: SessionState, prompts: seq<string>, rounds: nat, listening: bool, stream: Stream,
                     handler: LineHandler, graphemes: Segmenter): (SessionState, bool)
    decreases rounds
  {
    if rounds == 0 then (st, true)
    else
      var r := Round(st, prompts, listening, stream, handler, graphemes);
      if |r.1| == 0 then (r.0, false) else RunRounds(r.0, r.1, rounds - 1, listening, stream, handler, graphemes)
  }

  // ---------------------------------------------------------------------------------------
  // Properties of the walk

  /** A walk only appends to the changes and the calls, and starts no query. */
  lemma {:induction false} WalkExtends(messages: seq<SdkMessage>, st: SessionState, listening: bool,
                                       handler: LineHandler, graphemes: Segmenter)
    ensures var s := Walk(messages, st, listening, handler, graphemes).state;
            s.queries == st.queries && st.changes <= s.changes && st.calls <= s.calls
    decreases |messages|
  {
    if |messages| > 0 {
      var w := MessageStep(messages[0], st, listening, handler, graphemes);
      if w.feedback.None? {
        WalkExtends(messages[1..], w.state, listening, handler, graphemes);
      }
    }
  }

  /** One message makes at most one `handleLines` call, and only a call yields feedback. */
  lemma StepCalls(m: SdkMessage, st: SessionState, listening: bool, handler: LineHandler, graphemes: Segmenter)
    ensures var w := MessageStep(m, st, listening, handler, graphemes);
            (w.state.calls == st.calls && w.feedback.None?)
            || (|w.state.calls| == |st.calls| + 1 && w.state.calls[..|st.calls|] == st.calls
                && w.feedback == handler(|st.calls|, w.state.calls[|st.calls|]))
  {
    var w := MessageStep(m, st, listening, handler, graphemes);
    if w.state.calls != st.calls {
      var lines := LinesOf(m, graphemes).value;
      assert (st.calls + [lines])[..|st.calls|] == st.calls;
    }
  }

  /** The calls made after `before` all returned none, except the last one when the walk ended
      with feedback, which is then that call's result. */
  predicate FirstFeedback(before: seq<seq<ParsedLine>>, w: Walked, handler: LineHandler) {
    var calls := w.state.calls;
    && before <= calls
    && (forall j :: |before| <= j < |calls| - 1 ==> handler(j, calls[j]).None?)
    && (w.feedback.Some? ==> |calls| > |before| && w.feedback == handler(|calls| - 1, calls[|calls| - 1]))
    && (w.feedback.None? && |calls| > |before| ==> handler(|calls| - 1, calls[|calls| - 1]).None?)
  }

  /** A step that made no call, or one call that returned none, composes with the rest. */
  lemma FirstFeedbackCompose(before: seq<seq<ParsedLine>>, mid: seq<seq<ParsedLine>>, w: Walked, handler: LineHandler)
    requires mid == before || (|mid| == |before| + 1 && mid[..|before|] == before && handler(|before|, mid[|before|]).None?)
    requires FirstFeedback(mid, w, handler)
    ensures FirstFeedback(before, w, handler)
  {
    var calls := w.state.calls;
    assert before <= mid;
    forall j | |before| <= j < |calls| - 1
      ensures handler(j, calls[j]).None?
    {
      if j >= |mid| {
      } else {
        assert calls[j] == mid[j];
      }
    }
  }

  /** The feedback is the first result of `handleLines` that is not `undefined`: every call
      before the last one of the walk returned none, and the feedback is what the last returned. */
  lemma {:induction false} FeedbackIsFirst(messages: seq<SdkMessage>, st: SessionState, listening: bool,
                                           handler: LineHandler, graphemes: Segmenter)
    ensures FirstFeedback(st.calls, Walk(messages, st, listening, handler, graphemes), handler)
    decreases |messages|
  {
    if |messages| > 0 {
      var w := MessageStep(messages[0], st, listening, handler, graphemes);
      StepCalls(messages[0], st, listening, handler, graphemes);
      if w.feedback.None? {
        FeedbackIsFirst(messages[1..], w.state, listening, handler, graphemes);
        assert Walk(messages, st, listening, handler, graphemes) == Walk(messages[1..], w.state, listening, handler, graphemes);
        FirstFeedbackCompose(st.calls, w.state.calls, Walk(messages[1..], w.state, listening, handler, graphemes), handler);
      } else {
        assert Walk(messages, st, listening, handler, graphemes) == w;
      }
    }
  }

  /** Once a handled text yields feedback, the rest of the stream is not consumed. */
  lemma {:induction false} RestNotConsumed(a: seq<SdkMessage>, b: seq<SdkMessage>, st: SessionState, listening: bool,
                                           handler: LineHandler, graphemes: Segmenter)
    requires Walk(a, st, listening, handler, graphemes).feedback.Some?
    ensures Walk(a + b, st, listening, handler, graphemes) == Walk(a, st, listening, handler, graphemes)
    decreases |a|
  {
    assert (a + b)[0] == a[0];
    var w := MessageStep(a[0], st, listening, handler, graphemes);
    if w.feedback.None? {
      assert (a + b)[1..] == a[1..] + b;
      RestNotConsumed(a[1..], b, w.state, listening, handler, graphemes);
    }
  }

  /** Successive notifications name different ids, and the last one names the current id. */
  predicate ChangesTrack(st: SessionState) {
    (forall j :: 0 < j < |st.changes| ==> st.changes[j] != st.changes[j - 1])
    && (|st.changes| > 0 ==> st.sessionId == Some(st.changes[|st.changes| - 1]))
  }

  /** What one message does to the notifications. */
  lemma StepChanges(m: SdkMessage, st: SessionState, listening: bool, handler: LineHandler, graphemes: Segmenter)
    ensures var s := MessageStep(m, st, listening, handler, graphemes).state;
            && (!listening ==> s.changes == st.changes)
            && (listening && ChangesTrack(st) ==> ChangesTrack(s))
            && (listening && s.changes == st.changes ==> s.sessionId == st.sessionId)
            && (listening && s.changes != st.changes ==> s.changes == st.changes + [s.changes[|st.changes|]]
                                                          && Some(s.changes[|st.changes|]) != st.sessionId)
  {
    StepAdopts(m, st, listening, handler, graphemes);
    if !m.Other? && listening {
      if ChangesTrack(st) {
        AdoptTracks(st, m.sessionId);
      }
      if st.sessionId != Some(m.sessionId) {
        var s := MessageStep(m, st, listening, handler, graphemes).state;
        assert s.changes == st.changes + [m.sessionId];
        assert s.changes[|st.changes|] == m.sessionId;
      }
    }
  }

  /** The id and the notifications after one message are those of adopting its id. */
  lemma StepAdopts(m: SdkMessage, st: SessionState, listening: bool, handler: LineHandler, graphemes: Segmenter)
    ensures var s := MessageStep(m, st, listening, handler, graphemes).state;
            && (m.Other? ==> s == st)
            && (!m.Other? ==> s.changes == Adopt(st, m.sessionId, listening).changes
                              && s.sessionId == Some(m.sessionId))
  {
  }

  /** Adopting an id with a listener keeps the notifications tracking the id. */
  lemma AdoptTracks(st: SessionState, id: string)
    requires ChangesTrack(st)
    ensures ChangesTrack(Adopt(st, id, true))
  {
  }

  /** `onSessionChange` fires exactly on changes: with a listener, a walk notifies a new id only
      when it differs from the id before it, and the id stays the same unless a notification was
      made; without one, nothing is notified. */
  lemma {:induction false} SessionChanges(messages: seq<SdkMessage>, st: SessionState, listening: bool,
                                          handler: LineHandler, graphemes: Segmenter)
    ensures var s := Walk(messages, st, listening, handler, graphemes).state;
            && (!listening ==> s.changes == st.changes)
            && (listening && ChangesTrack(st) ==> ChangesTrack(s))
            && (listening && s.changes == st.changes ==> s.sessionId == st.sessionId)
            && (listening && |s.changes| > |st.changes| ==> Some(s.changes[|st.changes|]) != st.sessionId)
    decreases |messages|
  {
    if |messages| > 0 {
      var w := MessageStep(messages[0], st, listening, handler, graphemes);
      StepChanges(messages[0], st, listening, handler, graphemes);
      if w.feedback.None? {
        SessionChanges(messages[1..], w.state, listening, handler, graphemes);
        WalkExtends(messages[1..], w.state, listening, handler, graphemes);
        var s := Walk(messages[1..], w.state, listening, handler, graphemes).state;
        if listening && w.state.changes != st.changes {
          assert s.changes[|st.changes|] == w.state.changes[|st.changes|];
        }
      }
    }
  }

  /** Only assistant messages with non-blank text reach `handleLines`: a stream without one makes
      no call and yields no feedback. */
  lemma {:induction false} NoTextNoCalls(messages: seq<SdkMessage>, st: SessionState, listening: bool,
                                         handler: LineHandler, graphemes: Segmenter)
    requires forall k :: 0 <= k < |messages| ==> LinesOf(messages[k], graphemes).None?
    ensures Walk(messages, st, listening, handler, graphemes).state.calls == st.calls
    ensures Walk(messages, st, listening, handler, graphemes).feedback.None?
    decreases |messages|
  {
    if |messages| > 0 {
      var w := MessageStep(messages[0], st, listening, handler, graphemes);
      NoTextNoCalls(messages[1..], w.state, listening, handler, graphemes);
    }
  }

  // ---------------------------------------------------------------------------------------
  // Properties of run

  /** A round over at most one prompt starts one query per prompt, keeps the earlier ones, and
      yields at most one prompt; so `prompts` never holds more than one. */
  lemma RoundOfOne(st: SessionState, prompts: seq<string>, listening: bool, stream: Stream, handler: LineHandler,
                   graphemes: Segmenter)
    requires |prompts| <= 1
    ensures var r := Round(st, prompts, listening, stream, handler, graphemes);
            |r.1| <= 1 && |r.0.queries| == |st.queries| + |prompts| && st.queries <= r.0.queries
            && (|prompts| == 1 ==> r.0.queries[|st.queries|] == Query(prompts[0], st.sessionId))
  {
    if |prompts| == 1 {
      assert prompts[..0] == [];
      var started := SessionState(st.sessionId, st.queries + [Query(prompts[0], st.sessionId)], st.changes, st.calls);
      WalkExtends(stream(|st.queries|, prompts[0], st.sessionId), started, listening, handler, graphemes);
    }
  }

  /** `run` calls `handlePrompt` at most `rounds` times, the first time with its own prompt; it
      reports the bound only after every round yielded feedback. */
  lemma {:induction false} RunBounded(st: SessionState, prompts: seq<string>, rounds: nat, listening: bool,
                                      stream: Stream, handler: LineHandler, graphemes: Segmenter)
    requires |prompts| <= 1
    ensures var (s, reached) := RunRounds(st, prompts, rounds, listening, stream, handler, graphemes);
            st.queries <= s.queries && |s.queries| <= |st.queries| + rounds
            && (reached ==> |s.queries| == |st.queries| + rounds)
            && (rounds > 0 && |prompts| == 1 ==>
                  |s.queries| > |st.queries| && s.queries[|st.queries|] == Query(prompts[0], st.sessionId))
    decreases rounds
  {
    if rounds > 0 {
      var r := Round(st, prompts, listening, stream, handler, graphemes);
      RoundOfOne(st, prompts, listening, stream, handler, graphemes);
      if |r.1| > 0 {
        RunBounded(r.0, r.1, rounds - 1, listening, stream, handler, graphemes);
      }
    }
  }

  /** A round with rounds left: `run` stops when it yields nothing, and goes on with its feedback
      otherwise. */
  lemma RunOneRound(st: SessionState, prompts: seq<string>, rounds: nat, listening: bool, stream: Stream,
                    handler: LineHandler, graphemes: Segmenter)
    requires rounds > 0
    ensures var r := Round(st, prompts, listening, stream, handler, graphemes);
            RunRounds(st, prompts, rounds, listening, stream, handler, graphemes)
              == if |r.1| == 0 then (r.0, false) else RunRounds(r.0, r.1, rounds - 1, listening, stream, handler, graphemes)
  {
  }

  // ---------------------------------------------------------------------------------------
  // ClaudeSession

  /** `ClaudeSession`, with the record of what it asked of the agent and the handler. */
  class ClaudeSession {
    var sessionId: Option<string>
    var queries: seq<Query>
    var changes: seq<string>
    var calls: seq<seq<ParsedLine>>
    /** Whether `onSessionChange` is set. */
    const listening: bool

    constructor(sessionId: Option<string>, listening: bool)
      ensures State() == SessionState(sessionId, [], [], []) && this.listening == listening
      ensures ChangesTrack(State())
    {
      this.sessionId := sessionId;
      this.listening := listening;
      queries, changes, calls := [], [], [];
    }

    function State(): SessionState
      reads this
    {
      SessionState(sessionId, queries, changes, calls)
    }

    /** Lines 51-54 and 62-65: take a message's session id, notifying a change. */
    method AdoptId(id: string)
      modifies this
      ensures State() == Adopt(old(State()), id, listening)
    {
      if sessionId != Some(id) {
        sessionId := Some(id);
        if listening {
          changes := changes + [id];
        }
      }
    }

    /** The body of the `for await` loop for one message. */
    method HandleMessage(m: SdkMessage, handler: LineHandler, graphemes: Segmenter) returns (feedback: Option<string>)
      modifies this
      ensures Walked(State(), feedback) == MessageStep(m, old(State()), listening, handler, graphemes)
    {
      feedback := None;
      if m.Result? {
        AdoptId(m.sessionId);
        return;
      }
      if !m.Assistant? {
        return;
      }
      AdoptId(m.sessionId);
      var text := ExtractTextFromAssistantMessage(m);
      if Trim(text) == "" {
        return;
      }
      var lines := ParseResponseText(text, graphemes);
      feedback := handler(|calls|, lines);
      calls := calls + [lines];
    }

    /** `handlePrompt`. */
    method HandlePrompt(prompt: string, stream: Stream, handler: LineHandler, graphemes: Segmenter)
      returns (feedbacks: seq<string>)
      modifies this
      ensures (State(), feedbacks) == Prompt(old(State()), prompt, listening, stream, handler, graphemes)
    {
      var messages := stream(|queries|, prompt, sessionId);
      queries := queries + [Query(prompt, sessionId)];
      ghost var whole := Walk(messages, State(), listening, handler, graphemes);
      for i := 0 to |messages|
        invariant Walk(messages[i..], State(), listening, handler, graphemes) == whole
      {
        assert messages[i..][0] == messages[i] && messages[i..][1..] == messages[i + 1..];
        var feedback := HandleMessage(messages[i], handler, graphemes);
        if feedback.Some? {
          return [feedback.value];
        }
      }
      return [];
    }

    /** The inner loop of `run`: each prompt of the round in turn. */
    method RunRound(prompts: seq<string>, stream: Stream, handler: LineHandler, graphemes: Segmenter)
      returns (next: seq<string>)
      modifies this
      ensures (State(), next) == Round(old(State()), prompts, listening, stream, handler, graphemes)
    {
      next := [];
      ghost var start := State();
      for j := 0 to |prompts|
        invariant (State(), next) == Round(start, prompts[..j], listening, stream, handler, graphemes)
      {
        assert prompts[..j + 1][..j] == prompts[..j];
        var feedbacks := HandlePrompt(prompts[j], stream, handler, graphemes);
        next := next + feedbacks;
      }
      assert prompts[..|prompts|] == prompts;
    }

    /** The loop of `run` with `rounds` rounds left. */
    method RunLoop(prompts: seq<string>, rounds: nat, stream: Stream, handler: LineHandler, graphemes: Segmenter)
      returns (maxReached: bool)
      modifies this
      ensures (State(), maxReached) == RunRounds(old(State()), prompts, rounds, listening, stream, handler, graphemes)
    {
      var current := prompts;
      ghost var whole := RunRounds(State(), current, rounds, listening, stream, handler, graphemes);
      for i := 0 to rounds
        invariant RunRounds(State(), current, rounds - i, listening, stream, handler, graphemes) == whole
      {
        RunOneRound(State(), current, rounds - i, listening, stream, handler, graphemes);
        current := RunRound(current, stream, handler, graphemes);
        if |current| == 0 {
          return false;
        }
      }
      return true;
    }

    /** `run`: at most `MaxLoopCount` rounds; `true` when the bound was reached and reported. */
    method Run(prompt: string, stream: Stream, handler: LineHandler, graphemes: Segmenter) returns (maxReached: bool)
      modifies this
      ensures (State(), maxReached) == RunRounds(old(State()), [prompt], MaxLoopCount, listening, stream, handler, graphemes)
    {
      maxReached := RunLoop([prompt], MaxLoopCount, stream, handler, graphemes);
    }
  }
}
