/** The dispatcher that turns the parsed lines of one agent message into Discord traffic, and
    the chunker that keeps each Discord message under the length limit. What the dispatcher
    does to Discord is recorded as a trace of effects; the commands it runs are recorded as
    effects too, with the history transcript and the re-fetched message supplied as oracles. */
module StreamHandler {
  import opened Common
  import opened ResponseLineParser
  import opened CommandExecutor

  /** Discord's limit on the length of one message, as `flushPending` passes it. */
  const MaxMessageLength := 2000

  // ---------------------------------------------------------------------------------------
  // splitMessage

  /** The last index `i <= from` with `s[i] == c`, or -1. */
  function LastIndexAtMost(s: JsString, c: CodeUnit, from: int): (i: int)
    requires -1 <= from < |s|
    ensures -1 <= i <= from
    ensures i >= 0 ==> s[i] == c
    ensures forall j :: i < j <= from && 0 <= j ==> s[j] != c
    decreases from + 1
  {
    if from < 0 then -1
    else if s[from] == c then from
    else LastIndexAtMost(s, c, from - 1)
  }

  /** `String.prototype.lastIndexOf(c, from)`. */
  function LastIndexOf(s: JsString, c: CodeUnit, from: nat): (i: int)
    ensures -1 <= i < |s| && i <= from
  {
    LastIndexAtMost(s, c, Min(from, |s| - 1))
  }

  /** Where a chunk of an over-long `remaining` ends: at the last line break at or before
      `max` when that is not the first code unit, at `max` otherwise. */
  function CutIndex(remaining: JsString, max: nat): (idx: nat)
    requires 1 <= max < |remaining|
    ensures 0 < idx <= max
  {
    var splitIndex := LastIndexOf(remaining, NewlineUnit, max);
    if splitIndex > 0 then splitIndex else max
  }

  /** `.replace(/^\n/, "")`. */
  function DropLeadingNewline(s: JsString): (t: JsString)
    ensures t == s || (|s| > 0 && s[0] == NewlineUnit && t == s[1..])
  {
    if |s| > 0 && s[0] == NewlineUnit then s[1..] else s
  }

  /** The chunks the loop of `splitMessage` pushes for `remaining`. */
  function Chunks(remaining: JsString, max: nat): seq<JsString>
    requires max >= 1
    decreases |remaining|
  {
    if |remaining| == 0 then []
    else if |remaining| <= max then [remaining]
    else
      var idx := CutIndex(remaining, max);
      [remaining[..idx]] + Chunks(DropLeadingNewline(remaining[idx..]), max)
  }

  /** What `splitMessage(text, max)` returns. */
  function SplitMessageSpec(text: JsString, max: nat): seq<JsString>
    requires max >= 1
  {
    if |text| <= max then [text] else Chunks(text, max)
  }

  /** `splitMessage`, on the code units JavaScript's `length`, `lastIndexOf` and `slice` count.
      For a zero limit the source loops forever once the remaining text starts with anything
      but a line break; its one caller passes 2000. */
  method SplitMessage(text: JsString, maxLength: nat) returns (chunks: seq<JsString>)
    requires maxLength >= 1
    ensures chunks == SplitMessageSpec(text, maxLength)
  {
    if |text| <= maxLength {
      return [text];
    }
    chunks := [];
    var remaining := text;
    while |remaining| > 0
      invariant chunks + Chunks(remaining, maxLength) == Chunks(text, maxLength)
      decreases |remaining|
    {
      if |remaining| <= maxLength {
        chunks := chunks + [remaining];
        break;
      }
      var splitIndex := LastIndexOf(remaining, NewlineUnit, maxLength);
      var idx := if splitIndex > 0 then splitIndex else maxLength;
      assert idx == CutIndex(remaining, maxLength);
      var rest := remaining[idx..];
      if |rest| > 0 && rest[0] == NewlineUnit {
        rest := rest[1..];
      }
      assert rest == DropLeadingNewline(remaining[idx..]);
      ChunksStep(chunks, remaining, maxLength);
      chunks := chunks + [remaining[..idx]];
      remaining := rest;
    }
  }

  lemma ChunksStep(done: seq<JsString>, remaining: JsString, max: nat)
    requires 1 <= max < |remaining|
    ensures var idx := CutIndex(remaining, max);
            done + Chunks(remaining, max) == (done + [remaining[..idx]]) + Chunks(DropLeadingNewline(remaining[idx..]), max)
  {
  }

  /** The cut prefers line breaks: it is at the last line break among positions 1..max when
      there is one, and a hard cut at `max` otherwise. */
  lemma CutAtLastNewline(remaining: JsString, max: nat)
    requires 1 <= max < |remaining|
    ensures var idx := CutIndex(remaining, max);
            (forall j :: idx < j <= max ==> remaining[j] != NewlineUnit)
            && (idx < max ==> remaining[idx] == NewlineUnit)
            && ((exists j :: 0 < j <= max && remaining[j] == NewlineUnit) ==> remaining[idx] == NewlineUnit)
  {
    var idx := CutIndex(remaining, max);
    var k := LastIndexOf(remaining, NewlineUnit, max);
    assert Min(max, |remaining| - 1) == max;
    if k <= 0 {
      assert forall j :: 0 < j <= max ==> remaining[j] != NewlineUnit;
    }
  }

  /** No chunk is empty and none is longer than `max`. */
  lemma {:induction false} ChunkLengths(remaining: JsString, max: nat)
    requires max >= 1
    ensures forall i :: 0 <= i < |Chunks(remaining, max)| ==> 0 < |Chunks(remaining, max)[i]| <= max
    decreases |remaining|
  {
    if |remaining| > max {
      var idx := CutIndex(remaining, max);
      ChunkLengths(DropLeadingNewline(remaining[idx..]), max);
    }
  }

  /** The chunks are `text` cut into pieces, where each cut may also drop one line break. */
  predicate Reassembles(chunks: seq<JsString>, text: JsString)
    decreases |chunks|
  {
    if |chunks| == 0 then text == []
    else
      |chunks[0]| <= |text| && text[..|chunks[0]|] == chunks[0]
      && var rest := text[|chunks[0]|..];
         Reassembles(chunks[1..], rest)
         || (|rest| > 0 && rest[0] == NewlineUnit && Reassembles(chunks[1..], rest[1..]))
  }

  lemma {:induction false} ChunksReassemble(remaining: JsString, max: nat)
    requires max >= 1
    ensures Reassembles(Chunks(remaining, max), remaining)
    decreases |remaining|
  {
    var cs := Chunks(remaining, max);
    if |remaining| == 0 {
    } else if |remaining| <= max {
      assert cs == [remaining];
      assert remaining[..|remaining|] == remaining;
      assert remaining[|remaining|..] == [];
    } else {
      var idx := CutIndex(remaining, max);
      var rest := remaining[idx..];
      ChunksReassemble(DropLeadingNewline(rest), max);
      assert cs[0] == remaining[..idx] && cs[1..] == Chunks(DropLeadingNewline(rest), max);
      assert remaining[|cs[0]|..] == rest;
    }
  }

  /** `splitMessage` returns `[text]` for short text; otherwise at least one chunk, none empty
      and none longer than the limit, which put back together give `text`. */
  lemma SplitMessageSound(text: JsString, max: nat)
    requires max >= 1
    ensures |text| <= max ==> SplitMessageSpec(text, max) == [text]
    ensures |SplitMessageSpec(text, max)| >= 1
    ensures |text| > max ==> forall i :: 0 <= i < |SplitMessageSpec(text, max)| ==> 0 < |SplitMessageSpec(text, max)[i]| <= max
    ensures Reassembles(SplitMessageSpec(text, max), text)
  {
    if |text| <= max {
      assert text[..|text|] == text;
      assert text[|text|..] == [];
    } else {
      ChunkLengths(text, max);
      ChunksReassemble(text, max);
    }
  }

  /** Text with no line break that is over the limit is hard-cut: the first chunk is exactly
      its first `max` code units, and at least one more chunk follows. */
  lemma LongLineSplits(text: JsString, max: nat)
    requires 1 <= max < |text|
    requires forall k :: 0 <= k < |text| ==> text[k] != NewlineUnit
    ensures |SplitMessageSpec(text, max)| >= 2 && SplitMessageSpec(text, max)[0] == text[..max]
  {
    var k := LastIndexOf(text, NewlineUnit, max);
    assert k < 0;
    assert CutIndex(text, max) == max;
    var rest := text[max..];
    assert rest[0] == text[max];
    assert DropLeadingNewline(rest) == rest;
    assert Chunks(text, max) == [text[..max]] + Chunks(rest, max);
    assert |Chunks(rest, max)| >= 1;
  }

  /** The limit counts JavaScript's code units, not characters: emoji-only text longer than
      2000 units is split even when it has 2000 characters or fewer (1001 emoji make 2002 units). */
  lemma EmojiTextSplits(s: string)
    requires forall i :: 0 <= i < |s| ==> s[i] as int >= 0x10000
    requires 2 * |s| > MaxMessageLength
    ensures |SplitMessageSpec(Utf16(s), MaxMessageLength)| >= 2
  {
    AstralText(s);
    LongLineSplits(Utf16(s), MaxMessageLength);
  }

  // ---------------------------------------------------------------------------------------
  // flushPending

  /** The buffered part of the agent's output: text lines, media paths and reaction emoji. */
  datatype Pending = Pending(textLines: seq<string>, mediaFiles: seq<string>, reactions: seq<string>)

  const EmptyPending := Pending([], [], [])

  /** What the dispatcher does, in order. `Send` is a message to a channel (`content` absent
      for a media-only message: `content || undefined`); `React` reacts to the message sent just
      before it. The other effects are the commands run and the message given to `enqueue`. */
  datatype Effect =
    | Send(channel: string, content: Option<JsString>, files: seq<string>)
    | React(channel: string, emoji: string)
    | ReactionCommand(messageId: string, emoji: string, remove: bool)
    | DeleteCommand(messageId: string)
    | HistoryCommand(count: nat, channelId: Option<string>, offset: nat)
    | ExecCommand(messageId: string)
    | Enqueued(fetched: ExecResult)
    | SendCommand(message: string)
    | SendtoCommand(target: string, message: string)

  /** The sends of the chunk loop: the media go with the first chunk only. */
  function ChunkSends(channel: string, chunks: seq<JsString>, media: seq<string>): (sends: seq<Effect>)
    ensures |sends| == |chunks|
  {
    seq(|chunks|, i requires 0 <= i < |chunks| =>
      if i == 0 && |media| > 0 then Send(channel, if chunks[i] == [] then None else Some(chunks[i]), media)
      else Send(channel, Some(chunks[i]), []))
  }

  function Reacts(channel: string, emojis: seq<string>): (rs: seq<Effect>)
    ensures |rs| == |emojis|
  {
    seq(|emojis|, i requires 0 <= i < |emojis| => React(channel, emojis[i]))
  }

  function PendingText(p: Pending): string {
    Join(p.textLines, "\n")
  }

  /** What `flushPending(target, p)` does. */
  function FlushEffects(target: Option<string>, p: Pending): seq<Effect> {
    var text := PendingText(p);
    if Trim(text) == "" && |p.mediaFiles| == 0 then []
    else if target.None? then []
    else
      var chunks := SplitMessageSpec(Utf16(text), MaxMessageLength);
      var sends := ChunkSends(target.value, chunks, p.mediaFiles)
        + (if |chunks| == 0 && |p.mediaFiles| > 0 then [Send(target.value, None, p.mediaFiles)] else []);
      sends + (if |sends| > 0 && |p.reactions| > 0 then Reacts(target.value, p.reactions) else [])
  }

  /** A flush with nothing to send, or nowhere to send it, does nothing. */
  lemma FlushEmpty(target: Option<string>, p: Pending)
    requires (Trim(PendingText(p)) == "" && |p.mediaFiles| == 0) || target.None?
    ensures FlushEffects(target, p) == []
  {
  }

  /** A flush with something to send: one send per chunk, at least one, then the reactions. */
  lemma FlushSends(ch: string, p: Pending)
    requires Trim(PendingText(p)) != "" || |p.mediaFiles| > 0
    ensures var chunks := SplitMessageSpec(Utf16(PendingText(p)), MaxMessageLength);
            |chunks| >= 1
            && FlushEffects(Some(ch), p)
               == ChunkSends(ch, chunks, p.mediaFiles) + (if |p.reactions| > 0 then Reacts(ch, p.reactions) else [])
  {
    var chunks := SplitMessageSpec(Utf16(PendingText(p)), MaxMessageLength);
    SplitMessageSound(Utf16(PendingText(p)), MaxMessageLength);
    assert ChunkSends(ch, chunks, p.mediaFiles) + [] == ChunkSends(ch, chunks, p.mediaFiles);
  }

  /** The text a send carries, with an absent content read as empty. */
  function SentText(e: Effect): JsString
    requires e.Send?
  {
    if e.content.Some? then e.content.value else []
  }

  /** `flushPending` does nothing exactly when the buffered text is blank and there is no media,
      or when there is no output channel. */
  lemma FlushNothing(target: Option<string>, p: Pending)
    ensures FlushEffects(target, p) == [] <==> (Trim(PendingText(p)) == "" && |p.mediaFiles| == 0) || target.None?
  {
    SplitMessageSound(Utf16(PendingText(p)), MaxMessageLength);
  }

  /** A flush to channel `ch` is one send per chunk of the text, all to `ch` and in chunk order,
      with the media attached to the first send only, followed by one reaction per buffered
      emoji, in order, on the last message sent. The unreachable media-only send after the loop
      never happens, because `splitMessage` always returns a chunk. */
  lemma FlushShape(ch: string, p: Pending)
    requires Trim(PendingText(p)) != "" || |p.mediaFiles| > 0
    ensures var effects := FlushEffects(Some(ch), p);
            var chunks := SplitMessageSpec(Utf16(PendingText(p)), MaxMessageLength);
            |effects| == |chunks| + |p.reactions|
            && (forall i :: 0 <= i < |chunks| ==>
                  effects[i].Send? && effects[i].channel == ch && SentText(effects[i]) == chunks[i]
                  && |SentText(effects[i])| <= MaxMessageLength
                  && effects[i].files == (if i == 0 then p.mediaFiles else []))
            && (forall j :: 0 <= j < |p.reactions| ==> effects[|chunks| + j] == React(ch, p.reactions[j]))
  {
    var text := Utf16(PendingText(p));
    var chunks := SplitMessageSpec(text, MaxMessageLength);
    SplitMessageSound(text, MaxMessageLength);
    var effects := FlushEffects(Some(ch), p);
    assert effects == ChunkSends(ch, chunks, p.mediaFiles) + Reacts(ch, p.reactions);
    forall i | 0 <= i < |chunks| ensures |chunks[i]| <= MaxMessageLength {
      if |text| > MaxMessageLength {
      }
    }
  }

  // ---------------------------------------------------------------------------------------
  // handleLines

  datatype Outcome = Outcome(effects: seq<Effect>, result: Option<string>)

  /** One line: what it does now, the buffer afterwards, and the transcript if it ends
      handling. Text, media and reaction lines only add to the buffer; every command first
      flushes it; history keeps the (already flushed) buffer because nothing follows it. */
  datatype Step = Step(effects: seq<Effect>, next: Pending, stop: Option<string>)

  function LineStep(target: Option<string>, line: ParsedLine, p: Pending,
                    history: (nat, Option<string>, nat) -> string, exec: string -> Option<ExecResult>): Step
  {
    if IsBuffered(line) then Step([], BufferLine(p, line), None)
    else
      var effects := FlushEffects(target, p) + CommandEffects(line, exec);
      if line.DiscordHistory? then Step(effects, p, Some(history(line.count, line.channelId, line.offset)))
      else Step(effects, EmptyPending, None)
  }

  /** The buffer after a text, media, reactions or nop line. */
  function BufferLine(p: Pending, line: ParsedLine): Pending
    requires IsBuffered(line)
  {
    match line
    case Text(c) => p.(textLines := p.textLines + [c])
    case Media(f) => p.(mediaFiles := p.mediaFiles + [f])
    case Reactions(es) => p.(reactions := p.reactions + es)
    case DiscordNop => p
  }

  /** The dispatcher from the line `lines[0]` on, with `p` buffered. `history` stands for
      `executeHistory` and `exec` for `executeExec`. */
  function Handle(target: Option<string>, lines: seq<ParsedLine>, p: Pending,
                  history: (nat, Option<string>, nat) -> string, exec: string -> Option<ExecResult>): Outcome
    decreases |lines|
  {
    if |lines| == 0 then Outcome(FlushEffects(target, p), None)
    else
      var s := LineStep(target, lines[0], p, history, exec);
      if s.stop.Some? then Outcome(s.effects, s.stop)
      else
        var after := Handle(target, lines[1..], s.next, history, exec);
        Outcome(s.effects + after.effects, after.result)
  }

  /** A text, media, reactions or nop line only adds to the buffer. */
  lemma BufferedLineStep(target: Option<string>, line: ParsedLine, p: Pending,
                         history: (nat, Option<string>, nat) -> string, exec: string -> Option<ExecResult>)
    requires IsBuffered(line)
    ensures LineStep(target, line, p, history, exec) == Step([], BufferLine(p, line), None)
  {
  }

  /** A history line flushes, runs, and ends handling with its transcript. */
  lemma HistoryLineStep(target: Option<string>, line: ParsedLine, p: Pending,
                        history: (nat, Option<string>, nat) -> string, exec: string -> Option<ExecResult>)
    requires line.DiscordHistory?
    ensures LineStep(target, line, p, history, exec)
            == Step(FlushEffects(target, p) + [HistoryCommand(line.count, line.channelId, line.offset)], p,
                    Some(history(line.count, line.channelId, line.offset)))
  {
  }

  /** Any other command flushes, runs, and empties the buffer. */
  lemma CommandLineStep(target: Option<string>, line: ParsedLine, p: Pending,
                        history: (nat, Option<string>, nat) -> string, exec: string -> Option<ExecResult>)
    requires !IsBuffered(line) && !line.DiscordHistory?
    ensures LineStep(target, line, p, history, exec)
            == Step(FlushEffects(target, p) + CommandEffects(line, exec), EmptyPending, None)
  {
  }

  /** Only a history line ends handling. */
  lemma StopsAtHistory(target: Option<string>, line: ParsedLine, p: Pending,
                       history: (nat, Option<string>, nat) -> string, exec: string -> Option<ExecResult>)
    ensures LineStep(target, line, p, history, exec).stop.Some? <==> line.DiscordHistory?
  {
  }

  /** `Handle` from position `i`, one line at a time. */
  lemma HandleFrom(target: Option<string>, lines: seq<ParsedLine>, i: nat, p: Pending,
                   history: (nat, Option<string>, nat) -> string, exec: string -> Option<ExecResult>)
    requires i < |lines|
    ensures var s := LineStep(target, lines[i], p, history, exec);
            var out := Handle(target, lines[i..], p, history, exec);
            if s.stop.Some? then out == Outcome(s.effects, s.stop)
            else var after := Handle(target, lines[i + 1..], s.next, history, exec);
                 out == Outcome(s.effects + after.effects, after.result)
  {
    assert lines[i..][0] == lines[i] && lines[i..][1..] == lines[i + 1..];
  }

  /** The effects a command line records, in order: the command, then for a fetched exec
      message its hand-over to `enqueue`. */
  function CommandEffects(line: ParsedLine, exec: string -> Option<ExecResult>): seq<Effect> {
    match line
    case DiscordReaction(id, e, r) => [ReactionCommand(id, e, r)]
    case DiscordDelete(id) => [DeleteCommand(id)]
    case DiscordHistory(n, c, o) => [HistoryCommand(n, c, o)]
    case DiscordExec(id) => [ExecCommand(id)] + (if exec(id).Some? then [Enqueued(exec(id).value)] else [])
    case DiscordSend(m) => [SendCommand(m)]
    case DiscordSendto(c, m) => [SendtoCommand(c, m)]
    case _ => []
  }

  predicate IsBuffered(line: ParsedLine) {
    line.Text? || line.Media? || line.Reactions? || line.DiscordNop?
  }

  /** The texts, media paths and emoji of the buffered lines, in order. */
  function TextsOf(lines: seq<ParsedLine>): seq<string> {
    if |lines| == 0 then [] else (if lines[0].Text? then [lines[0].content] else []) + TextsOf(lines[1..])
  }

  function MediaOf(lines: seq<ParsedLine>): seq<string> {
    if |lines| == 0 then [] else (if lines[0].Media? then [lines[0].filePath] else []) + MediaOf(lines[1..])
  }

  function EmojisOf(lines: seq<ParsedLine>): seq<string> {
    if |lines| == 0 then [] else (if lines[0].Reactions? then lines[0].emojis else []) + EmojisOf(lines[1..])
  }

  function Buffered(p: Pending, lines: seq<ParsedLine>): Pending {
    Pending(p.textLines + TextsOf(lines), p.mediaFiles + MediaOf(lines), p.reactions + EmojisOf(lines))
  }

  lemma {:induction false} BufferedCons(p: Pending, line: ParsedLine, lines: seq<ParsedLine>)
    requires IsBuffered(line)
    ensures Buffered(p, [line] + lines)
            == Buffered(Pending(p.textLines + TextsOf([line]), p.mediaFiles + MediaOf([line]), p.reactions + EmojisOf([line])), lines)
  {
    var all := [line] + lines;
    assert all[0] == line && all[1..] == lines;
    assert [line][1..] == [];
  }

  /** Text, media and reaction lines only buffer, in arrival order: a run of them sends nothing
      by itself, and the first later command (or the end of the lines) flushes it as one. */
  lemma {:induction false} BufferedRun(target: Option<string>, p: Pending, lines: seq<ParsedLine>, more: seq<ParsedLine>,
                                       history: (nat, Option<string>, nat) -> string, exec: string -> Option<ExecResult>)
    requires forall i :: 0 <= i < |lines| ==> IsBuffered(lines[i])
    ensures Handle(target, lines + more, p, history, exec) == Handle(target, more, Buffered(p, lines), history, exec)
    decreases |lines|
  {
    if |lines| == 0 {
      assert lines + more == more;
      assert Buffered(p, lines) == p;
    } else {
      var line := lines[0];
      assert (lines + more)[0] == line && (lines + more)[1..] == lines[1..] + more;
      var q := Pending(p.textLines + TextsOf([line]), p.mediaFiles + MediaOf([line]), p.reactions + EmojisOf([line]));
      assert [line][1..] == [];
      assert lines == [line] + lines[1..];
      BufferedCons(p, line, lines[1..]);
      BufferedRun(target, q, lines[1..], more, history, exec);
      assert TextsOf([line]) == (if line.Text? then [line.content] else []);
      assert MediaOf([line]) == (if line.Media? then [line.filePath] else []);
      assert EmojisOf([line]) == (if line.Reactions? then line.emojis else []);
      match line
      case Text(c) =>
        assert q == p.(textLines := p.textLines + [c]);
      case Media(f) =>
        assert q == p.(mediaFiles := p.mediaFiles + [f]);
      case Reactions(es) =>
        assert q == p.(reactions := p.reactions + es);
      case DiscordNop =>
        assert q == p;
    }
  }

  /** Buffered lines followed by a command: the buffer goes out as one flush, then the
      command's effects come, then the rest of the lines with an empty buffer. */
  lemma BufferedThenCommand(target: Option<string>, lines: seq<ParsedLine>, cmd: ParsedLine, more: seq<ParsedLine>,
                            history: (nat, Option<string>, nat) -> string, exec: string -> Option<ExecResult>)
    requires forall i :: 0 <= i < |lines| ==> IsBuffered(lines[i])
    requires !IsBuffered(cmd) && !cmd.DiscordHistory?
    ensures var after := Handle(target, more, EmptyPending, history, exec);
            Handle(target, lines + ([cmd] + more), EmptyPending, history, exec)
            == Outcome(FlushEffects(target, Buffered(EmptyPending, lines)) + CommandEffects(cmd, exec) + after.effects, after.result)
  {
    BufferedRun(target, EmptyPending, lines, [cmd] + more, history, exec);
    assert ([cmd] + more)[0] == cmd && ([cmd] + more)[1..] == more;
  }

  /** Without any command line the whole output is flushed once, at the end, and nothing is
      returned. */
  lemma OnlyBuffered(target: Option<string>, lines: seq<ParsedLine>,
                     history: (nat, Option<string>, nat) -> string, exec: string -> Option<ExecResult>)
    requires forall i :: 0 <= i < |lines| ==> IsBuffered(lines[i])
    ensures Handle(target, lines, EmptyPending, history, exec)
            == Outcome(FlushEffects(target, Pending(TextsOf(lines), MediaOf(lines), EmojisOf(lines))), None)
  {
    BufferedRun(target, EmptyPending, lines, [], history, exec);
    assert lines + [] == lines;
    var b := Buffered(EmptyPending, lines);
    assert b == Pending(TextsOf(lines), MediaOf(lines), EmojisOf(lines));
    assert Handle(target, [], b, history, exec) == Outcome(FlushEffects(target, b), None);
  }

  /** The index of the first history line, or `|lines|`. */
  function FirstHistory(lines: seq<ParsedLine>): (k: nat)
    ensures k <= |lines|
    ensures k < |lines| ==> lines[k].DiscordHistory?
    ensures forall i :: 0 <= i < k ==> !lines[i].DiscordHistory?
  {
    if |lines| == 0 then 0
    else if lines[0].DiscordHistory? then 0
    else 1 + FirstHistory(lines[1..])
  }

  /** Lines after the first history line make no difference to `handleLines`. */
  lemma {:induction false} AfterHistoryIgnored(target: Option<string>, lines: seq<ParsedLine>, more: seq<ParsedLine>,
                                               p: Pending, history: (nat, Option<string>, nat) -> string,
                                               exec: string -> Option<ExecResult>)
    requires FirstHistory(lines) < |lines|
    ensures Handle(target, lines + more, p, history, exec) == Handle(target, lines, p, history, exec)
    decreases |lines|
  {
    var all := lines + more;
    var s := LineStep(target, lines[0], p, history, exec);
    StopsAtHistory(target, lines[0], p, history, exec);
    if lines[0].DiscordHistory? {
      assert Handle(target, all, p, history, exec) == Outcome(s.effects, s.stop) by {
        assert all[0] == lines[0] && all[0..] == all;
        HandleFrom(target, all, 0, p, history, exec);
      }
      assert Handle(target, lines, p, history, exec) == Outcome(s.effects, s.stop) by {
        assert lines[0..] == lines;
        HandleFrom(target, lines, 0, p, history, exec);
      }
    } else {
      var rest := lines[1..];
      var after := Handle(target, rest, s.next, history, exec);
      assert FirstHistory(lines) == 1 + FirstHistory(rest);
      AfterHistoryIgnored(target, rest, more, s.next, history, exec);
      assert Handle(target, all, p, history, exec) == Outcome(s.effects + after.effects, after.result) by {
        assert all[0] == lines[0] && all[0..] == all && all[1..] == rest + more;
        HandleFrom(target, all, 0, p, history, exec);
      }
      assert Handle(target, lines, p, history, exec) == Outcome(s.effects + after.effects, after.result) by {
        assert lines[0..] == lines;
        HandleFrom(target, lines, 0, p, history, exec);
      }
    }
  }

  /** The first history line ends handling: `handleLines` returns its transcript, and the
      lines after it make no difference. Without a history line it returns nothing. An exec
      line never ends handling. */
  lemma {:induction false} HistoryEnds(target: Option<string>, lines: seq<ParsedLine>, p: Pending,
                                       history: (nat, Option<string>, nat) -> string, exec: string -> Option<ExecResult>)
    ensures var k := FirstHistory(lines);
            var out := Handle(target, lines, p, history, exec);
            (k == |lines| ==> out.result.None?)
            && (k < |lines| ==> out.result == Some(history(lines[k].count, lines[k].channelId, lines[k].offset))
                                && forall more :: Handle(target, lines + more, p, history, exec) == out)
    decreases |lines|
  {
    if |lines| > 0 {
      if !lines[0].DiscordHistory? {
        var rest := lines[1..];
        assert FirstHistory(lines) == 1 + FirstHistory(rest);
        var q := LineStep(target, lines[0], p, history, exec).next;
        HistoryEnds(target, rest, q, history, exec);
        assert Handle(target, lines, p, history, exec).result == Handle(target, rest, q, history, exec).result;
      }
      forall more | FirstHistory(lines) < |lines|
        ensures Handle(target, lines + more, p, history, exec) == Handle(target, lines, p, history, exec)
      {
        AfterHistoryIgnored(target, lines, more, p, history, exec);
      }
    }
  }

  /** The command effects of a trace, in order. */
  function Commands(effects: seq<Effect>): seq<Effect> {
    if |effects| == 0 then []
    else (if effects[0].Send? || effects[0].React? then [] else [effects[0]]) + Commands(effects[1..])
  }

  lemma {:induction false} CommandsAppend(a: seq<Effect>, b: seq<Effect>)
    ensures Commands(a + b) == Commands(a) + Commands(b)
    decreases |a|
  {
    if |a| == 0 {
      assert a + b == b;
    } else {
      assert (a + b)[0] == a[0] && (a + b)[1..] == a[1..] + b;
      CommandsAppend(a[1..], b);
    }
  }

  lemma {:induction false} FlushHasNoCommands(target: Option<string>, p: Pending)
    ensures Commands(FlushEffects(target, p)) == []
  {
    var effects := FlushEffects(target, p);
    NoCommandsIn(effects);
  }

  lemma {:induction false} NoCommandsIn(effects: seq<Effect>)
    requires forall i :: 0 <= i < |effects| ==> effects[i].Send? || effects[i].React?
    ensures Commands(effects) == []
    decreases |effects|
  {
    if |effects| > 0 {
      NoCommandsIn(effects[1..]);
    }
  }

  /** The command effects the lines call for, up to and including the first history line. */
  function CommandsOfLines(lines: seq<ParsedLine>, exec: string -> Option<ExecResult>): seq<Effect> {
    if |lines| == 0 then []
    else if lines[0].DiscordHistory? then CommandEffects(lines[0], exec)
    else CommandEffects(lines[0], exec) + CommandsOfLines(lines[1..], exec)
  }

  lemma CommandEffectsAreCommands(line: ParsedLine, exec: string -> Option<ExecResult>)
    ensures Commands(CommandEffects(line, exec)) == CommandEffects(line, exec)
  {
    var cs := CommandEffects(line, exec);
    if line.DiscordExec? && exec(line.messageId).Some? {
      assert cs == [cs[0]] + [cs[1]];
      CommandsAppend([cs[0]], [cs[1]]);
    }
  }

  /** A buffered line only adds to the buffer: handling goes on from the next line. */
  lemma BufferedStep(target: Option<string>, lines: seq<ParsedLine>, p: Pending,
                     history: (nat, Option<string>, nat) -> string, exec: string -> Option<ExecResult>)
    requires |lines| > 0 && IsBuffered(lines[0])
    ensures Handle(target, lines, p, history, exec) == Handle(target, lines[1..], BufferLine(p, lines[0]), history, exec)
    ensures CommandsOfLines(lines, exec) == CommandsOfLines(lines[1..], exec)
  {
    assert CommandEffects(lines[0], exec) == [];
    assert LineStep(target, lines[0], p, history, exec) == Step([], BufferLine(p, lines[0]), None);
    var after := Handle(target, lines[1..], BufferLine(p, lines[0]), history, exec);
    assert [] + after.effects == after.effects;
  }

  /** A command line other than history flushes the buffer, runs, and handling goes on from the
      next line with an empty buffer. */
  lemma CommandStep(target: Option<string>, lines: seq<ParsedLine>, p: Pending,
                    history: (nat, Option<string>, nat) -> string, exec: string -> Option<ExecResult>)
    requires |lines| > 0 && !IsBuffered(lines[0]) && !lines[0].DiscordHistory?
    ensures var after := Handle(target, lines[1..], EmptyPending, history, exec);
            Handle(target, lines, p, history, exec)
              == Outcome(FlushEffects(target, p) + CommandEffects(lines[0], exec) + after.effects, after.result)
    ensures CommandsOfLines(lines, exec) == CommandEffects(lines[0], exec) + CommandsOfLines(lines[1..], exec)
  {
  }

  /** A history line flushes the buffer, and handling stops with its transcript. */
  lemma HistoryStep(target: Option<string>, lines: seq<ParsedLine>, p: Pending,
                    history: (nat, Option<string>, nat) -> string, exec: string -> Option<ExecResult>)
    requires |lines| > 0 && lines[0].DiscordHistory?
    ensures var h := lines[0];
            Handle(target, lines, p, history, exec)
              == Outcome(FlushEffects(target, p) + [HistoryCommand(h.count, h.channelId, h.offset)],
                         Some(history(h.count, h.channelId, h.offset)))
    ensures CommandsOfLines(lines, exec) == CommandEffects(lines[0], exec)
  {
  }

  /** Commands run in line order: the commands in the trace are exactly those of the lines up
      to the first history line, in order, with each fetched exec message enqueued right after
      its command. */
  lemma {:induction false} CommandsInOrder(target: Option<string>, lines: seq<ParsedLine>, p: Pending,
                                           history: (nat, Option<string>, nat) -> string, exec: string -> Option<ExecResult>)
    ensures Commands(Handle(target, lines, p, history, exec).effects) == CommandsOfLines(lines, exec)
    decreases |lines|
  {
    if |lines| == 0 {
      FlushHasNoCommands(target, p);
    } else if IsBuffered(lines[0]) {
      BufferedStep(target, lines, p, history, exec);
      CommandsInOrder(target, lines[1..], BufferLine(p, lines[0]), history, exec);
    } else {
      var flushed := FlushEffects(target, p);
      var cs := CommandEffects(lines[0], exec);
      FlushHasNoCommands(target, p);
      CommandEffectsAreCommands(lines[0], exec);
      CommandsAppend(flushed, cs);
      if lines[0].DiscordHistory? {
        HistoryStep(target, lines, p, history, exec);
      } else {
        var after := Handle(target, lines[1..], EmptyPending, history, exec).effects;
        CommandStep(target, lines, p, history, exec);
        CommandsInOrder(target, lines[1..], EmptyPending, history, exec);
        CommandsAppend(flushed + cs, after);
        assert Commands(flushed + cs) == cs;
        assert Commands(flushed + cs + after) == cs + CommandsOfLines(lines[1..], exec);
      }
    }
  }

  /** With no output channel (skill mode without a log channel) nothing is sent or reacted:
      the trace is exactly the commands of the lines. */
  lemma NoTargetNoSends(lines: seq<ParsedLine>, p: Pending,
                        history: (nat, Option<string>, nat) -> string, exec: string -> Option<ExecResult>)
    ensures Handle(None, lines, p, history, exec).effects == CommandsOfLines(lines, exec)
  {
    CommandsInOrder(None, lines, p, history, exec);
    NoTargetCommandsOnly(lines, p, history, exec);
  }

  lemma {:induction false} CommandsOnlyFixed(effects: seq<Effect>)
    requires forall i :: 0 <= i < |effects| ==> !effects[i].Send? && !effects[i].React?
    ensures Commands(effects) == effects
    decreases |effects|
  {
    if |effects| > 0 {
      CommandsOnlyFixed(effects[1..]);
      assert effects == [effects[0]] + effects[1..];
    }
  }

  /** With no output channel every effect is a command. */
  lemma {:induction false} NoTargetCommandsOnly(lines: seq<ParsedLine>, p: Pending,
                                                history: (nat, Option<string>, nat) -> string, exec: string -> Option<ExecResult>)
    ensures var effects := Handle(None, lines, p, history, exec).effects;
            forall i :: 0 <= i < |effects| ==> !effects[i].Send? && !effects[i].React?
    ensures Commands(Handle(None, lines, p, history, exec).effects) == Handle(None, lines, p, history, exec).effects
    decreases |lines|
  {
    if |lines| > 0 {
      var rest := lines[1..];
      var line := lines[0];
      if IsBuffered(line) {
        var q := BufferLine(p, line);
        NoTargetCommandsOnly(rest, q, history, exec);
      } else if !line.DiscordHistory? {
        NoTargetCommandsOnly(rest, EmptyPending, history, exec);
      }
    }
    CommandsOnlyFixed(Handle(None, lines, p, history, exec).effects);
  }

  lemma EffectsAssoc(a: seq<Effect>, b: seq<Effect>, c: seq<Effect>)
    ensures a + (b + c) == (a + b) + c
  {
  }

  // ---------------------------------------------------------------------------------------
  // createDiscordHandler

  /** The handler `createDiscordHandler` returns, with the trace of what it has done. */
  class DiscordHandler {
    /** `textOutputChannel`: the channel itself, or in skill mode the log channel if any. */
    const textOutput: Option<string>
    var trace: seq<Effect>

    constructor (channel: string, isSkillMode: bool, logChannel: Option<string>)
      ensures textOutput == (if isSkillMode then logChannel else Some(channel))
      ensures trace == []
    {
      textOutput := if isSkillMode then logChannel else Some(channel);
      trace := [];
    }

    /** `flushPending(textOutputChannel, p)`. */
    method FlushPending(p: Pending)
      modifies this
      ensures trace == old(trace) + FlushEffects(textOutput, p)
    {
      var text := Join(p.textLines, "\n");
      assert text == PendingText(p);
      if (Trim(text) == "" && |p.mediaFiles| == 0) || textOutput.None? {
        FlushEmpty(textOutput, p);
        assert trace == old(trace) + [];
        return;
      }
      var channel := textOutput.value;
      FlushSends(channel, p);
      SendBuffered(channel, text, p);
    }

    /** What `flushPending` does once it has something to send: the chunks of `text`, the
        media with the first, then the reactions on the last message sent. */
    method SendBuffered(channel: string, text: string, p: Pending)
      requires |SplitMessageSpec(Utf16(text), MaxMessageLength)| >= 1
      modifies this
      ensures trace == old(trace) + ChunkSends(channel, SplitMessageSpec(Utf16(text), MaxMessageLength), p.mediaFiles)
                                  + (if |p.reactions| > 0 then Reacts(channel, p.reactions) else [])
    {
      var chunks := SplitMessage(Utf16(text), MaxMessageLength);
      var sent := SendChunks(channel, chunks, p.mediaFiles);
      if |chunks| == 0 && |p.mediaFiles| > 0 {
        // The media-only send after the loop: `splitMessage` never returns no chunk.
        assert false;
      }
      if sent && |p.reactions| > 0 {
        ReactAll(channel, p.reactions);
      } else {
        assert trace == old(trace) + ChunkSends(channel, chunks, p.mediaFiles) + [];
      }
    }

    /** The chunk loop of `flushPending`; `sent` says whether `lastMessage` is set. */
    method SendChunks(channel: string, chunks: seq<JsString>, media: seq<string>) returns (sent: bool)
      modifies this
      ensures trace == old(trace) + ChunkSends(channel, chunks, media)
      ensures sent <==> |chunks| > 0
    {
      ghost var sends := ChunkSends(channel, chunks, media);
      sent := false;
      for i := 0 to |chunks|
        invariant trace == old(trace) + sends[..i]
        invariant sent <==> i > 0
      {
        var content := chunks[i];
        if i == 0 && |media| > 0 {
          trace := trace + [Send(channel, if content == [] then None else Some(content), media)];
        } else {
          trace := trace + [Send(channel, Some(content), [])];
        }
        sent := true;
      }
      assert sends[..|chunks|] == sends;
    }

    /** The reaction loop of `flushPending`: one reaction per emoji on the last message sent. */
    method ReactAll(channel: string, emojis: seq<string>)
      modifies this
      ensures trace == old(trace) + Reacts(channel, emojis)
    {
      for j := 0 to |emojis|
        invariant trace == old(trace) + Reacts(channel, emojis)[..j]
      {
        trace := trace + [React(channel, emojis[j])];
      }
      assert Reacts(channel, emojis)[..|emojis|] == Reacts(channel, emojis);
    }

    /** The body of the loop of `handleLines` for one line. */
    method HandleLine(line: ParsedLine, pending: Pending, history: (nat, Option<string>, nat) -> string,
                      exec: string -> Option<ExecResult>) returns (next: Pending, stop: Option<string>)
      modifies this
      ensures var s := LineStep(textOutput, line, pending, history, exec);
              trace == old(trace) + s.effects && next == s.next && stop == s.stop
    {
      next, stop := pending, None;
      if IsBuffered(line) {
        BufferedLineStep(textOutput, line, pending, history, exec);
      } else if line.DiscordHistory? {
        HistoryLineStep(textOutput, line, pending, history, exec);
      } else {
        CommandLineStep(textOutput, line, pending, history, exec);
      }
      match line {
        case Text(c) =>
          next := pending.(textLines := pending.textLines + [c]);
        case Media(f) =>
          next := pending.(mediaFiles := pending.mediaFiles + [f]);
        case Reactions(es) =>
          next := pending.(reactions := pending.reactions + es);
        case DiscordNop =>
        case DiscordHistory(n, c, o) =>
          FlushPending(pending);
          trace := trace + [HistoryCommand(n, c, o)];
          var historyText := history(n, c, o);
          stop := Some(historyText);
        case _ =>
          RunCommand(line, pending, exec);
          next := EmptyPending;
      }
    }

    /** A reaction, delete, exec, send or sendto line: flush, then run the command. */
    method RunCommand(line: ParsedLine, pending: Pending, exec: string -> Option<ExecResult>)
      requires !IsBuffered(line) && !line.DiscordHistory?
      modifies this
      ensures trace == old(trace) + FlushEffects(textOutput, pending) + CommandEffects(line, exec)
    {
      FlushPending(pending);
      match line {
        case DiscordReaction(id, e, remove) =>
          trace := trace + [ReactionCommand(id, e, remove)];
        case DiscordDelete(id) =>
          trace := trace + [DeleteCommand(id)];
        case DiscordExec(id) =>
          trace := trace + [ExecCommand(id)];
          var execMessage := exec(id);
          if execMessage.Some? {
            trace := trace + [Enqueued(execMessage.value)];
          }
        case DiscordSend(m) =>
          trace := trace + [SendCommand(m)];
        case DiscordSendto(c, m) =>
          trace := trace + [SendtoCommand(c, m)];
      }
    }

    /** Runs line `i` and states what is left of `Handle` over `lines[i..]` afterwards. */
    method Advance(lines: seq<ParsedLine>, i: nat, pending: Pending, history: (nat, Option<string>, nat) -> string,
                   exec: string -> Option<ExecResult>) returns (next: Pending, stop: Option<string>)
      requires i < |lines|
      modifies this
      ensures var out := Handle(textOutput, lines[i..], pending, history, exec);
              stop == (if stop.Some? then out.result else None) && (stop.Some? ==> trace == old(trace) + out.effects)
      ensures var out := Handle(textOutput, lines[i..], pending, history, exec);
              var after := Handle(textOutput, lines[i + 1..], next, history, exec);
              stop.None? ==> old(trace) + out.effects == trace + after.effects && out.result == after.result
    {
      HandleFrom(textOutput, lines, i, pending, history, exec);
      ghost var s := LineStep(textOutput, lines[i], pending, history, exec);
      ghost var after := Handle(textOutput, lines[i + 1..], s.next, history, exec);
      next, stop := HandleLine(lines[i], pending, history, exec);
      if stop.None? {
        EffectsAssoc(old(trace), s.effects, after.effects);
      }
    }

    /** `handleLines`: buffer text, media and reactions; before each command flush the buffer;
        stop at the first history command and return its transcript; flush what is left. */
    method HandleLines(lines: seq<ParsedLine>, history: (nat, Option<string>, nat) -> string,
                       exec: string -> Option<ExecResult>) returns (r: Option<string>)
      modifies this
      ensures trace == old(trace) + Handle(textOutput, lines, EmptyPending, history, exec).effects
      ensures r == Handle(textOutput, lines, EmptyPending, history, exec).result
    {
      ghost var whole := Handle(textOutput, lines, EmptyPending, history, exec);
      var pending := EmptyPending;
      var i := 0;
      while i < |lines|
        invariant 0 <= i <= |lines|
        invariant old(trace) + whole.effects == trace + Handle(textOutput, lines[i..], pending, history, exec).effects
        invariant whole.result == Handle(textOutput, lines[i..], pending, history, exec).result
      {
        var stop;
        pending, stop := Advance(lines, i, pending, history, exec);
        if stop.Some? {
          return stop;
        }
        i := i + 1;
      }
      assert lines[i..] == [];
      FlushPending(pending);
      return None;
    }
  }
}
