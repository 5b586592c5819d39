/** The commands the dispatcher runs against Discord: adding or removing the bot's reaction,
    deleting one of the bot's messages, fetching a message to run it again, and reading back a
    page of a channel's history. Discord is a value here: a message with its reactions, a
    channel with a `fetch` oracle, a lookup of channels by id. */
module CommandExecutor {
  import opened Common

  /** A message as the bot sees it. `reactions` maps an emoji to the ids of the users who
      reacted with it; `timestamp` is the ISO rendering of the creation time. */
  datatype DiscordMessage = DiscordMessage(
    id: string, author: string, authorId: string, content: string, timestamp: string,
    attachments: seq<string>, reactions: map<string, set<string>>)

  /** What `executeExec` hands back: the message's id, content and attachment URLs. */
  datatype ExecResult = ExecResult(id: string, content: string, attachments: seq<string>)

  // ---------------------------------------------------------------------------------------
  // executeReaction, executeDelete, executeExec

  /** The users of `emoji` on a message, none when it carries no such reaction. */
  function Users(reactions: map<string, set<string>>, emoji: string): set<string> {
    if emoji in reactions then reactions[emoji] else {}
  }

  /** `executeReaction`: the reactions of the fetched message afterwards. Adding puts the bot
      among the users of `emoji`; removing takes only the bot out, and only when the message
      already carries that emoji. `succeeded` tells whether Discord carried out the `react` or
      `users.remove` call; a failed fetch or a failed call is only logged and changes nothing. */
  function ExecuteReaction(fetched: Option<DiscordMessage>, emoji: string, remove: bool, botId: string,
                           succeeded: bool)
    : (after: Option<map<string, set<string>>>)
    ensures fetched.None? <==> after.None?
    ensures fetched.Some? && !succeeded ==> after.value == fetched.value.reactions
    ensures fetched.Some? && succeeded && !remove ==>
              after.value.Keys == fetched.value.reactions.Keys + {emoji}
              && after.value[emoji] == Users(fetched.value.reactions, emoji) + {botId}
              && (forall e :: e in fetched.value.reactions && e != emoji ==> after.value[e] == fetched.value.reactions[e])
    ensures fetched.Some? && remove ==>
              after.value.Keys == fetched.value.reactions.Keys
              && (emoji in after.value ==> after.value[emoji] == fetched.value.reactions[emoji] - (if succeeded then {botId} else {}))
              && (forall e :: e in after.value && e != emoji ==> after.value[e] == fetched.value.reactions[e])
  {
    match fetched
    case None => None
    case Some(m) =>
      if !succeeded then Some(m.reactions)
      else if remove then
        if emoji in m.reactions then Some(m.reactions[emoji := m.reactions[emoji] - {botId}]) else Some(m.reactions)
      else Some(m.reactions[emoji := Users(m.reactions, emoji) + {botId}])
  }

  /** Another user's reaction is never removed. */
  lemma RemoveKeepsOthers(m: DiscordMessage, emoji: string, botId: string, user: string, succeeded: bool)
    requires user != botId && emoji in m.reactions && user in m.reactions[emoji]
    ensures var after := ExecuteReaction(Some(m), emoji, true, botId, succeeded).value;
            emoji in after && user in after[emoji]
  {
  }

  /** Adding the bot's reaction and then removing it leaves the emoji's other users as they were
      and every other emoji untouched. */
  lemma AddThenRemove(m: DiscordMessage, emoji: string, botId: string)
    ensures var added := ExecuteReaction(Some(m), emoji, false, botId, true).value;
            var removed := ExecuteReaction(Some(m.(reactions := added)), emoji, true, botId, true).value;
            && removed.Keys == m.reactions.Keys + {emoji}
            && removed[emoji] == Users(m.reactions, emoji) - {botId}
            && (forall e :: e in m.reactions && e != emoji ==> removed[e] == m.reactions[e])
  {
    var added := ExecuteReaction(Some(m), emoji, false, botId, true).value;
    assert emoji in added;
    assert added[emoji] - {botId} == Users(m.reactions, emoji) - {botId};
  }

  /** The message deleted, a message not written by the bot, a failed fetch, or a `delete`
      call Discord rejected. */
  datatype DeleteOutcome = Deleted | NotOwnMessage | FetchError | DeleteFailed

  /** `executeDelete` on a channel given newest first: the message is fetched by id and deleted
      only when the bot wrote it and Discord carries out the `delete` call (`succeeded`). The
      channel afterwards is returned with the outcome. */
  function ExecuteDelete(channel: seq<DiscordMessage>, messageId: string, botId: string, succeeded: bool)
    : (r: (DeleteOutcome, seq<DiscordMessage>))
    requires UniqueIds(channel)
    ensures r.0 == FetchError <==> forall i :: 0 <= i < |channel| ==> channel[i].id != messageId
    ensures r.0 == NotOwnMessage <==>
              exists i :: 0 <= i < |channel| && channel[i].id == messageId && channel[i].authorId != botId
    ensures r.0 == Deleted <==>
              succeeded && exists i :: 0 <= i < |channel| && channel[i].id == messageId && channel[i].authorId == botId
    ensures r.0 != Deleted ==> r.1 == channel
    ensures r.0 == Deleted ==>
              exists i :: 0 <= i < |channel| && channel[i].id == messageId && r.1 == channel[..i] + channel[i + 1..]
    ensures forall m :: m in r.1 ==> m in channel
    ensures forall m :: m in channel && m.id != messageId ==> m in r.1
    ensures forall m :: m in channel && m.authorId != botId ==> m in r.1
    ensures r.0 == Deleted ==> |r.1| == |channel| - 1
  {
    var i := FindMessage(channel, messageId);
    if i == |channel| then (FetchError, channel)
    else if channel[i].authorId != botId then (NotOwnMessage, channel)
    else if !succeeded then (DeleteFailed, channel)
    else
      var rest := channel[..i] + channel[i + 1..];
      assert forall m :: m in channel && m.id != messageId ==> m in rest by {
        forall m | m in channel && m.id != messageId ensures m in rest {
          var j :| 0 <= j < |channel| && channel[j] == m;
          if j < i { assert rest[j] == m; } else { assert j > i; assert rest[j - 1] == m; }
        }
      }
      (Deleted, rest)
  }

  /** Discord gives every message its own id. */
  predicate UniqueIds(channel: seq<DiscordMessage>) {
    forall i, j :: 0 <= i < j < |channel| ==> channel[i].id != channel[j].id
  }

  /** The position of the first message with id `id`, or `|channel|` when there is none. */
  function FindMessage(channel: seq<DiscordMessage>, id: string): (i: nat)
    ensures i <= |channel|
    ensures i < |channel| ==> channel[i].id == id
    ensures forall j :: 0 <= j < i ==> channel[j].id != id
  {
    if |channel| == 0 then 0
    else if channel[0].id == id then 0
    else 1 + FindMessage(channel[1..], id)
  }

  /** `executeExec`: the fetched message's id, content and attachment URLs, or null when the
      fetch failed. */
  function ExecuteExec(fetched: Option<DiscordMessage>): (r: Option<ExecResult>)
    ensures r.Some? <==> fetched.Some?
    ensures r.Some? ==> r.value.id == fetched.value.id && r.value.content == fetched.value.content
                        && r.value.attachments == fetched.value.attachments
  {
    match fetched
    case None => None
    case Some(m) => Some(ExecResult(m.id, m.content, m.attachments))
  }

  // ---------------------------------------------------------------------------------------
  // executeHistory

  datatype FetchResult = Fetched(batch: seq<DiscordMessage>) | FetchFailed(error: string)

  /** `messages.fetch({limit, before})`: the request, as the code issues it. */
  datatype FetchRequest = FetchRequest(limit: nat, before: Option<string>)

  /** A text channel: its name and its `messages.fetch`. */
  datatype TextChannel = TextChannel(name: string, fetch: (nat, Option<string>) -> FetchResult)

  /** `client.channels.fetch(id)`: a text channel, some other kind of channel, or an error. */
  datatype ChannelLookup = IsText(channel: TextChannel) | NotText | LookupFailed(error: string)

  /** Where one pagination phase ends: the requests it made, the messages it gathered, the
      cursor it leaves, or the error a fetch threw. */
  datatype Phase = Phase(requests: seq<FetchRequest>, collected: seq<DiscordMessage>,
                         before: Option<string>, error: Option<string>)

  const SkipBatch := 100
  const CollectBatch := 30

  /** The skip loop from `skipped` on: fetch `min(offset - skipped, 100)` older messages at a
      time, move the cursor to the last of them, stop at `offset` or at an empty batch. */
  function Skip(fetch: (nat, Option<string>) -> FetchResult, offset: nat, skipped: nat, before: Option<string>)
    : (p: Phase)
    decreases offset - skipped
  {
    if skipped >= offset then Phase([], [], before, None)
    else
      var req := FetchRequest(Min(offset - skipped, SkipBatch), before);
      match fetch(req.limit, req.before)
      case FetchFailed(e) => Phase([req], [], before, Some(e))
      case Fetched(ms) =>
        if |ms| == 0 then Phase([req], [], before, None)
        else
          var rest := Skip(fetch, offset, skipped + |ms|, Some(ms[|ms| - 1].id));
          Phase([req] + rest.requests, [], rest.before, rest.error)
  }

  /** The collect loop with `remaining` messages still wanted: fetch `min(remaining, 30)`
      at a time, keep every message in fetch order, stop at zero or at an empty batch. */
  function Collect(fetch: (nat, Option<string>) -> FetchResult, remaining: int, before: Option<string>)
    : (p: Phase)
    decreases remaining
  {
    if remaining <= 0 then Phase([], [], before, None)
    else
      var req := FetchRequest(Min(remaining, CollectBatch), before);
      match fetch(req.limit, req.before)
      case FetchFailed(e) => Phase([req], [], before, Some(e))
      case Fetched(ms) =>
        if |ms| == 0 then Phase([req], [], before, None)
        else
          var rest := Collect(fetch, remaining - |ms|, Some(ms[|ms| - 1].id));
          Phase([req] + rest.requests, ms + rest.collected, rest.before, rest.error)
  }

  function ErrorText(message: string): string {
    "--- history error: " + message + " ---"
  }

  function NotTextError(channelId: string): string {
    ErrorText("Channel <#" + channelId + "> is not a text channel")
  }

  function AttachmentInfo(attachments: seq<string>): (s: string)
    ensures s == "" <==> |attachments| == 0
  {
    if |attachments| > 0 then " [attachments: " + Join(attachments, ", ") + "]" else ""
  }

  /** `[ts] author (id): content` and the attachment suffix. */
  function HistoryEntry(m: DiscordMessage): string {
    "[" + m.timestamp + "] " + m.author + " (" + m.id + "): " + m.content + AttachmentInfo(m.attachments)
  }

  function HistoryHeader(name: string, n: nat, offset: nat): string {
    "--- history of #" + name + " (" + NatToString(n) + " messages, offset " + NatToString(offset) + ") ---"
  }

  const HistoryFooter := "--- end history ---"

  /** The header, one line per message in fetch order, the footer. */
  function HistoryLines(name: string, msgs: seq<DiscordMessage>, offset: nat): (lines: seq<string>)
    ensures |lines| == |msgs| + 2
    ensures lines[0] == HistoryHeader(name, |msgs|, offset) && lines[|lines| - 1] == HistoryFooter
    ensures forall i :: 0 <= i < |msgs| ==> lines[i + 1] == HistoryEntry(msgs[i])
  {
    [HistoryHeader(name, |msgs|, offset)] + seq(|msgs|, i requires 0 <= i < |msgs| => HistoryEntry(msgs[i]))
    + [HistoryFooter]
  }

  function FormatHistory(name: string, msgs: seq<DiscordMessage>, offset: nat): string {
    Join(HistoryLines(name, msgs, offset), "\n")
  }

  /** What `executeHistory` returns and the fetches it makes. */
  function History(ctx: TextChannel, lookup: string -> ChannelLookup, count: nat, channelId: Option<string>, offset: nat)
    : (string, seq<FetchRequest>)
  {
    var target :=
      if channelId.Some? && channelId.value != "" then lookup(channelId.value) else IsText(ctx);
    match target
    case NotText => (NotTextError(channelId.value), [])
    case LookupFailed(e) => (ErrorText(e), [])
    case IsText(t) =>
      var skip := Skip(t.fetch, offset, 0, None);
      if skip.error.Some? then (ErrorText(skip.error.value), skip.requests)
      else
        var col := Collect(t.fetch, count, skip.before);
        if col.error.Some? then (ErrorText(col.error.value), skip.requests + col.requests)
        else (FormatHistory(t.name, col.collected, offset), skip.requests + col.requests)
  }

  /** `executeHistory`: resolve the target channel, skip `offset` messages, collect `count`
      messages in batches, and format them; any thrown error becomes one error line. */
  method ExecuteHistory(ctx: TextChannel, lookup: string -> ChannelLookup, count: nat, channelId: Option<string>, offset: nat)
    returns (out: string, requests: seq<FetchRequest>)
    ensures (out, requests) == History(ctx, lookup, count, channelId, offset)
  {
    var target: TextChannel;
    if channelId.Some? && channelId.value != "" {
      var fetched := lookup(channelId.value);
      match fetched {
        case NotText =>
          return NotTextError(channelId.value), [];
        case LookupFailed(e) =>
          return ErrorText(e), [];
        case IsText(t) =>
          target := t;
      }
    } else {
      target := ctx;
    }
    var skip := SkipMessages(target.fetch, offset);
    if skip.error.Some? {
      return ErrorText(skip.error.value), skip.requests;
    }
    var col := CollectMessages(target.fetch, count, skip.before);
    requests := skip.requests + col.requests;
    if col.error.Some? {
      return ErrorText(col.error.value), requests;
    }
    out := FormatHistory(target.name, col.collected, offset);
  }

  /** `Skip` with the requests already made in front: the loop's state, unfolded one batch at
      a time. */
  function SkipFrom(fetch: (nat, Option<string>) -> FetchResult, offset: nat, skipped: nat, before: Option<string>,
                    made: seq<FetchRequest>): (p: Phase)
    decreases offset - skipped
  {
    if skipped >= offset then Phase(made, [], before, None)
    else
      var req := FetchRequest(Min(offset - skipped, SkipBatch), before);
      match fetch(req.limit, req.before)
      case FetchFailed(e) => Phase(made + [req], [], before, Some(e))
      case Fetched(ms) =>
        if |ms| == 0 then Phase(made + [req], [], before, None)
        else SkipFrom(fetch, offset, skipped + |ms|, Some(ms[|ms| - 1].id), made + [req])
  }

  lemma {:induction false} SkipFromSkip(fetch: (nat, Option<string>) -> FetchResult, offset: nat, skipped: nat,
                                        before: Option<string>, made: seq<FetchRequest>)
    ensures var p := Skip(fetch, offset, skipped, before);
            SkipFrom(fetch, offset, skipped, before, made) == p.(requests := made + p.requests)
    decreases offset - skipped
  {
    if skipped < offset {
      var req := FetchRequest(Min(offset - skipped, SkipBatch), before);
      match fetch(req.limit, req.before)
      case FetchFailed(e) =>
      case Fetched(ms) =>
        if |ms| > 0 {
          var rest := Skip(fetch, offset, skipped + |ms|, Some(ms[|ms| - 1].id));
          SkipFromSkip(fetch, offset, skipped + |ms|, Some(ms[|ms| - 1].id), made + [req]);
          AppendAssoc(made, [req], rest.requests);
        }
    }
  }

  /** The skip loop of `executeHistory` (which it enters only when `offset > 0`). */
  method SkipMessages(fetch: (nat, Option<string>) -> FetchResult, offset: nat) returns (p: Phase)
    ensures p == Skip(fetch, offset, 0, None)
  {
    SkipFromSkip(fetch, offset, 0, None, []);
    assert [] + Skip(fetch, offset, 0, None).requests == Skip(fetch, offset, 0, None).requests;
    var before: Option<string> := None;
    var requests: seq<FetchRequest> := [];
    if offset > 0 {
      var skipped: nat := 0;
      while skipped < offset
        invariant SkipFrom(fetch, offset, skipped, before, requests) == Skip(fetch, offset, 0, None)
        decreases offset - skipped
      {
        var batch := Min(offset - skipped, SkipBatch);
        var msgs := fetch(batch, before);
        requests := requests + [FetchRequest(batch, before)];
        if msgs.FetchFailed? {
          return Phase(requests, [], before, Some(msgs.error));
        }
        if |msgs.batch| == 0 {
          break;
        }
        before := Some(msgs.batch[|msgs.batch| - 1].id);
        skipped := skipped + |msgs.batch|;
      }
    }
    return Phase(requests, [], before, None);
  }

  /** `Collect` with the requests made and the messages kept so far in front. */
  function CollectFrom(fetch: (nat, Option<string>) -> FetchResult, remaining: int, before: Option<string>,
                       made: seq<FetchRequest>, kept: seq<DiscordMessage>): (p: Phase)
    decreases remaining
  {
    if remaining <= 0 then Phase(made, kept, before, None)
    else
      var req := FetchRequest(Min(remaining, CollectBatch), before);
      match fetch(req.limit, req.before)
      case FetchFailed(e) => Phase(made + [req], kept, before, Some(e))
      case Fetched(ms) =>
        if |ms| == 0 then Phase(made + [req], kept, before, None)
        else CollectFrom(fetch, remaining - |ms|, Some(ms[|ms| - 1].id), made + [req], kept + ms)
  }

  lemma {:induction false} CollectFromCollect(fetch: (nat, Option<string>) -> FetchResult, remaining: int,
                                              before: Option<string>, made: seq<FetchRequest>, kept: seq<DiscordMessage>)
    ensures var p := Collect(fetch, remaining, before);
            CollectFrom(fetch, remaining, before, made, kept)
            == p.(requests := made + p.requests, collected := kept + p.collected)
    decreases remaining
  {
    if remaining > 0 {
      var req := FetchRequest(Min(remaining, CollectBatch), before);
      match fetch(req.limit, req.before)
      case FetchFailed(e) =>
        assert kept + [] == kept;
      case Fetched(ms) =>
        if |ms| == 0 {
          assert kept + [] == kept;
        } else {
          var rest := Collect(fetch, remaining - |ms|, Some(ms[|ms| - 1].id));
          CollectFromCollect(fetch, remaining - |ms|, Some(ms[|ms| - 1].id), made + [req], kept + ms);
          AppendAssoc(made, [req], rest.requests);
          AppendAssoc(kept, ms, rest.collected);
        }
    }
  }

  /** The collect loop of `executeHistory`, with the copy of each batch into `allMessages`. */
  method CollectMessages(fetch: (nat, Option<string>) -> FetchResult, count: nat, start: Option<string>) returns (p: Phase)
    ensures p == Collect(fetch, count, start)
  {
    CollectFromCollect(fetch, count, start, [], []);
    assert [] + Collect(fetch, count, start).requests == Collect(fetch, count, start).requests;
    assert [] + Collect(fetch, count, start).collected == Collect(fetch, count, start).collected;
    var before := start;
    var requests: seq<FetchRequest> := [];
    var allMessages: seq<DiscordMessage> := [];
    var remaining: int := count;
    while remaining > 0
      invariant CollectFrom(fetch, remaining, before, requests, allMessages) == Collect(fetch, count, start)
      decreases remaining
    {
      var batch := Min(remaining, CollectBatch);
      var msgs := fetch(batch, before);
      requests := requests + [FetchRequest(batch, before)];
      if msgs.FetchFailed? {
        return Phase(requests, allMessages, before, Some(msgs.error));
      }
      if |msgs.batch| == 0 {
        break;
      }
      ghost var prefix := allMessages;
      for j := 0 to |msgs.batch|
        invariant allMessages == prefix + msgs.batch[..j]
      {
        allMessages := allMessages + [msgs.batch[j]];
      }
      assert msgs.batch[..|msgs.batch|] == msgs.batch;
      before := Some(msgs.batch[|msgs.batch| - 1].id);
      remaining := remaining - |msgs.batch|;
    }
    return Phase(requests, allMessages, before, None);
  }

  // ---------------------------------------------------------------------------------------
  // Properties of executeHistory

  /** Every skip request asks for between 1 and 100 messages, and none is made when `offset`
      is already reached. */
  lemma {:induction false} SkipLimits(fetch: (nat, Option<string>) -> FetchResult, offset: nat, skipped: nat, before: Option<string>)
    ensures var p := Skip(fetch, offset, skipped, before);
            (forall i :: 0 <= i < |p.requests| ==> 1 <= p.requests[i].limit <= SkipBatch)
            && (|p.requests| == 0 <==> skipped >= offset)
    decreases offset - skipped
  {
    if skipped < offset {
      var req := FetchRequest(Min(offset - skipped, SkipBatch), before);
      match fetch(req.limit, req.before)
      case FetchFailed(e) =>
      case Fetched(ms) =>
        if |ms| > 0 {
          SkipLimits(fetch, offset, skipped + |ms|, Some(ms[|ms| - 1].id));
        }
    }
  }

  /** Every collect request asks for between 1 and 30 messages. */
  lemma {:induction false} CollectLimits(fetch: (nat, Option<string>) -> FetchResult, remaining: int, before: Option<string>)
    ensures var p := Collect(fetch, remaining, before);
            (forall i :: 0 <= i < |p.requests| ==> 1 <= p.requests[i].limit <= CollectBatch)
            && (|p.requests| == 0 <==> remaining <= 0)
    decreases remaining
  {
    if remaining > 0 {
      var req := FetchRequest(Min(remaining, CollectBatch), before);
      match fetch(req.limit, req.before)
      case FetchFailed(e) =>
      case Fetched(ms) =>
        if |ms| > 0 {
          CollectLimits(fetch, remaining - |ms|, Some(ms[|ms| - 1].id));
        }
    }
  }

  /** With respect to the requests, `executeHistory` asks Discord for pages of at most 100
      (skipping) and at most 30 (collecting) messages; with a zero offset it skips nothing and its
      first request is for the newest `min(count, 30)` messages. */
  lemma HistoryRequests(ctx: TextChannel, lookup: string -> ChannelLookup, count: nat, channelId: Option<string>, offset: nat)
    ensures var reqs := History(ctx, lookup, count, channelId, offset).1;
            forall i :: 0 <= i < |reqs| ==> 1 <= reqs[i].limit <= SkipBatch
    ensures offset == 0 && count > 0 && (channelId.None? || channelId.value == "") ==>
              var reqs := History(ctx, lookup, count, channelId, offset).1;
              |reqs| > 0 && reqs[0] == FetchRequest(Min(count, CollectBatch), None)
  {
    var target :=
      if channelId.Some? && channelId.value != "" then lookup(channelId.value) else IsText(ctx);
    if target.IsText? {
      var t := target.channel;
      SkipLimits(t.fetch, offset, 0, None);
      var skip := Skip(t.fetch, offset, 0, None);
      CollectLimits(t.fetch, count, skip.before);
      var reqs := History(ctx, lookup, count, channelId, offset).1;
      forall i | 0 <= i < |reqs| ensures 1 <= reqs[i].limit <= SkipBatch {
        if i >= |skip.requests| {
          assert reqs[i] == Collect(t.fetch, count, skip.before).requests[i - |skip.requests|];
        }
      }
    }
  }

  /** The answer is either one error line or a document that starts with the header and ends
      with the footer. */
  lemma HistoryShape(ctx: TextChannel, lookup: string -> ChannelLookup, count: nat, channelId: Option<string>, offset: nat)
    ensures var out := History(ctx, lookup, count, channelId, offset).0;
            StartsWith(out, "--- history error: ")
            || exists name, msgs :: out == FormatHistory(name, msgs, offset)
  {
    var out := History(ctx, lookup, count, channelId, offset).0;
    var target :=
      if channelId.Some? && channelId.value != "" then lookup(channelId.value) else IsText(ctx);
    match target
    case NotText =>
      assert out == "--- history error: " + ("Channel <#" + channelId.value + "> is not a text channel" + " ---");
    case LookupFailed(e) =>
      assert out == "--- history error: " + (e + " ---");
    case IsText(t) =>
      var skip := Skip(t.fetch, offset, 0, None);
      if skip.error.Some? {
        assert out == "--- history error: " + (skip.error.value + " ---");
      } else {
        var col := Collect(t.fetch, count, skip.before);
        if col.error.Some? {
          assert out == "--- history error: " + (col.error.value + " ---");
        } else {
          assert out == FormatHistory(t.name, col.collected, offset);
        }
      }
  }

  /** No field the formatter prints contains a line break. */
  predicate OneLineFields(m: DiscordMessage) {
    '\n' !in m.timestamp && '\n' !in m.author && '\n' !in m.id && '\n' !in m.content
    && forall i :: 0 <= i < |m.attachments| ==> '\n' !in m.attachments[i]
  }

  lemma NatToStringOneLine(n: nat)
    ensures '\n' !in NatToString(n)
  {
    var s := NatToString(n);
    forall i | 0 <= i < |s| ensures s[i] != '\n' {
      assert IsDigit(s[i]);
    }
  }

  lemma EntryOneLine(m: DiscordMessage)
    requires OneLineFields(m)
    ensures '\n' !in HistoryEntry(m)
  {
    JoinAvoids(m.attachments, ", ", '\n');
  }

  lemma HeaderOneLine(name: string, n: nat, offset: nat)
    requires '\n' !in name
    ensures '\n' !in HistoryHeader(name, n, offset)
  {
    NatToStringOneLine(n);
    NatToStringOneLine(offset);
  }

  /** When no channel name or message field holds a line break, splitting the answer at line
      breaks gives back the header, one entry per message in fetch order, and the footer. */
  lemma FormatHistoryLines(name: string, msgs: seq<DiscordMessage>, offset: nat)
    requires '\n' !in name
    requires forall i :: 0 <= i < |msgs| ==> OneLineFields(msgs[i])
    ensures Split(FormatHistory(name, msgs, offset), '\n') == HistoryLines(name, msgs, offset)
  {
    var lines := HistoryLines(name, msgs, offset);
    forall i | 0 <= i < |lines| ensures '\n' !in lines[i] {
      if i == 0 {
        HeaderOneLine(name, |msgs|, offset);
      } else if i < |lines| - 1 {
        EntryOneLine(msgs[i - 1]);
      }
    }
    SplitJoin(lines, '\n');
  }

  // ---------------------------------------------------------------------------------------
  // executeHistory over a concrete channel

  /** Where a page starts in a channel listed newest first: at the top without a cursor, just
      after the cursor message otherwise (past the end when the cursor is unknown). */
  function PageStart(channel: seq<DiscordMessage>, before: Option<string>): (p: nat)
    ensures p <= |channel|
  {
    match before
    case None => 0
    case Some(id) => var i := FindMessage(channel, id); if i < |channel| then i + 1 else |channel|
  }

  /** Discord's `messages.fetch({limit, before})` on a channel listed newest first: the next
      `limit` messages older than the cursor. */
  function ChannelFetch(channel: seq<DiscordMessage>, limit: nat, before: Option<string>): (r: FetchResult)
    ensures r.Fetched? && |r.batch| <= limit
  {
    var p := PageStart(channel, before);
    Fetched(channel[p..Min(p + limit, |channel|)])
  }

  function ChannelOf(name: string, channel: seq<DiscordMessage>): (t: TextChannel)
    ensures t.name == name
    ensures forall limit: nat, before :: t.fetch(limit, before) == ChannelFetch(channel, limit, before)
  {
    TextChannel(name, (limit: nat, before: Option<string>) => ChannelFetch(channel, limit, before))
  }

  /** The cursor a page leaves after its last message, the `k`-th newest. */
  function Cursor(channel: seq<DiscordMessage>, k: nat): Option<string>
    requires 0 < k <= |channel|
  {
    Some(channel[k - 1].id)
  }

  /** Every fetch with cursor `before` returns the next messages from position `start` on. */
  ghost predicate PagesAt(fetch: (nat, Option<string>) -> FetchResult, channel: seq<DiscordMessage>,
                          before: Option<string>, start: nat)
    requires start <= |channel|
  {
    forall limit: nat :: fetch(limit, before) == Fetched(channel[start..Min(start + limit, |channel|)])
  }

  /** The cursor left after the `k`-th newest message pages from position `k`. */
  ghost predicate Pager(fetch: (nat, Option<string>) -> FetchResult, channel: seq<DiscordMessage>) {
    forall k :: 0 < k <= |channel| ==> PagesAt(fetch, channel, Cursor(channel, k), k)
  }

  /** With unique ids, Discord's fetch pages from the newest message without a cursor, and from
      right after a message with that message's id as cursor. */
  lemma ChannelPages(name: string, channel: seq<DiscordMessage>)
    requires UniqueIds(channel)
    ensures PagesAt(ChannelOf(name, channel).fetch, channel, None, 0)
    ensures Pager(ChannelOf(name, channel).fetch, channel)
  {
    var fetch := ChannelOf(name, channel).fetch;
    forall k | 0 < k <= |channel| ensures PagesAt(fetch, channel, Cursor(channel, k), k) {
      var i := FindMessage(channel, channel[k - 1].id);
      assert i <= k - 1;
      assert PageStart(channel, Cursor(channel, k)) == k;
    }
  }

  lemma SliceSplit<T>(s: seq<T>, i: nat, j: nat, k: nat)
    requires i <= j <= k <= |s|
    ensures s[i..k] == s[i..j] + s[j..k]
  {
  }

  /** On a real channel the skip loop never fails and leaves a cursor that pages after the
      `min(offset, n)`-th newest message. */
  lemma {:induction false} SkipChannel(fetch: (nat, Option<string>) -> FetchResult, channel: seq<DiscordMessage>,
                                       offset: nat, skipped: nat, before: Option<string>)
    requires skipped <= offset && skipped <= |channel|
    requires Pager(fetch, channel) && PagesAt(fetch, channel, before, skipped)
    ensures var p := Skip(fetch, offset, skipped, before);
            p.error.None? && PagesAt(fetch, channel, p.before, Min(offset, |channel|))
    decreases offset - skipped
  {
    if skipped < offset {
      var batch := Min(offset - skipped, SkipBatch);
      var end := Min(skipped + batch, |channel|);
      assert fetch(batch, before) == Fetched(channel[skipped..end]);
      if skipped < end {
        var next := Cursor(channel, end);
        assert PagesAt(fetch, channel, next, end);
        SkipChannel(fetch, channel, offset, end, next);
      }
    }
  }

  /** The collect loop stops, without error, at zero or at an empty batch. */
  lemma CollectEmpty(fetch: (nat, Option<string>) -> FetchResult, remaining: int, before: Option<string>)
    requires remaining <= 0 || fetch(Min(remaining, CollectBatch), before) == Fetched([])
    ensures Collect(fetch, remaining, before).error.None? && Collect(fetch, remaining, before).collected == []
  {
  }

  /** One round of the collect loop that receives a non-empty batch, followed by the rest. */
  lemma CollectAppend(fetch: (nat, Option<string>) -> FetchResult, remaining: int, before: Option<string>,
                      ms: seq<DiscordMessage>, next: Option<string>, q: Phase)
    requires remaining > 0 && |ms| > 0 && fetch(Min(remaining, CollectBatch), before) == Fetched(ms)
    requires next == Some(ms[|ms| - 1].id) && q == Collect(fetch, remaining - |ms|, next)
    ensures var p := Collect(fetch, remaining, before);
            p.error == q.error && p.collected == ms + q.collected
  {
  }

  /** On a real channel the collect loop never fails and gathers the next `remaining` messages
      (or as many as are left) in newest-first order. */
  lemma {:induction false} CollectChannel(fetch: (nat, Option<string>) -> FetchResult, channel: seq<DiscordMessage>,
                                          remaining: nat, before: Option<string>, start: nat)
    requires start <= |channel|
    requires Pager(fetch, channel) && PagesAt(fetch, channel, before, start)
    ensures var p := Collect(fetch, remaining, before);
            p.error.None? && p.collected == channel[start..Min(start + remaining, |channel|)]
    decreases remaining
  {
    var batch := Min(remaining, CollectBatch);
    var end := Min(start + batch, |channel|);
    var ms := channel[start..end];
    assert fetch(batch, before) == Fetched(ms);
    if remaining > 0 && start < end {
      var stop := Min(start + remaining, |channel|);
      var next := Cursor(channel, end);
      assert PagesAt(fetch, channel, next, end);
      assert next == Some(ms[|ms| - 1].id);
      CollectChannel(fetch, channel, remaining - |ms|, next, end);
      assert Min(end + (remaining - |ms|), |channel|) == stop;
      CollectAppend(fetch, remaining, before, ms, next, Collect(fetch, remaining - |ms|, next));
      SliceSplit(channel, start, end, stop);
    } else {
      CollectEmpty(fetch, remaining, before);
    }
  }

  /** Without a channel id and without a failing fetch, the answer formats what the collect loop
      gathered after the skip loop. */
  lemma HistoryUnfailed(ctx: TextChannel, lookup: string -> ChannelLookup, count: nat, offset: nat)
    requires Skip(ctx.fetch, offset, 0, None).error.None?
    requires Collect(ctx.fetch, count, Skip(ctx.fetch, offset, 0, None).before).error.None?
    ensures History(ctx, lookup, count, None, offset).0
            == FormatHistory(ctx.name, Collect(ctx.fetch, count, Skip(ctx.fetch, offset, 0, None).before).collected, offset)
  {
  }

  /** `!discord history` on the current channel, which holds `channel` newest first: the answer
      lists the `count` messages that follow the `offset` newest ones (fewer when the channel
      ends first), newest first. */
  lemma HistoryOfChannel(name: string, channel: seq<DiscordMessage>, lookup: string -> ChannelLookup, count: nat, offset: nat)
    requires UniqueIds(channel)
    ensures History(ChannelOf(name, channel), lookup, count, None, offset).0
            == FormatHistory(name, channel[Min(offset, |channel|)..Min(offset + count, |channel|)], offset)
  {
    var ctx := ChannelOf(name, channel);
    ChannelPages(name, channel);
    SkipChannel(ctx.fetch, channel, offset, 0, None);
    var skip := Skip(ctx.fetch, offset, 0, None);
    var start := Min(offset, |channel|);
    CollectChannel(ctx.fetch, channel, count, skip.before, start);
    assert Min(start + count, |channel|) == Min(offset + count, |channel|);
    HistoryUnfailed(ctx, lookup, count, offset);
  }
}
