# DiscordBot core, modelled in Dafny

The model covers the core of a Discord bot that forwards channel messages to a coding agent and
turns the agent's answer back into Discord traffic:

- a line protocol parser: `!discord` commands and the `media:` / `reactions:` prefixes;
- the dispatcher that buffers text and sends it in chunks of at most 2000 UTF-16 code units;
- the agent session, with its feedback loop and session-id tracking;
- a per-channel FIFO worker queue;
- the session table, kept in a file;
- prompt building;
- text and session-id extraction from agent messages;
- the paginated `!discord history` command;
- the configuration checks.

The agent, Discord and the file system stay outside the model:

- Their answers are inputs: oracles given as function parameters, a fetched message as an
  `Option`, or an outcome datatype for a message's processing.
- What the bot does to them is recorded as an effect trace that the classes append to.

One module per source file:

| module | file | source |
|---|---|---|
| `Common` | `common.dfy` | JavaScript string helpers: `trim`, `split`, `join`, `\s`, digits |
| `ResponseLineParser` | `response_line_parser.dfy` | `src/claude/response-line-parser.ts` |
| `ResponseLineParserExamples` | `parser_examples.dfy` | the parser's test cases, derived from the general lemmas |
| `StreamHandler` | `stream_handler.dfy` | `src/discord/stream-handler.ts` |
| `CommandExecutor` | `command_executor.dfy` | `src/discord/command-executor.ts` |
| `Session` | `session.dfy` | `src/claude/session.ts` |
| `ResponseParser` | `response_parser.dfy` | `src/claude/response-parser.ts` |
| `ChannelQueue` | `channel_queue.dfy` | `src/discord/channel-queue.ts` |
| `SessionManagement` | `session_manager.dfy` | `src/session-manager.ts` |
| `PromptBuilder` | `prompt_builder.dfy` | `src/claude/prompt-builder.ts` |
| `Config` | `config.dfy` | `src/config.ts` |

Code that updates state step by step is modelled as classes and methods with loops:

- `DiscordHandler.HandleLines` and `SplitMessage`;
- `ClaudeSession.Run` and `ClaudeSession.HandlePrompt`;
- the `ChannelQueue` class;
- `SessionManager`;
- the extraction loops and `ExecuteHistory`'s pagination loops.

Each method is proved equal to a specification function. The lemmas then state the properties
the source promises about that function.

Some decisions where the model had to choose:

- The regular expressions are written as matchers that return the captures JavaScript's
  backtracking engine returns.
- `.` excludes the JavaScript line terminators, so a command line that ends in `\r` is text
  (`CarriageReturnExample`).
- With a limit of 0, `splitMessage` may loop forever: it does whenever the remaining text does
  not start with `\n`. So `SplitMessage` requires `maxLength >= 1`. Its one caller passes 2000.
- JavaScript strings are sequences of UTF-16 code units, and `length`, `lastIndexOf` and `slice`
  count those. `splitMessage` is therefore modelled on `JsString`, a sequence of code units.
  `Common.Utf16` encodes the buffered text, and `Common.Utf16Length` states that a character
  outside the Basic Multilingual Plane counts two.
- In `ChannelQueue`, `processLoop` runs synchronously up to its first `await`. So an `enqueue`
  on an idle channel has already taken the message off the queue when it returns.
- The async worker is modelled as an arbitrary interleaving of three events:
  - `Enqueue`;
  - `Complete`: the awaited processing settles and the loop takes its next turn;
  - `LoopRejected`: the worker's promise rejects.
- A `null` channel entry in the configuration makes the code throw a `TypeError` before its own
  check can fail. The model keeps that as the error `PropertyOfNull`.

## Model

| member | source | states |
|---|---|---|
| ResponseLineParser.AfterVerb | src/claude/response-line-parser.ts:21-26 | the `^!discord\s+<verb>` prefix of every command regex; what follows the verb is shorter than the line |
| ResponseLineParser.MatchNop | src/claude/response-line-parser.ts:21 | NOP_RE: `!discord`, a non-empty white-space run, `nop`, the end of the line |
| ResponseLineParser.MatchReaction | src/claude/response-line-parser.ts:22 | REACTION_RE's captures as backtracking gives them: the digit run, whether a `-` followed the white space, and the rest of the line |
| ResponseLineParser.MatchHistory | src/claude/response-line-parser.ts:23 | HISTORY_RE's capture: everything after `history`, to the end of the line |
| ResponseLineParser.MatchMedia | src/claude/response-line-parser.ts:27 | MEDIA_RE's capture: what `(.+)` takes after `media:` and the `\s+` run, as backtracking leaves it |
| ResponseLineParser.MatchReactions | src/claude/response-line-parser.ts:28 | REACTIONS_RE's capture: what `(.+)` takes after `reactions:` and the `\s+` run, as backtracking leaves it |
| ResponseLineParser.KeepNonBlank | src/claude/response-line-parser.ts:33-35 | the `filter` of `splitEmojis`: keeps exactly the non-blank segments and never adds any |
| ResponseLineParser.KeepNonBlankAppend | src/claude/response-line-parser.ts:33-35 | the filter distributes over concatenation: blank segments are dropped where they stand |
| ResponseLineParser.SplitEmojis | src/claude/response-line-parser.ts:30-36 | `splitEmojis`: the segments of the grapheme segmentation, given as a parameter, whose trim is non-empty |
| ResponseLineParser.Tokens | src/claude/response-line-parser.ts:50 | `split(/\s+/)` of trimmed text: every token is non-empty and free of white space |
| ResponseLineParser.ApplyTokens | src/claude/response-line-parser.ts:44-61 | the token loop from the defaults; the count never exceeds 100 |
| ResponseLineParser.HistoryArgsOf | src/claude/response-line-parser.ts:38-64 | what `parseHistoryArgs` returns: the defaults 10, none and 0, updated by every token of the trimmed text in turn |
| ResponseLineParser.ParseHistoryArgs | src/claude/response-line-parser.ts:38-64 | the `for` loop of `parseHistoryArgs` computes the defaults updated by every token in turn, with the count capped at 100 |
| ResponseLineParser.ParseLine | src/claude/response-line-parser.ts:66-118 | a line is text exactly when no recogniser matches, and then its content is the raw line; the parser never yields send or sendto |
| ResponseLineParser.ParseResponseText | src/claude/response-line-parser.ts:120-122 | one parsed line per `\n`-separated segment (count of `\n` plus one), the i-th being `parseLine` of the i-th segment |
| ResponseLineParser.AfterVerbShape | src/claude/response-line-parser.ts:21-26 | a line matching a command prefix is `!discord`, non-empty white space, the verb and the rest |
| ResponseLineParser.MatcherStarts | src/claude/response-line-parser.ts:21-28 | each command regex fixes the first letter after the prefix; `media:` and `reactions:` lines are no commands and exclude each other |
| ResponseLineParser.RecognisersExclusive | src/claude/response-line-parser.ts:69-114 | at most one recogniser matches any line, so the order they are tried in never changes the result |
| ResponseLineParser.NopLanguage | src/claude/response-line-parser.ts:21 | NOP_RE accepts exactly `!discord`, white space, `nop` (both directions) |
| ResponseLineParser.HistoryWhateverFollows | src/claude/response-line-parser.ts:85-90 | `!discord` + white space + `history` + any single-line rest is a history command with the arguments parsed from the rest |
| ResponseLineParser.ReactionLine | src/claude/response-line-parser.ts:74-83 | a reaction command yields the digit run as message id, the trimmed emoji, and `remove` exactly when a `-` preceded it |
| ResponseLineParser.DeleteDigits | src/claude/response-line-parser.ts:92-96 | `!discord delete <digits>` yields a delete of that id |
| ResponseLineParser.DeleteLink | src/claude/response-line-parser.ts:92-96 | `!discord delete https://discord.com/channels/A/B/C` yields a delete of `C` |
| ResponseLineParser.ExecDigits | src/claude/response-line-parser.ts:98-102 | `!discord exec <digits>` yields an exec of that id |
| ResponseLineParser.MatchDelete | src/claude/response-line-parser.ts:24-25 | DELETE_RE's capture, from a link or a bare id, is always a digit string |
| ResponseLineParser.MatchExec | src/claude/response-line-parser.ts:26 | EXEC_RE's capture is always a digit string |
| ResponseLineParser.IdsAreDigits | src/claude/response-line-parser.ts:92-102 | every delete and exec id the parser yields is a digit string |
| ResponseLineParser.NoCommand | src/claude/response-line-parser.ts:21-26 | a line not starting with `!` matches none of the commands |
| ResponseLineParser.MediaLine | src/claude/response-line-parser.ts:104-108 | `media:` + white space + a path yields the trimmed path |
| ResponseLineParser.ReactionsLine | src/claude/response-line-parser.ts:110-114 | `reactions:` + white space + a payload yields the payload's non-blank grapheme clusters in order |
| ResponseLineParser.KeepNonBlankAll | src/claude/response-line-parser.ts:33-35 | segments that are all non-blank are all kept, in order |
| ResponseLineParser.SpaceThenRestTrim | src/claude/response-line-parser.ts:104-114 | the capture of `\s+(.+)$` trims to the trimmed remainder, wherever the greedy run stopped |
| ResponseLineParser.BlankHistoryArgs | src/claude/response-line-parser.ts:43-48 | blank argument text gives count 10, no channel, offset 0 |
| ResponseLineParser.IgnoredToken | src/claude/response-line-parser.ts:51-60 | a token that is not offset, channel or count changes nothing |
| ResponseLineParser.LastCountWins | src/claude/response-line-parser.ts:58-59 | the count is the last bare number, capped at 100 |
| ResponseLineParser.NoCountToken | src/claude/response-line-parser.ts:44-59 | without a bare number the count stays 10 |
| ResponseLineParser.LastOffsetWins | src/claude/response-line-parser.ts:52-55 | the offset is the value of the last `offset:N` token |
| ResponseLineParser.NoOffsetToken | src/claude/response-line-parser.ts:46-55 | without an `offset:N` token the offset stays 0 |
| ResponseLineParser.LastChannelWins | src/claude/response-line-parser.ts:53-57 | the channel is the digits of the last `<#N>` token |
| ResponseLineParser.NoChannelToken | src/claude/response-line-parser.ts:45-57 | without a `<#N>` token there is no channel |
| ResponseLineParserExamples.OneLine | src/claude/response-line-parser.ts:120-122 | a text without `\n` parses to exactly its one line |
| ResponseLineParserExamples.NopExample | src/claude/response-line-parser.test.ts:224-227 | `!discord nop` parses to a nop |
| ResponseLineParserExamples.ReactionAddExample | src/claude/response-line-parser.test.ts:229-234 | `!discord reaction 123456789 👍` adds 👍 to message 123456789 |
| ResponseLineParserExamples.ReactionRemoveExample | src/claude/response-line-parser.test.ts:236-241 | `!discord reaction 123456789 -👀` removes 👀 |
| ResponseLineParserExamples.HistoryExample | src/claude/response-line-parser.test.ts:243-248 | `!discord history 20 offset:10` gives count 20, no channel, offset 10 |
| ResponseLineParserExamples.HistoryCapExample | src/claude/response-line-parser.ts:59 | `!discord history 500` gives count 100, no channel and offset 0: the count is capped at 100 |
| ResponseLineParserExamples.DeleteExample | src/claude/response-line-parser.test.ts:250-255 | `!discord delete 123456789` deletes 123456789 |
| ResponseLineParserExamples.ExecExample | src/claude/response-line-parser.test.ts:257-262 | `!discord exec 123456789` execs 123456789 |
| ResponseLineParserExamples.MediaExample | src/claude/response-line-parser.test.ts:264-269 | `media: .tmp/image.png` yields that path |
| ResponseLineParserExamples.ReactionsExample | src/claude/response-line-parser.test.ts:271-276 | `reactions: 1️⃣2️⃣`, under a segmentation into the two keycap clusters, yields both, in order |
| ResponseLineParserExamples.HelloLine | src/claude/response-line-parser.ts:116-117 | a line no recogniser accepts is text with the raw line |
| ResponseLineParserExamples.TwoLinesExample | src/claude/response-line-parser.ts:120-122 | `hello\n!discord nop` gives a text line then a nop: lines are neither dropped nor merged |
| ResponseLineParserExamples.CarriageReturnExample | src/claude/response-line-parser.ts:21 | `!discord nop\r` is text, since `$` does not match before a carriage return |
| StreamHandler.LastIndexAtMost | src/discord/stream-handler.ts:199 | `lastIndexOf("\n", from)`: the last index at or before `from` holding the code unit, or -1 when none does |
| StreamHandler.CutIndex | src/discord/stream-handler.ts:199-200 | the cut of an over-long remainder lies in 1..max |
| StreamHandler.DropLeadingNewline | src/discord/stream-handler.ts:202 | `.replace(/^\n/, "")` removes at most one leading line break |
| StreamHandler.Chunks | src/discord/stream-handler.ts:194-203 | the loop: a remainder within the limit is the last chunk; a longer one is cut at the cut index, and one leading `\n` is dropped from the rest |
| StreamHandler.SplitMessageSpec | src/discord/stream-handler.ts:189-205 | what `splitMessage` returns: text within the limit as the only chunk, otherwise the loop's chunks |
| StreamHandler.SplitMessage | src/discord/stream-handler.ts:189-205 | the `while` loop, on UTF-16 code units, returns the chunks the specification function gives |
| StreamHandler.CutAtLastNewline | src/discord/stream-handler.ts:199-200 | the cut is at the last line break among positions 1..max when there is one, else a hard cut at max |
| StreamHandler.ChunkLengths | src/discord/stream-handler.ts:194-203 | every chunk of the loop is non-empty and at most `max` code units long (JavaScript `length`) |
| StreamHandler.ChunksReassemble | src/discord/stream-handler.ts:199-202 | concatenating the chunks, re-inserting at each boundary nothing or the one line break dropped there, gives back the text |
| StreamHandler.SplitMessageSound | src/discord/stream-handler.ts:189-205 | short text comes back as `[text]`; there is always a chunk; long text gives chunks of 1..max code units (JavaScript `length`); the chunks reassemble the text |
| StreamHandler.LongLineSplits | src/discord/stream-handler.ts:194-203 | text without a line break that is over the limit is hard-cut: the first chunk is exactly its first `max` code units, and more chunks follow |
| StreamHandler.EmojiTextSplits | src/discord/stream-handler.ts:46 | the limit of 2000 counts code units: text made only of characters outside the Basic Multilingual Plane is split once it has over 1000 characters |
| Common.Utf16Length | src/discord/stream-handler.ts:191 | JavaScript `length`: a character of the Basic Multilingual Plane counts one code unit, any other two |
| Common.Utf16RoundTrip | src/discord/stream-handler.ts:33 | the UTF-16 encoding of the buffered text loses nothing: decoding it gives back the characters |
| Common.Utf16Append | src/discord/stream-handler.ts:33 | the encoding of a concatenation is the concatenation of the encodings |
| Common.AstralText | src/discord/stream-handler.ts:191-199 | text outside the Basic Multilingual Plane takes two code units per character and holds no line-break unit |
| StreamHandler.FlushEffects | src/discord/stream-handler.ts:29-74 | what `flushPending` does: nothing for blank text without media, or without a channel; otherwise one send per chunk (the media on the first), the media-only send when there is no chunk, then the reactions on the last message |
| StreamHandler.ChunkSends | src/discord/stream-handler.ts:49-59 | one send per chunk |
| StreamHandler.Reacts | src/discord/stream-handler.ts:65-73 | one reaction per buffered emoji |
| StreamHandler.FlushNothing | src/discord/stream-handler.ts:33-44 | a flush does nothing exactly when the text is blank and there is no media, or there is no output channel |
| StreamHandler.FlushShape | src/discord/stream-handler.ts:46-73 | a flush is one send per chunk of the text's UTF-16 encoding, in order, each at most 2000 code units long, media only on the first, then one reaction per emoji in order; the media-only send of lines 61-63 never happens |
| StreamHandler.HandleFrom | src/discord/stream-handler.ts:115-181 | the dispatcher over `lines[i..]` is the step of line `i` followed by the rest |
| StreamHandler.LineStep | src/discord/stream-handler.ts:116-180 | one iteration: text, media, reactions and nop only add to the buffer; a command flushes, records its effects and empties the buffer; history then stops with its transcript |
| StreamHandler.Handle | src/discord/stream-handler.ts:112-185 | `handleLines`: the lines in turn until history stops it, then a final flush |
| StreamHandler.CommandEffects | src/discord/stream-handler.ts:132-179 | a command records itself; a fetched exec message is then handed to `enqueue` |
| StreamHandler.BufferedCons | src/discord/stream-handler.ts:117-130 | buffering a line then a run is buffering the whole run |
| StreamHandler.BufferedRun | src/discord/stream-handler.ts:115-130 | text, media, reactions and nop lines only append to the buffer, in arrival order, and send nothing |
| StreamHandler.BufferedThenCommand | src/discord/stream-handler.ts:132-179 | buffered lines followed by a command: exactly one flush of their contents, then the command, then the rest from an empty buffer |
| StreamHandler.OnlyBuffered | src/discord/stream-handler.ts:115-184 | without any command the whole output goes out in one flush at the end and `undefined` is returned |
| StreamHandler.FirstHistory | src/discord/stream-handler.ts:144-153 | the index of the first history line: no earlier line is one |
| StreamHandler.HistoryEnds | src/discord/stream-handler.ts:144-153 | the first history line's transcript is the result and later lines make no difference; without one the result is `undefined` |
| StreamHandler.CommandsAppend | src/discord/stream-handler.ts:132-179 | the commands of a trace distribute over concatenation |
| StreamHandler.FlushHasNoCommands | src/discord/stream-handler.ts:29-74 | a flush only sends and reacts |
| StreamHandler.CommandEffectsAreCommands | src/discord/stream-handler.ts:132-179 | a command line records only command effects |
| StreamHandler.BufferedStep | src/discord/stream-handler.ts:117-130 | a buffered line only adds to the buffer and contributes no command |
| StreamHandler.CommandStep | src/discord/stream-handler.ts:132-179 | a command other than history flushes, resets the buffer, runs, and handling continues |
| StreamHandler.HistoryStep | src/discord/stream-handler.ts:144-153 | a history line flushes and handling stops with its transcript |
| StreamHandler.CommandsInOrder | src/discord/stream-handler.ts:132-179 | the commands of the trace are exactly those the lines call for, in line order, up to the first history line; a fetched exec message is enqueued, a missing one skipped |
| StreamHandler.NoTargetNoSends | src/discord/stream-handler.ts:39-44 | with no output channel the trace is exactly the commands of the lines |
| StreamHandler.NoTargetCommandsOnly | src/discord/stream-handler.ts:39-44 | with no output channel nothing is ever sent or reacted |
| StreamHandler.DiscordHandler.constructor | src/discord/stream-handler.ts:101-109 | the text output is the channel, or in skill mode the log channel if any |
| StreamHandler.DiscordHandler.FlushPending | src/discord/stream-handler.ts:29-74 | the trace gains exactly the flush's effects |
| StreamHandler.DiscordHandler.SendBuffered | src/discord/stream-handler.ts:46-73 | the send half of `flushPending`: one send per chunk with the media on the first, then one reaction per emoji on the last message; the media-only send of lines 61-63 is unreachable, since there is always a chunk |
| StreamHandler.DiscordHandler.SendChunks | src/discord/stream-handler.ts:49-59 | the chunk loop appends one send per chunk and sets `lastMessage` exactly when there was a chunk |
| StreamHandler.DiscordHandler.ReactAll | src/discord/stream-handler.ts:65-73 | the reaction loop appends one reaction per emoji, in order |
| StreamHandler.DiscordHandler.HandleLine | src/discord/stream-handler.ts:116-180 | one loop iteration appends that line's effects and gives the next buffer and the stop value |
| StreamHandler.DiscordHandler.RunCommand | src/discord/stream-handler.ts:132-179 | flush, then the command's effects |
| StreamHandler.DiscordHandler.Advance | src/discord/stream-handler.ts:115-181 | after line `i` the trace plus what is left of the dispatcher equals the dispatcher over `lines[i..]` |
| StreamHandler.DiscordHandler.HandleLines | src/discord/stream-handler.ts:112-185 | `handleLines` appends exactly the dispatcher's effects and returns its result |
| CommandExecutor.ExecuteReaction | src/discord/command-executor.ts:7-24 | a failed fetch gives nothing, and a rejected `react` or `users.remove` changes nothing; a successful add makes the emoji a key whose users are its earlier users plus the bot, and adds no other key; a successful remove takes only the bot out of that emoji and adds no key; every other emoji keeps its users |
| CommandExecutor.RemoveKeepsOthers | src/discord/command-executor.ts:15-17 | another user's reaction is never removed |
| CommandExecutor.AddThenRemove | src/discord/command-executor.ts:7-24 | adding then removing the bot's reaction leaves the users of that emoji as before, less the bot, and every other emoji untouched; the emoji key stays |
| CommandExecutor.ExecuteDelete | src/discord/command-executor.ts:26-43 | the fetch fails exactly when no message has the id; the delete is refused exactly when another user wrote it; the message is deleted exactly when the bot wrote it and `delete` succeeded, and otherwise the channel is unchanged; a deletion removes exactly that message (one fewer, all others kept); nobody else's message is ever deleted |
| CommandExecutor.FindMessage | src/discord/command-executor.ts:31 | the first message with the id, or the end |
| CommandExecutor.NotTextError | src/discord/command-executor.ts:81 | the answer for a channel id that is not a text channel: `--- history error: Channel <#id> is not a text channel ---` |
| CommandExecutor.ErrorText | src/discord/command-executor.ts:147 | the error line `--- history error: <message> ---` of the `catch` |
| CommandExecutor.ExecuteExec | src/discord/command-executor.ts:51-66 | a result exactly when the fetch succeeded, with the message's id and content |
| CommandExecutor.AttachmentInfo | src/discord/command-executor.ts:133-136 | the attachment suffix is empty exactly when there are no attachments |
| CommandExecutor.HistoryEntry | src/discord/command-executor.ts:131-138 | an entry line: `[ts] author (id): content` and the attachment suffix |
| CommandExecutor.HistoryHeader | src/discord/command-executor.ts:141 | the header line with the channel name, the number of messages collected and the offset |
| CommandExecutor.FormatHistory | src/discord/command-executor.ts:140-144 | the header, the entries and the footer joined by `\n` |
| CommandExecutor.Skip | src/discord/command-executor.ts:91-103 | the skip phase: fetches of `min(offset - skipped, 100)` messages before the cursor, the cursor moved to the last of each batch, until the offset, an empty batch or a failed fetch |
| CommandExecutor.Collect | src/discord/command-executor.ts:107-128 | the collect phase: fetches of `min(remaining, 30)` messages, kept in fetch order, until none remain, an empty batch or a failed fetch |
| CommandExecutor.History | src/discord/command-executor.ts:68-149 | what `executeHistory` returns and the fetches it makes: the target channel or an error line, then skip, collect and format, or the error line of a failed fetch |
| CommandExecutor.HistoryLines | src/discord/command-executor.ts:130-144 | the header with the message count and offset, one entry per message in fetch order, the footer |
| CommandExecutor.ExecuteHistory | src/discord/command-executor.ts:68-149 | the method returns the answer and makes the fetches the specification function gives |
| CommandExecutor.SkipMessages | src/discord/command-executor.ts:91-103 | the skip loop computes the skip phase |
| CommandExecutor.CollectMessages | src/discord/command-executor.ts:107-128 | the collect loop computes the collect phase |
| CommandExecutor.SkipLimits | src/discord/command-executor.ts:91-103 | every skip fetch asks for 1..100 messages; there is none exactly when the offset is already reached |
| CommandExecutor.CollectLimits | src/discord/command-executor.ts:107-128 | every collect fetch asks for 1..30 messages; there is none exactly when nothing remains |
| CommandExecutor.HistoryRequests | src/discord/command-executor.ts:88-128 | no fetch asks for more than 100; with offset 0 the first fetch is for the newest `min(count, 30)` messages, with no cursor |
| CommandExecutor.HistoryShape | src/discord/command-executor.ts:78-148 | the answer is one error line or a formatted history |
| CommandExecutor.FormatHistoryLines | src/discord/command-executor.ts:130-144 | with single-line fields the answer splits back into header, entries and footer |
| CommandExecutor.ChannelFetch | src/discord/command-executor.ts:95-114 | Discord's page fetch returns at most `limit` messages |
| CommandExecutor.SkipChannel | src/discord/command-executor.ts:91-103 | on a real channel the skip phase never fails and leaves a cursor from which the next fetch starts right after the `min(offset, n)`-th newest message |
| CommandExecutor.CollectChannel | src/discord/command-executor.ts:107-128 | on a real channel the collect phase gathers the next `remaining` messages (fewer at the end), newest first |
| CommandExecutor.HistoryUnfailed | src/discord/command-executor.ts:84-144 | without a channel id and a failing fetch the answer formats the collected messages |
| CommandExecutor.HistoryOfChannel | src/discord/command-executor.ts:68-144 | on a channel holding messages newest first, the answer lists the `count` messages after the `offset` newest |
| Session.Adopt | src/claude/session.ts:51-65 | the id becomes the message's, and `onSessionChange` is told exactly when it differs and a listener is set |
| Session.MessageStep | src/claude/session.ts:49-74 | one message: a result or assistant message adopts its id; other kinds are skipped; assistant text that is not blank is parsed and handed to `handleLines`, whose result is the feedback |
| Session.Walk | src/claude/session.ts:49-77 | the `for await` loop: message by message, until one yields feedback |
| Session.Prompt | src/claude/session.ts:46-78 | `handlePrompt` returns at most one prompt |
| Session.WalkExtends | src/claude/session.ts:49-75 | walking a stream starts no query and only appends to the notifications and the handled lines |
| Session.StepCalls | src/claude/session.ts:61-74 | a message makes at most one `handleLines` call, and only a call yields feedback |
| Session.FeedbackIsFirst | src/claude/session.ts:71-74 | the feedback is the first result of `handleLines` that is not `undefined` |
| Session.RestNotConsumed | src/claude/session.ts:72-74 | once feedback is returned the rest of the stream is never consumed |
| Session.StepChanges | src/claude/session.ts:50-65 | what one message does to the notifications |
| Session.SessionChanges | src/claude/session.ts:50-65 | `onSessionChange` fires exactly on changes of the id, never twice in a row for one id, and the last notification names the current id |
| Session.NoTextNoCalls | src/claude/session.ts:61-68 | a stream without an assistant message with non-blank text makes no `handleLines` call and yields no feedback |
| Session.RoundOfOne | src/claude/session.ts:34-39 | a round over at most one prompt starts one query per prompt, resuming the current id, and yields at most one prompt |
| Session.Round | src/claude/session.ts:34-38 | the inner loop of `run`: every prompt in turn, with their feedback collected in order |
| Session.RunRounds | src/claude/session.ts:33-43 | the outer loop: rounds until one yields no feedback, or the bound is reached |
| Session.RunBounded | src/claude/session.ts:30-44 | `run` makes at most `rounds` queries, the first with its own prompt, and reports the bound only after all rounds gave feedback |
| Session.RunOneRound | src/claude/session.ts:33-41 | `run` stops after a round without feedback and continues with the feedback otherwise |
| Session.ClaudeSession.constructor | src/claude/session.ts:21-28 | the session starts with the given id and nothing recorded |
| Session.ClaudeSession.AdoptId | src/claude/session.ts:51-65 | the state becomes the adopted state |
| Session.ClaudeSession.HandleMessage | src/claude/session.ts:50-74 | one iteration of the `for await` loop does what the message step specifies |
| Session.ClaudeSession.HandlePrompt | src/claude/session.ts:46-78 | `handlePrompt` yields the state and prompts of the specification function |
| Session.ClaudeSession.RunRound | src/claude/session.ts:34-39 | the inner loop of `run` yields the round's state and prompts |
| Session.ClaudeSession.RunLoop | src/claude/session.ts:33-43 | the outer loop runs the bounded rounds |
| Session.ClaudeSession.Run | src/claude/session.ts:30-44 | `run` runs at most 5 rounds from its prompt |
| ResponseParser.ExtractTextFromMessages | src/claude/response-parser.ts:12-27 | the text blocks' texts of all assistant messages, in message then block order, joined by `\n` |
| ResponseParser.ExtractTextFromAssistantMessage | src/claude/response-parser.ts:32-42 | `""` for a non-assistant message; otherwise its text blocks' texts joined by `\n` |
| ResponseParser.ExtractSessionId | src/claude/response-parser.ts:47-54 | the loop returns the session id of the first result message, or none |
| ResponseParser.BlockTexts | src/claude/response-parser.ts:36-40 | the texts of the text blocks, in block order |
| ResponseParser.MessageTexts | src/claude/response-parser.ts:15-24 | the text blocks' texts of the assistant messages, in message then block order |
| ResponseParser.AssistantText | src/claude/response-parser.ts:32-42 | what `extractTextFromAssistantMessage` returns |
| ResponseParser.FirstResultId | src/claude/response-parser.ts:47-54 | the session id of the first result message, if any |
| ResponseParser.BlockTextsAppend | src/claude/response-parser.ts:36-40 | block texts keep their order across concatenation |
| ResponseParser.BlockTextsSingle | src/claude/response-parser.ts:37-39 | a text block contributes its text, any other block nothing |
| ResponseParser.MessageTextsAppend | src/claude/response-parser.ts:15-24 | message texts keep their order across concatenation |
| ResponseParser.MessageTextsSingle | src/claude/response-parser.ts:16-23 | non-assistant messages contribute nothing |
| ResponseParser.MessagesTextOfOne | src/claude/response-parser.ts:12-42 | on one message both extractors agree |
| ResponseParser.NoTextBlocks | src/claude/response-parser.ts:41 | without text blocks the text is empty |
| ResponseParser.NoTextInMessages | src/claude/response-parser.ts:26 | without any text block in any assistant message the text is `""` |
| ResponseParser.FirstResultIdIsFirst | src/claude/response-parser.ts:47-54 | none exactly when there is no result message; otherwise the first result's id |
| ChannelQueue.ReplyExactlyOnFailure | src/discord/channel-queue.ts:53-63 | the error reply is sent exactly when processing threw, and last |
| ChannelQueue.MessageEffects | src/discord/channel-queue.ts:67-96 | `processMessage`: the query with the built prompt once the download succeeded, then the clean-up of the downloaded files, whatever the stream did |
| ChannelQueue.ProcessEffects | src/discord/channel-queue.ts:53-63 | one worker iteration: `processMessage`, then the error reply when it threw |
| ChannelQueue.CleanupAfterDownload | src/discord/channel-queue.ts:70-95 | downloaded files are cleaned up exactly once, after the query, whether the stream succeeded or threw; a failed download leaves nothing to clean |
| ChannelQueue.AdvancedValid | src/discord/channel-queue.ts:45-52 | the head of the loop leaves the channel consistent, busy exactly while processing |
| ChannelQueue.Advanced | src/discord/channel-queue.ts:45-52 | the loop head on one channel: an empty queue clears the flag, otherwise the first waiting message is shifted and begun |
| ChannelQueue.Pushed | src/discord/channel-queue.ts:29-32 | the push on one channel: the message joins the end of the queue |
| ChannelQueue.NextIsOldest | src/discord/channel-queue.ts:52 | the next message begun is the earliest enqueued one not yet begun |
| ChannelQueue.BegunArePrefix | src/discord/channel-queue.ts:32-52 | the messages begun are exactly the earliest enqueued, in order, and the rest wait |
| ChannelQueue.PushedValid | src/discord/channel-queue.ts:32-35 | a push keeps the channel consistent; on an idle channel the new worker is at the loop head |
| ChannelQueue.ChannelQueue.constructor | src/discord/channel-queue.ts:21-24 | empty queues, flags and trace; consistent |
| ChannelQueue.ChannelQueue.NextItem | src/discord/channel-queue.ts:45-52 | with an empty queue the flag is cleared with no await in between; otherwise the head is shifted and begun; other channels untouched |
| ChannelQueue.ChannelQueue.ProcessLoop | src/discord/channel-queue.ts:42-52 | the flag is set before the first await, then the loop head runs |
| ChannelQueue.ChannelQueue.Push | src/discord/channel-queue.ts:29-32 | the queue is created when absent and the item appended; other channels unchanged |
| ChannelQueue.ChannelQueue.Enqueue | src/discord/channel-queue.ts:26-40 | append to the channel's queue; a worker starts exactly when the flag is not set, so a busy channel never gets a second one; other channels unchanged |
| ChannelQueue.ChannelQueue.ProcessMessage | src/discord/channel-queue.ts:67-96 | query and clean-up after a successful download; the session id is stored only when non-empty; throws exactly when processing failed |
| ChannelQueue.ChannelQueue.Settle | src/discord/channel-queue.ts:53-96 | processing then the error reply on failure; the session table changes only by the stored id |
| ChannelQueue.ChannelQueue.Complete | src/discord/channel-queue.ts:45-64 | after a message settles, its effects, then the next message begun or the flag cleared; FIFO order and consistency kept |
| ChannelQueue.ChannelQueue.Abandon | src/discord/channel-queue.ts:35-38 | the rejected worker's flag is cleared |
| ChannelQueue.ChannelQueue.LoopRejected | src/discord/channel-queue.ts:35-38 | a rejected loop resets the flag; waiting messages stay queued; consistency kept |
| SessionManagement.SessionManager.constructor | src/session-manager.ts:8-37 | `load` copies every pair of a parsed file; a missing or unparsable file leaves the table empty |
| SessionManagement.SessionManager.GetSessionId | src/session-manager.ts:13-15 | an id exactly for a stored channel, and it is the stored one |
| SessionManagement.SessionManager.Save | src/session-manager.ts:39-45 | the file holds the whole table |
| SessionManagement.SessionManager.SetSessionId | src/session-manager.ts:17-20 | get-after-set returns the id; every other channel unchanged; the file holds the new table |
| SessionManagement.SessionManager.DeleteSessionId | src/session-manager.ts:22-25 | get-after-delete returns none; every other channel unchanged; the file holds the new table |
| SessionManagement.Restart | src/session-manager.ts:27-45 | loading the file a manager saved gives a manager whose every lookup agrees |
| PromptBuilder.BuildMessagePrompt | src/claude/prompt-builder.ts:4-23 | five lines joined by `\n`: the id, the content (after `/skill ` when the skill is not empty), the channel, `attachments:` with a space and the space-joined paths when there are any, and `reactions:` |
| PromptBuilder.PromptShape | src/claude/prompt-builder.ts:14-22 | the prompt starts with `id: <id>` and a line break and ends with the line `reactions:` |
| PromptBuilder.PromptRoundTrip | src/claude/prompt-builder.ts:14-22 | with single-line fields, splitting the prompt at `\n` gives back the id, content, channel, attachments and reactions lines in order |
| PromptBuilder.EmptyAttachmentsLine | src/claude/prompt-builder.ts:11-20 | the attachments line is exactly `attachments:` when the list is absent or empty, and only then |
| PromptBuilder.AttachmentsRoundTrip | src/claude/prompt-builder.ts:11-13 | paths without spaces read back from the attachments value |
| Config.Message | src/config.ts:14-22 | the message each thrown error carries; a `null` channel entry gives the `TypeError` of reading its `name` |
| Config.MessagesDistinct | src/config.ts:14-22 | no two errors carry the same message, so the text thrown tells which check failed |
| Config.Truthy | src/config.ts:14-16 | JavaScript truthiness of a parsed value, as `!` tests it |
| Config.Get | src/config.ts:14-17 | optional property access `?.`: a field of an object, `undefined` otherwise |
| Config.ChannelOk | src/config.ts:21 | a channel entry passes when its `name` is truthy and its `skill` is a string |
| Config.Valid | src/config.ts:14-24 | the data `loadConfig` accepts, stated without the order of the checks |
| Config.CheckChannels | src/config.ts:20-24 | the channel loop yields no error, the channel-fields error, or the null-entry error |
| Config.LoadConfig | src/config.ts:10-27 | on success the parsed data comes back unchanged |
| Config.FirstBadChannel | src/config.ts:20-24 | the loop passes exactly when every entry passes; otherwise the first bad entry decides the error |
| Config.AcceptsValid | src/config.ts:14-26 | `loadConfig` succeeds exactly on data with token, user, model, a non-empty channel list and every channel named with a string skill |
| Config.ChecksInOrder | src/config.ts:14-19 | each error means every earlier check passed and its own failed, in the code's order |
| Config.SkillMustBeString | src/config.ts:21 | a named channel passes exactly with a string skill, the empty string included |

## Left out

- Grapheme segmentation (`Intl.Segmenter`) is a function parameter; the model keeps only the non-blank filter.
- JavaScript's `\s` and `trim` white space is written out as a fixed character set. There is no Unicode normalisation.
- Dafny strings hold Unicode scalar values, not UTF-16 code units. Where the source counts or cuts a string (`splitMessage`), the model works on the explicit encoding `Common.Utf16`. A chunk may end between the two halves of a surrogate pair, as in JavaScript: its content is then a code-unit sequence that no `string` represents. Elsewhere only contents matter, and the model keeps characters.
- Tests of heredoc, `send`/`sendto` parsing and `parseChannelRef` (`src/claude/response-line-parser.test.ts:8-221`) describe a different parser. The parser modelled never yields those directives, as its code shows. `DiscordSend` and `DiscordSendto` exist only as dispatcher inputs.
- `executeSend` and `executeSendto` do not exist in `src/discord/command-executor.ts`. The dispatcher records them as command effects only.
- A failed Discord send or reaction in `flushPending` is not modelled; a failed reaction is only logged there. The model does not raise an error.
- `console.log`/`console.error` output is not modelled.
- `Date.toISOString` and usernames are opaque strings on each message.
- ResponseLineParser.ApplyToken: the offset is an exact integer. JavaScript's `parseInt` (`src/claude/response-line-parser.ts:55`) gives a double, which rounds above 2^53. It becomes `Infinity` past about 309 digits. `CommandExecutor.HistoryHeader` prints the exact digits, where `${offset}` (`src/discord/command-executor.ts:141`) prints the rounded value, in exponent form from 10^21 up. So `offset:9007199254740993` reads as 9007199254740992 in JavaScript. The bounded count is unaffected.
- ResponseLineParser.ParseHistoryArgs: returns the exact offset, for the reason given for `ApplyToken`.
- CommandExecutor.HistoryHeader: prints the exact offset in decimal, not JavaScript's rounded or exponent form, as described for `ApplyToken`. The skip loop's `offset - skipped` is likewise exact.
- CommandExecutor.ExecuteReaction: a reaction whose last user is removed keeps its emoji key, with an empty user set. Discord's own bookkeeping of empty reactions is not modelled.
- CommandExecutor.ExecuteReaction: a rejected `react` or `users.remove` (`src/discord/command-executor.ts:17-21`) is the `succeeded` parameter; the error is logged and swallowed, so nothing changes. A failed fetch is the `None` input.
- CommandExecutor.ExecuteDelete: a rejected `delete` (`src/discord/command-executor.ts:39-42`) is the `succeeded` parameter and gives `DeleteFailed` with the channel unchanged.
- Session.ClaudeSession.Run: a stream or `handleLines` that rejects (`src/claude/session.ts:49`, `src/claude/session.ts:71`) aborts `run` with its remaining prompts and rounds. `Walk` and `RunRounds` model only streams that end normally. At the queue level, that rejection is the `StreamFailed` outcome of `processMessage`, which leads to the error reply.
- Exceptions thrown inside `executeHistory` are modelled through the fetch and lookup oracles' error results. Other runtime errors are not.
- Session: `startClaudeQuery` and `handleLines` are oracles indexed by the number of earlier calls. `src/claude/session.ts:47` calls `startClaudeQuery` with arguments different from the ones `src/claude/query.ts` declares. The model records the prompt and resumed id only.
- ChannelQueue: `src/discord/channel-queue.ts:6` imports `streamToDiscord`, which `src/discord/stream-handler.ts` does not export. Its effect is part of the processing outcome, the session id it returns included.
- ChannelQueue.ChannelQueue.Complete: `processMessage` and the awaited error reply are merged into one step. Log lines and the interleaving inside one message's processing are not modelled. Other channels' events may interleave only between steps.
- `attachment-downloader.ts` (download, file writes, UUIDs), `query.ts`, `client.ts` and `index.ts` are not part of this model. The downloader's outcome is an input, and so is the session id the stream yields.
- `loadSystemPrompt` is a file read behind a cache and is not part of this model.
- `loadConfig`'s file read and YAML parsing are left out: it takes an already-parsed value. YAML numbers are integers; floating point is not modelled.
- SessionManagement: the JSON encoding and file I/O of `load`/`save` are snapshots of the map. A parsed file is modelled as a string-to-string map; JSON values of other shapes are not modelled.
