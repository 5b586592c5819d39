/** The line protocol the agent writes in: every `\n`-separated line of its answer becomes one
    `ParsedLine`. Each regular expression of the parser is written out as a matcher that returns
    the captures JavaScript's backtracking engine would return. */
module ResponseLineParser {
  import opened Common

  /** The directives a line can stand for. `DiscordSend` and `DiscordSendto` are handled by the
      dispatcher; the parser never produces them. */
  datatype ParsedLine =
    | Text(content: string)
    | Media(filePath: string)
    | Reactions(emojis: seq<string>)
    | DiscordReaction(messageId: string, emoji: string, remove: bool)
    | DiscordHistory(count: nat, channelId: Option<string>, offset: nat)
    | DiscordDelete(messageId: string)
    | DiscordExec(messageId: string)
    | DiscordNop
    | DiscordSend(message: string)
    | DiscordSendto(channel: string, message: string)

  datatype HistoryArgs = HistoryArgs(count: nat, channelId: Option<string>, offset: nat)

  const DefaultHistoryArgs := HistoryArgs(10, None, 0)
  const MaxHistoryCount := 100
  const Prefix := "!discord"
  const LinkPrefix := "https://discord.com/channels/"

  // ---------------------------------------------------------------------------------------
  // The regular expressions as matchers

  /** `^!discord\s+<verb>`: what follows the verb. The verb starts with a letter, so the white
      space run before it is taken whole. */
  function AfterVerb(line: string, verb: string): (rest: Option<string>)
    requires |verb| > 0 && !IsSpace(verb[0])
    ensures rest.Some? ==> |rest.value| < |line|
  {
    if !StartsWith(line, Prefix) then None
    else
      var s := line[8..];
      var k := LeadingSpaces(s);
      if k == 0 || !StartsWith(s[k..], verb) then None
      else Some(s[k + |verb|..])
  }

  /** `\s+(.+)$` from the start of `s`: the greedy white space run, given back one character when
      nothing would be left for `(.+)`; `.` refuses line terminators. */
  function SpaceThenRest(s: string): (m: Option<string>)
  {
    var k := LeadingSpaces(s);
    if k == 0 || |s| < 2 then None
    else
      var j := if k < |s| then k else |s| - 1;
      if NoLineTerminator(s[j..]) then Some(s[j..]) else None
  }

  /** `\s+(-?)(.+)$` from the start of `s`: whether the dash group matched, and the last capture. */
  function SpaceDashRest(s: string): (m: Option<(bool, string)>)
  {
    var k := LeadingSpaces(s);
    if k == 0 then None
    else if k < |s| then
      if s[k] == '-' && k + 1 < |s| && NoLineTerminator(s[k + 1..]) then Some((true, s[k + 1..]))
      else if NoLineTerminator(s[k..]) then Some((false, s[k..]))
      else None
    else if k >= 2 && !IsLineTerminator(s[k - 1]) then Some((false, s[k - 1..]))
    else None
  }

  /** NOP_RE `^!discord\s+nop$`. */
  predicate MatchNop(line: string) {
    AfterVerb(line, "nop") == Some("")
  }

  /** `\s+(\d+)\s+(-?)(.+)$`, the arguments of REACTION_RE: message id, dash, emoji text. */
  function ReactionArgs(r: string): Option<(string, bool, string)> {
    var k := LeadingSpaces(r);
    var t := r[k..];
    var d := LeadingDigits(t);
    if k == 0 || d == 0 then None
    else
      match SpaceDashRest(t[d..])
      case None => None
      case Some((dash, e)) => Some((t[..d], dash, e))
  }

  /** REACTION_RE `^!discord\s+reaction\s+(\d+)\s+(-?)(.+)$`. */
  function MatchReaction(line: string): Option<(string, bool, string)> {
    match AfterVerb(line, "reaction")
    case None => None
    case Some(r) => ReactionArgs(r)
  }

  /** HISTORY_RE `^!discord\s+history(.*)$`: the argument text. */
  function MatchHistory(line: string): Option<string> {
    match AfterVerb(line, "history")
    case None => None
    case Some(r) => if NoLineTerminator(r) then Some(r) else None
  }

  /** `\d+/\d+/(\d+)` of a message link: the message id. */
  function LinkIds(u: string): (r: Option<string>)
    ensures r.Some? ==> IsDigits(r.value)
  {
    var d1 := LeadingDigits(u);
    if d1 == 0 || d1 == |u| || u[d1] != '/' then None
    else
      var v := u[d1 + 1..];
      var d2 := LeadingDigits(v);
      if d2 == 0 || d2 == |v| || v[d2] != '/' then None
      else if IsDigits(v[d2 + 1..]) then Some(v[d2 + 1..])
      else None
  }

  /** `(?:https://discord\.com/channels/\d+/\d+/(\d+)|(\d+))$`: the first capture when the link
      matched, the second otherwise. */
  function DeleteTarget(t: string): (r: Option<string>)
    ensures r.Some? ==> IsDigits(r.value)
  {
    if StartsWith(t, LinkPrefix) && LinkIds(t[|LinkPrefix|..]).Some? then LinkIds(t[|LinkPrefix|..])
    else if IsDigits(t) then Some(t)
    else None
  }

  /** DELETE_RE `^!discord\s+delete\s+(?:...)$`. */
  function MatchDelete(line: string): (r: Option<string>)
    ensures r.Some? ==> IsDigits(r.value)
  {
    match AfterVerb(line, "delete")
    case None => None
    case Some(r) =>
      var k := LeadingSpaces(r);
      if k == 0 then None else DeleteTarget(r[k..])
  }

  /** EXEC_RE `^!discord\s+exec\s+(\d+)$`. */
  function MatchExec(line: string): (r: Option<string>)
    ensures r.Some? ==> IsDigits(r.value)
  {
    match AfterVerb(line, "exec")
    case None => None
    case Some(r) =>
      var k := LeadingSpaces(r);
      if k > 0 && IsDigits(r[k..]) then Some(r[k..]) else None
  }

  /** MEDIA_RE `^media:\s+(.+)$`. */
  function MatchMedia(line: string): Option<string> {
    if StartsWith(line, "media:") then SpaceThenRest(line[6..]) else None
  }

  /** REACTIONS_RE `^reactions:\s+(.+)$`. */
  function MatchReactions(line: string): Option<string> {
    if StartsWith(line, "reactions:") then SpaceThenRest(line[10..]) else None
  }

  predicate NoRecogniser(line: string) {
    && !MatchNop(line) && MatchReaction(line).None? && MatchHistory(line).None?
    && MatchDelete(line).None? && MatchExec(line).None? && MatchMedia(line).None?
    && MatchReactions(line).None?
  }

  // ---------------------------------------------------------------------------------------
  // Grapheme splitting, history arguments, lines

  /** The non-blank segments, in order. */
  function KeepNonBlank(segments: seq<string>): (kept: seq<string>)
    ensures |kept| <= |segments|
    ensures forall e :: e in kept ==> e in segments && !IsBlank(e)
    ensures forall e :: e in segments && !IsBlank(e) ==> e in kept
  {
    if |segments| == 0 then []
    else
      var rest := KeepNonBlank(segments[1..]);
      assert forall e :: e in segments ==> e == segments[0] || e in segments[1..];
      if IsBlank(segments[0]) then rest else [segments[0]] + rest
  }

  /** `splitEmojis`: the grapheme clusters of `s` (segmentation is a parameter) that are not blank. */
  function SplitEmojis(s: string, graphemes: string -> seq<string>): seq<string> {
    KeepNonBlank(graphemes(s))
  }

  /** Length of the non-white-space run at the start of `s`. */
  function NonSpaceRun(s: string): (n: nat)
    ensures n <= |s|
    ensures forall i :: 0 <= i < n ==> !IsSpace(s[i])
    ensures n < |s| ==> IsSpace(s[n])
  {
    if |s| == 0 || IsSpace(s[0]) then 0 else 1 + NonSpaceRun(s[1..])
  }

  /** A non-empty run without white space. */
  predicate IsToken(t: string) {
    |t| > 0 && forall j :: 0 <= j < |t| ==> !IsSpace(t[j])
  }

  /** `args.split(/\s+/)` of trimmed text: the maximal runs without white space. */
  function Tokens(s: string): (ts: seq<string>)
    ensures forall i :: 0 <= i < |ts| ==> IsToken(ts[i])
    decreases |s|
  {
    var t := DropSpaces(s);
    if t == [] then []
    else
      var n := NonSpaceRun(t);
      [t[..n]] + Tokens(t[n..])
  }

  /** White space in front does not change the tokens. */
  lemma TokensSpacePrefix(ws: string, s: string)
    requires AllSpace(ws)
    ensures Tokens(ws + s) == Tokens(s)
  {
    DropSpacesAppend(ws, s);
  }

  /** A non-empty run without white space, then the end or white space: the run is the first token. */
  lemma TokensCons(t: string, rest: string)
    requires IsToken(t)
    requires |rest| > 0 ==> IsSpace(rest[0])
    ensures Tokens(t + rest) == [t] + Tokens(rest)
  {
    assert LeadingSpaces(t + rest) == 0;
    NonSpaceRunAppend(t, rest);
    assert (t + rest)[..|t|] == t && (t + rest)[|t|..] == rest;
  }

  lemma {:induction false} NonSpaceRunAppend(t: string, rest: string)
    requires forall j :: 0 <= j < |t| ==> !IsSpace(t[j])
    requires |rest| > 0 ==> IsSpace(rest[0])
    ensures NonSpaceRun(t + rest) == |t|
  {
    if |t| > 0 {
      assert (t + rest)[1..] == t[1..] + rest;
      NonSpaceRunAppend(t[1..], rest);
    } else {
      assert t + rest == rest;
    }
  }

  /** `/^offset:(\d+)$/`. */
  predicate OffsetToken(t: string) {
    StartsWith(t, "offset:") && IsDigits(t[7..])
  }

  /** `/^<#(\d+)>$/`. */
  predicate ChannelToken(t: string) {
    |t| >= 3 && t[..2] == "<#" && t[|t| - 1] == '>' && IsDigits(t[2..|t| - 1])
  }

  /** One iteration of the token loop of `parseHistoryArgs`. */
  function ApplyToken(a: HistoryArgs, t: string): HistoryArgs {
    if OffsetToken(t) then a.(offset := DigitsValue(t[7..]))
    else if ChannelToken(t) then a.(channelId := Some(t[2..|t| - 1]))
    else if IsDigits(t) then a.(count := Min(DigitsValue(t), MaxHistoryCount))
    else a
  }

  /** The loop of `parseHistoryArgs` run over `ts` from the defaults. */
  function ApplyTokens(ts: seq<string>): (a: HistoryArgs)
    ensures a.count <= MaxHistoryCount
  {
    if |ts| == 0 then DefaultHistoryArgs else ApplyToken(ApplyTokens(ts[..|ts| - 1]), ts[|ts| - 1])
  }

  /** What `parseHistoryArgs` returns for `argsStr`. */
  function HistoryArgsOf(argsStr: string): HistoryArgs {
    ApplyTokens(Tokens(Trim(argsStr)))
  }

  /** `parseHistoryArgs`: the defaults, then every token of the trimmed text in turn. */
  method ParseHistoryArgs(argsStr: string) returns (r: HistoryArgs)
    ensures r == HistoryArgsOf(argsStr)
    ensures r.count <= MaxHistoryCount
  {
    var args := Trim(argsStr);
    var count: nat := 10;
    var channelId: Option<string> := None;
    var offset: nat := 0;
    if args == "" {
      return HistoryArgs(count, channelId, offset);
    }
    var tokens := Tokens(args);
    for i := 0 to |tokens|
      invariant HistoryArgs(count, channelId, offset) == ApplyTokens(tokens[..i])
    {
      var token := tokens[i];
      assert tokens[..i + 1][..i] == tokens[..i];
      if OffsetToken(token) {
        offset := DigitsValue(token[7..]);
      } else if ChannelToken(token) {
        channelId := Some(token[2..|token| - 1]);
      } else if IsDigits(token) {
        count := Min(DigitsValue(token), MaxHistoryCount);
      }
    }
    assert tokens[..|tokens|] == tokens;
    r := HistoryArgs(count, channelId, offset);
  }

  /** `parseLine`: the recognisers in the code's order, the first match wins, text otherwise. */
  function ParseLine(line: string, graphemes: string -> seq<string>): (r: ParsedLine)
    ensures r.Text? <==> NoRecogniser(line)
    ensures r.Text? ==> r.content == line
    ensures !r.DiscordSend? && !r.DiscordSendto?
  {
    if MatchNop(line) then DiscordNop
    else if MatchReaction(line).Some? then
      var (id, dash, e) := MatchReaction(line).value;
      DiscordReaction(id, Trim(e), dash)
    else if MatchHistory(line).Some? then
      var a := HistoryArgsOf(MatchHistory(line).value);
      DiscordHistory(a.count, a.channelId, a.offset)
    else if MatchDelete(line).Some? then DiscordDelete(MatchDelete(line).value)
    else if MatchExec(line).Some? then DiscordExec(MatchExec(line).value)
    else if MatchMedia(line).Some? then Media(Trim(MatchMedia(line).value))
    else if MatchReactions(line).Some? then Reactions(SplitEmojis(MatchReactions(line).value, graphemes))
    else Text(line)
  }

  /** `parseResponseText`: one parsed line per `\n`-separated segment, in order. */
  function ParseResponseText(text: string, graphemes: string -> seq<string>): (r: seq<ParsedLine>)
    ensures |r| == |Split(text, '\n')| == Count(text, '\n') + 1
    ensures forall i :: 0 <= i < |r| ==> r[i] == ParseLine(Split(text, '\n')[i], graphemes)
  {
    var lines := Split(text, '\n');
    SplitCount(text, '\n');
    seq(|lines|, i requires 0 <= i < |lines| => ParseLine(lines[i], graphemes))
  }

  // ---------------------------------------------------------------------------------------
  // The prefix `!discord` + white space + verb

  lemma AfterVerbOf(ws: string, verb: string, rest: string)
    requires |ws| > 0 && AllSpace(ws)
    requires |verb| > 0 && !IsSpace(verb[0])
    ensures AfterVerb(Prefix + ws + verb + rest, verb) == Some(rest)
  {
    var line := Prefix + ws + verb + rest;
    assert line[..8] == Prefix;
    assert line[8..] == ws + (verb + rest);
    LeadingSpacesAppend(ws, verb + rest);
    assert (ws + (verb + rest))[|ws|..] == verb + rest;
  }

  /** A line that matches `!discord\s+<verb>` is the prefix, white space, the verb and the rest. */
  lemma AfterVerbShape(line: string, verb: string)
    requires |verb| > 0 && !IsSpace(verb[0])
    requires AfterVerb(line, verb).Some?
    ensures exists ws :: |ws| > 0 && AllSpace(ws) && line == Prefix + ws + verb + AfterVerb(line, verb).value
  {
    var s := line[8..];
    var k := LeadingSpaces(s);
    assert line == Prefix + s[..k] + verb + s[k + |verb|..];
  }

  /** Two verbs that begin differently never both follow the prefix. */
  lemma VerbsExclusive(line: string, v1: string, v2: string)
    requires |v1| > 0 && !IsSpace(v1[0]) && |v2| > 0 && !IsSpace(v2[0])
    requires AfterVerb(line, v1).Some? && AfterVerb(line, v2).Some?
    ensures v1[0] == v2[0]
  {
    var s := line[8..];
    var k := LeadingSpaces(s);
    assert s[k..][..|v1|][0] == s[k] == s[k..][..|v2|][0];
  }

  /** The character after `!discord` and its white space run, when there is one. */
  function VerbStart(line: string): Option<char> {
    if !StartsWith(line, Prefix) then None
    else
      var s := line[8..];
      var k := LeadingSpaces(s);
      if k == 0 || k == |s| then None else Some(s[k])
  }

  lemma AfterVerbStart(line: string, verb: string)
    requires |verb| > 0 && !IsSpace(verb[0])
    requires AfterVerb(line, verb).Some?
    ensures VerbStart(line) == Some(verb[0])
  {
    var s := line[8..];
    var k := LeadingSpaces(s);
    assert s[k..][..|verb|][0] == s[k];
  }

  lemma MatcherStartsCommands(line: string)
    ensures MatchNop(line) ==> VerbStart(line) == Some('n')
    ensures MatchReaction(line).Some? ==> VerbStart(line) == Some('r')
    ensures MatchHistory(line).Some? ==> VerbStart(line) == Some('h')
    ensures MatchDelete(line).Some? ==> VerbStart(line) == Some('d')
    ensures MatchExec(line).Some? ==> VerbStart(line) == Some('e')
  {
    if AfterVerb(line, "nop").Some? { AfterVerbStart(line, "nop"); }
    if AfterVerb(line, "reaction").Some? { AfterVerbStart(line, "reaction"); }
    if AfterVerb(line, "history").Some? { AfterVerbStart(line, "history"); }
    if AfterVerb(line, "delete").Some? { AfterVerbStart(line, "delete"); }
    if AfterVerb(line, "exec").Some? { AfterVerbStart(line, "exec"); }
  }

  lemma MatcherStartsPrefixes(line: string)
    ensures MatchMedia(line).Some? || MatchReactions(line).Some? ==> VerbStart(line) == None
    ensures MatchMedia(line).None? || MatchReactions(line).None?
  {
    if StartsWith(line, "media:") {
      assert line[..6][0] == 'm';
      NotStartsWith(line, Prefix);
      NotStartsWith(line, "reactions:");
    }
    if StartsWith(line, "reactions:") {
      assert line[..10][0] == 'r';
      NotStartsWith(line, Prefix);
    }
  }

  lemma MatcherStarts(line: string)
    ensures MatchNop(line) ==> VerbStart(line) == Some('n')
    ensures MatchReaction(line).Some? ==> VerbStart(line) == Some('r')
    ensures MatchHistory(line).Some? ==> VerbStart(line) == Some('h')
    ensures MatchDelete(line).Some? ==> VerbStart(line) == Some('d')
    ensures MatchExec(line).Some? ==> VerbStart(line) == Some('e')
    ensures MatchMedia(line).Some? || MatchReactions(line).Some? ==> VerbStart(line) == None
    ensures MatchMedia(line).None? || MatchReactions(line).None?
  {
    MatcherStartsCommands(line);
    MatcherStartsPrefixes(line);
  }

  function Matches(line: string): nat {
    (if MatchNop(line) then 1 else 0) + (if MatchReaction(line).Some? then 1 else 0)
    + (if MatchHistory(line).Some? then 1 else 0) + (if MatchDelete(line).Some? then 1 else 0)
    + (if MatchExec(line).Some? then 1 else 0) + (if MatchMedia(line).Some? then 1 else 0)
    + (if MatchReactions(line).Some? then 1 else 0)
  }

  /** No line matches two recognisers, so the order in which `parseLine` tries them never
      changes which directive a line yields. */
  lemma RecognisersExclusive(line: string)
    ensures Matches(line) <= 1
  {
    MatcherStarts(line);
  }

  /** A verb after the prefix rules out every verb that begins with another letter. */
  lemma AfterVerbOther(ws: string, verb: string, rest: string, other: string)
    requires |ws| > 0 && AllSpace(ws)
    requires |verb| > 0 && !IsSpace(verb[0]) && |other| > 0 && !IsSpace(other[0])
    requires verb[0] != other[0]
    ensures AfterVerb(Prefix + ws + verb + rest, other).None?
  {
    AfterVerbOf(ws, verb, rest);
    if AfterVerb(Prefix + ws + verb + rest, other).Some? {
      VerbsExclusive(Prefix + ws + verb + rest, verb, other);
    }
  }

  /** NOP_RE accepts exactly the prefix, white space and `nop`. */
  lemma NopLanguage(line: string)
    ensures MatchNop(line) <==> exists ws :: |ws| > 0 && AllSpace(ws) && line == Prefix + ws + "nop"
  {
    if MatchNop(line) {
      AfterVerbShape(line, "nop");
      assert line == Prefix + line[8..][..LeadingSpaces(line[8..])] + "nop" + "";
    }
    if ws :| |ws| > 0 && AllSpace(ws) && line == Prefix + ws + "nop" {
      AfterVerbOf(ws, "nop", "");
      assert Prefix + ws + "nop" + "" == line;
    }
  }

  /** Every line made of the prefix, white space and `history` is a history command, whatever
      follows, as long as no line terminator does. */
  lemma HistoryWhateverFollows(ws: string, rest: string, graphemes: string -> seq<string>)
    requires |ws| > 0 && AllSpace(ws) && NoLineTerminator(rest)
    ensures var a := HistoryArgsOf(rest);
            ParseLine(Prefix + ws + "history" + rest, graphemes) == DiscordHistory(a.count, a.channelId, a.offset)
  {
    AfterVerbOf(ws, "history", rest);
    AfterVerbOther(ws, "history", rest, "nop");
    AfterVerbOther(ws, "history", rest, "reaction");
  }

  lemma SpaceDashRestOf(ws: string, dash: bool, e: string)
    requires |ws| > 0 && AllSpace(ws)
    requires |e| > 0 && NoLineTerminator(e)
    requires !dash ==> !IsSpace(e[0]) && (e[0] == '-' ==> |e| == 1)
    ensures SpaceDashRest(ws + ((if dash then "-" else "") + e)) == Some((dash, e))
  {
    var d := if dash then "-" else "";
    assert (d + e)[0] == (if dash then '-' else e[0]);
    SpacesThen(ws, d + e);
    if dash {
      assert (d + e)[1..] == e;
    }
  }

  lemma DigitsThenSpace(id: string, u: string)
    requires IsDigits(id) && |u| > 0 && IsSpace(u[0])
    ensures LeadingDigits(id + u) == |id|
    ensures (id + u)[..|id|] == id && (id + u)[|id|..] == u
  {
    LeadingDigitsAppend(id, u);
  }

  lemma SpacesThen(ws: string, t: string)
    requires |ws| > 0 && AllSpace(ws) && |t| > 0 && !IsSpace(t[0])
    ensures LeadingSpaces(ws + t) == |ws| && (ws + t)[|ws|..] == t
  {
    LeadingSpacesAppend(ws, t);
  }

  lemma ReactionArgsSplit(ws2: string, id: string, u: string)
    requires |ws2| > 0 && AllSpace(ws2)
    requires IsDigits(id) && |u| > 0 && IsSpace(u[0])
    requires SpaceDashRest(u).Some?
    ensures ReactionArgs(ws2 + (id + u)) == Some((id, SpaceDashRest(u).value.0, SpaceDashRest(u).value.1))
  {
    assert (id + u)[0] == id[0];
    SpacesThen(ws2, id + u);
    DigitsThenSpace(id, u);
  }

  lemma ReactionArgsOf(ws2: string, id: string, ws3: string, dash: bool, e: string)
    requires |ws2| > 0 && AllSpace(ws2) && |ws3| > 0 && AllSpace(ws3)
    requires IsDigits(id)
    requires |e| > 0 && NoLineTerminator(e)
    requires !dash ==> !IsSpace(e[0]) && (e[0] == '-' ==> |e| == 1)
    ensures ReactionArgs(ws2 + (id + (ws3 + ((if dash then "-" else "") + e)))) == Some((id, dash, e))
  {
    var d := if dash then "-" else "";
    var u := ws3 + (d + e);
    SpaceDashRestOf(ws3, dash, e);
    assert u[0] == ws3[0];
    ReactionArgsSplit(ws2, id, u);
  }

  lemma MatchReactionOf(ws1: string, ws2: string, id: string, ws3: string, dash: bool, e: string)
    requires |ws1| > 0 && AllSpace(ws1) && |ws2| > 0 && AllSpace(ws2) && |ws3| > 0 && AllSpace(ws3)
    requires IsDigits(id)
    requires |e| > 0 && NoLineTerminator(e)
    requires !dash ==> !IsSpace(e[0]) && (e[0] == '-' ==> |e| == 1)
    ensures var line := Prefix + ws1 + "reaction" + ws2 + id + ws3 + (if dash then "-" else "") + e;
            MatchReaction(line) == Some((id, dash, e)) && !MatchNop(line)
  {
    var d := if dash then "-" else "";
    var r := ws2 + (id + (ws3 + (d + e)));
    var line := Prefix + ws1 + "reaction" + ws2 + id + ws3 + d + e;
    assert line == Prefix + ws1 + "reaction" + r;
    AfterVerbOf(ws1, "reaction", r);
    AfterVerbOther(ws1, "reaction", r, "nop");
    ReactionArgsOf(ws2, id, ws3, dash, e);
  }

  /** The reaction command: the digit run is the message id, the emoji is trimmed and `remove`
      holds exactly when a `-` stands before it. */
  lemma ReactionLine(ws1: string, ws2: string, id: string, ws3: string, dash: bool, e: string,
                     graphemes: string -> seq<string>)
    requires |ws1| > 0 && AllSpace(ws1) && |ws2| > 0 && AllSpace(ws2) && |ws3| > 0 && AllSpace(ws3)
    requires IsDigits(id)
    requires |e| > 0 && NoLineTerminator(e)
    requires !dash ==> !IsSpace(e[0]) && (e[0] == '-' ==> |e| == 1)
    ensures ParseLine(Prefix + ws1 + "reaction" + ws2 + id + ws3 + (if dash then "-" else "") + e, graphemes)
            == DiscordReaction(id, Trim(e), dash)
  {
    MatchReactionOf(ws1, ws2, id, ws3, dash, e);
  }

  /** The prefix, white space, a verb other than nop, reaction and history: the first three
      recognisers fail. */
  lemma NotEarlierCommand(ws1: string, verb: string, rest: string)
    requires |ws1| > 0 && AllSpace(ws1)
    requires |verb| > 0 && verb[0] in "de"
    ensures var line := Prefix + ws1 + verb + rest;
            !MatchNop(line) && MatchReaction(line).None? && MatchHistory(line).None?
  {
    AfterVerbOther(ws1, verb, rest, "nop");
    AfterVerbOther(ws1, verb, rest, "reaction");
    AfterVerbOther(ws1, verb, rest, "history");
  }

  lemma MatchDeleteDigits(ws1: string, ws2: string, id: string)
    requires |ws1| > 0 && AllSpace(ws1) && |ws2| > 0 && AllSpace(ws2) && IsDigits(id)
    ensures MatchDelete(Prefix + ws1 + "delete" + ws2 + id) == Some(id)
  {
    var line := Prefix + ws1 + "delete" + ws2 + id;
    assert line == Prefix + ws1 + "delete" + (ws2 + id);
    AfterVerbOf(ws1, "delete", ws2 + id);
    SpacesThen(ws2, id);
    NotStartsWith(id, LinkPrefix);
  }

  /** DELETE_RE with a bare id. */
  lemma DeleteDigits(ws1: string, ws2: string, id: string, graphemes: string -> seq<string>)
    requires |ws1| > 0 && AllSpace(ws1) && |ws2| > 0 && AllSpace(ws2) && IsDigits(id)
    ensures ParseLine(Prefix + ws1 + "delete" + ws2 + id, graphemes) == DiscordDelete(id)
  {
    assert Prefix + ws1 + "delete" + ws2 + id == Prefix + ws1 + "delete" + (ws2 + id);
    NotEarlierCommand(ws1, "delete", ws2 + id);
    MatchDeleteDigits(ws1, ws2, id);
  }

  lemma LinkIdsOf(a: string, b: string, c: string)
    requires IsDigits(a) && IsDigits(b) && IsDigits(c)
    ensures LinkIds(a + ("/" + (b + ("/" + c)))) == Some(c)
  {
    LeadingDigitsAppend(a, "/" + (b + ("/" + c)));
    assert (a + ("/" + (b + ("/" + c))))[|a| + 1..] == b + ("/" + c);
    LeadingDigitsAppend(b, "/" + c);
    assert (b + ("/" + c))[|b| + 1..] == c;
  }

  lemma DeleteTargetLink(a: string, b: string, c: string)
    requires IsDigits(a) && IsDigits(b) && IsDigits(c)
    ensures DeleteTarget(LinkPrefix + (a + ("/" + (b + ("/" + c))))) == Some(c)
  {
    var u := a + ("/" + (b + ("/" + c)));
    assert (LinkPrefix + u)[..|LinkPrefix|] == LinkPrefix;
    assert (LinkPrefix + u)[|LinkPrefix|..] == u;
    LinkIdsOf(a, b, c);
  }

  lemma MatchDeleteLink(ws1: string, ws2: string, a: string, b: string, c: string)
    requires |ws1| > 0 && AllSpace(ws1) && |ws2| > 0 && AllSpace(ws2)
    requires IsDigits(a) && IsDigits(b) && IsDigits(c)
    ensures MatchDelete(Prefix + ws1 + "delete" + ws2 + LinkPrefix + a + "/" + b + "/" + c) == Some(c)
  {
    var t := LinkPrefix + (a + ("/" + (b + ("/" + c))));
    var line := Prefix + ws1 + "delete" + ws2 + LinkPrefix + a + "/" + b + "/" + c;
    assert line == Prefix + ws1 + "delete" + (ws2 + t);
    AfterVerbOf(ws1, "delete", ws2 + t);
    assert t[0] == 'h';
    SpacesThen(ws2, t);
    DeleteTargetLink(a, b, c);
  }

  /** DELETE_RE with a message link `https://discord.com/channels/A/B/C` yields `C`. */
  lemma DeleteLink(ws1: string, ws2: string, a: string, b: string, c: string, graphemes: string -> seq<string>)
    requires |ws1| > 0 && AllSpace(ws1) && |ws2| > 0 && AllSpace(ws2)
    requires IsDigits(a) && IsDigits(b) && IsDigits(c)
    ensures ParseLine(Prefix + ws1 + "delete" + ws2 + LinkPrefix + a + "/" + b + "/" + c, graphemes)
            == DiscordDelete(c)
  {
    var t := LinkPrefix + a + "/" + b + "/" + c;
    assert Prefix + ws1 + "delete" + ws2 + LinkPrefix + a + "/" + b + "/" + c
        == Prefix + ws1 + "delete" + (ws2 + t);
    NotEarlierCommand(ws1, "delete", ws2 + t);
    MatchDeleteLink(ws1, ws2, a, b, c);
  }

  lemma MatchExecDigits(ws1: string, ws2: string, id: string)
    requires |ws1| > 0 && AllSpace(ws1) && |ws2| > 0 && AllSpace(ws2) && IsDigits(id)
    ensures MatchExec(Prefix + ws1 + "exec" + ws2 + id) == Some(id)
    ensures MatchDelete(Prefix + ws1 + "exec" + ws2 + id).None?
  {
    var line := Prefix + ws1 + "exec" + ws2 + id;
    assert line == Prefix + ws1 + "exec" + (ws2 + id);
    AfterVerbOf(ws1, "exec", ws2 + id);
    AfterVerbOther(ws1, "exec", ws2 + id, "delete");
    SpacesThen(ws2, id);
  }

  /** EXEC_RE accepts a digit id. */
  lemma ExecDigits(ws1: string, ws2: string, id: string, graphemes: string -> seq<string>)
    requires |ws1| > 0 && AllSpace(ws1) && |ws2| > 0 && AllSpace(ws2) && IsDigits(id)
    ensures ParseLine(Prefix + ws1 + "exec" + ws2 + id, graphemes) == DiscordExec(id)
  {
    assert Prefix + ws1 + "exec" + ws2 + id == Prefix + ws1 + "exec" + (ws2 + id);
    NotEarlierCommand(ws1, "exec", ws2 + id);
    MatchExecDigits(ws1, ws2, id);
  }

  /** Delete and exec ids are always digit strings; an exec command never takes a link. */
  lemma IdsAreDigits(line: string, graphemes: string -> seq<string>)
    ensures ParseLine(line, graphemes).DiscordExec? ==> IsDigits(ParseLine(line, graphemes).messageId)
    ensures ParseLine(line, graphemes).DiscordDelete? ==> IsDigits(ParseLine(line, graphemes).messageId)
  {
  }

  /** `(.+)` after at least one white space character, whatever the greedy run gives back. */
  lemma SpaceThenRestExists(s: string, j: nat)
    requires 1 <= j < |s| && AllSpace(s[..j]) && NoLineTerminator(s[j..])
    ensures SpaceThenRest(s).Some?
  {
    LeadingSpacesAtLeast(s, j);
    var k := LeadingSpaces(s);
    var j' := if k < |s| then k else |s| - 1;
    assert forall i :: 0 <= i < |s[j'..]| ==> s[j'..][i] == s[j..][i + j' - j];
  }

  /** The capture of `\s+(.+)$` trims to the trimmed text. */
  lemma SpaceThenRestTrim(s: string)
    requires SpaceThenRest(s).Some?
    ensures Trim(SpaceThenRest(s).value) == Trim(s)
  {
    var k := LeadingSpaces(s);
    var j := if k < |s| then k else |s| - 1;
    assert s == s[..j] + s[j..];
    assert AllSpace(s[..j]) by { assert forall i :: 0 <= i < j ==> s[..j][i] == s[..k][i]; }
    TrimSpacePrefix(s[..j], s[j..]);
  }

  /** A line that does not start with `!discord` matches none of the commands. */
  lemma NoCommand(line: string)
    requires |line| > 0 && line[0] != '!'
    ensures !MatchNop(line) && MatchReaction(line).None? && MatchHistory(line).None?
    ensures MatchDelete(line).None? && MatchExec(line).None?
  {
    assert !StartsWith(line, Prefix) by { assert line[0] != Prefix[0]; }
  }

  lemma MatchMediaOf(ws: string, path: string)
    requires |ws| > 0 && AllSpace(ws) && |path| > 0 && NoLineTerminator(path)
    ensures MatchMedia("media:" + ws + path).Some?
    ensures Trim(MatchMedia("media:" + ws + path).value) == Trim(path)
  {
    var line := "media:" + ws + path;
    assert line[..6] == "media:";
    var s := line[6..];
    assert s == ws + path;
    assert s[..|ws|] == ws && s[|ws|..] == path;
    SpaceThenRestExists(s, |ws|);
    SpaceThenRestTrim(s);
    TrimSpacePrefix(ws, path);
  }

  /** `media:` + white space + a path yields the trimmed path. */
  lemma MediaLine(ws: string, path: string, graphemes: string -> seq<string>)
    requires |ws| > 0 && AllSpace(ws) && |path| > 0 && NoLineTerminator(path)
    ensures ParseLine("media:" + ws + path, graphemes) == Media(Trim(path))
  {
    NoCommand("media:" + ws + path);
    MatchMediaOf(ws, path);
  }

  /** `reactions:` + white space + a payload yields the payload's non-blank grapheme clusters. */
  lemma ReactionsLine(ws: string, payload: string, graphemes: string -> seq<string>)
    requires |ws| > 0 && AllSpace(ws) && |payload| > 0 && NoLineTerminator(payload) && !IsSpace(payload[0])
    ensures ParseLine("reactions:" + ws + payload, graphemes) == Reactions(KeepNonBlank(graphemes(payload)))
  {
    var line := "reactions:" + ws + payload;
    NoCommand(line);
    assert line[..10] == "reactions:";
    var s := line[10..];
    assert s == ws + payload;
    LeadingSpacesAppend(ws, payload);
    assert s[|ws|..] == payload;
    assert !StartsWith(line, "media:") by { assert line[0] != 'm'; }
  }

  /** Filtering commutes with concatenation: blank segments are dropped where they stand. */
  lemma {:induction false} KeepNonBlankAppend(a: seq<string>, b: seq<string>)
    ensures KeepNonBlank(a + b) == KeepNonBlank(a) + KeepNonBlank(b)
    decreases |a|
  {
    if |a| == 0 {
      assert a + b == b;
    } else {
      assert (a + b)[0] == a[0];
      assert (a + b)[1..] == a[1..] + b;
      KeepNonBlankAppend(a[1..], b);
    }
  }

  /** Grapheme clusters that are all non-blank are all kept, in their order. */
  lemma {:induction false} KeepNonBlankAll(segments: seq<string>)
    requires forall i :: 0 <= i < |segments| ==> !IsBlank(segments[i])
    ensures KeepNonBlank(segments) == segments
  {
    if |segments| > 0 {
      KeepNonBlankAll(segments[1..]);
      assert [segments[0]] + segments[1..] == segments;
    }
  }

  // ---------------------------------------------------------------------------------------
  // History arguments

  /** A blank argument text gives count 10, no channel and offset 0. */
  lemma BlankHistoryArgs(argsStr: string)
    requires IsBlank(argsStr)
    ensures HistoryArgsOf(argsStr) == HistoryArgs(10, None, 0)
  {
  }

  /** A token that is not offset, channel or count changes nothing. */
  lemma IgnoredToken(ts: seq<string>, t: string)
    requires !OffsetToken(t) && !ChannelToken(t) && !IsDigits(t)
    ensures ApplyTokens(ts + [t]) == ApplyTokens(ts)
  {
    assert (ts + [t])[..|ts|] == ts;
  }

  /** The count is set by the last bare number, capped at 100. */
  lemma {:induction false} LastCountWins(ts: seq<string>, i: nat)
    requires i < |ts| && IsDigits(ts[i])
    requires forall j :: i < j < |ts| ==> !IsDigits(ts[j])
    ensures ApplyTokens(ts).count == Min(DigitsValue(ts[i]), 100)
  {
    var n := |ts|;
    assert !OffsetToken(ts[i]) && !ChannelToken(ts[i]) by { assert ts[i][0] != 'o' && ts[i][0] != '<'; }
    if i < n - 1 {
      var init := ts[..n - 1];
      LastCountWins(init, i);
    }
  }

  /** Without a bare number the count stays 10. */
  lemma {:induction false} NoCountToken(ts: seq<string>)
    requires forall j :: 0 <= j < |ts| ==> !IsDigits(ts[j])
    ensures ApplyTokens(ts).count == 10
  {
    if |ts| > 0 {
      NoCountToken(ts[..|ts| - 1]);
    }
  }

  /** The offset is set by the last `offset:N` token. */
  lemma {:induction false} LastOffsetWins(ts: seq<string>, i: nat)
    requires i < |ts| && OffsetToken(ts[i])
    requires forall j :: i < j < |ts| ==> !OffsetToken(ts[j])
    ensures ApplyTokens(ts).offset == DigitsValue(ts[i][7..])
  {
    if i < |ts| - 1 {
      LastOffsetWins(ts[..|ts| - 1], i);
    }
  }

  /** Without an `offset:N` token the offset stays 0. */
  lemma {:induction false} NoOffsetToken(ts: seq<string>)
    requires forall j :: 0 <= j < |ts| ==> !OffsetToken(ts[j])
    ensures ApplyTokens(ts).offset == 0
  {
    if |ts| > 0 {
      NoOffsetToken(ts[..|ts| - 1]);
    }
  }

  /** The channel is set by the last `<#N>` token. */
  lemma {:induction false} LastChannelWins(ts: seq<string>, i: nat)
    requires i < |ts| && ChannelToken(ts[i])
    requires forall j :: i < j < |ts| ==> !ChannelToken(ts[j])
    ensures ApplyTokens(ts).channelId == Some(ts[i][2..|ts[i]| - 1])
  {
    assert !OffsetToken(ts[i]) by { assert ts[i][0] != 'o'; }
    if i < |ts| - 1 {
      LastChannelWins(ts[..|ts| - 1], i);
    }
  }

  /** Without a `<#N>` token there is no channel. */
  lemma {:induction false} NoChannelToken(ts: seq<string>)
    requires forall j :: 0 <= j < |ts| ==> !ChannelToken(ts[j])
    ensures ApplyTokens(ts).channelId == None
  {
    if |ts| > 0 {
      NoChannelToken(ts[..|ts| - 1]);
    }
  }
}
