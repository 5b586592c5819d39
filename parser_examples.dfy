/** The parser's documented examples, each derived from the general lemmas about `parseLine`.
    Each example first splits its literal line into the pieces the general lemma takes (the
    `...Pieces` lemmas, which only compare strings), then applies that lemma. */
module ResponseLineParserExamples {
  import opened Common
  import opened ResponseLineParser

  /** A text without `\n` is one line. */
  lemma OneLine(text: string, graphemes: string -> seq<string>)
    requires '\n' !in text
    ensures ParseResponseText(text, graphemes) == [ParseLine(text, graphemes)]
  {
    SplitNoSeparator(text, '\n');
  }

  lemma NopLine(line: string, graphemes: string -> seq<string>)
    requires line == "!discord nop"
    ensures ParseLine(line, graphemes) == DiscordNop
  {
    var ws, empty := " ", "";
    AfterVerbOf(ws, "nop", empty);
    assert line == Prefix + ws + "nop" + empty;
  }

  lemma NopExample(text: string, graphemes: string -> seq<string>)
    requires text == "!discord nop"
    ensures ParseResponseText(text, graphemes) == [DiscordNop]
  {
    OneLine(text, graphemes);
    NopLine(text, graphemes);
  }

  lemma ReactionAddPieces(line: string, ws: string, id: string, dash: string, e: string)
    requires ws == " " && id == "123456789" && dash == "" && e == "\U{1F44D}"
    requires line == "!discord reaction 123456789 \U{1F44D}"
    ensures line == Prefix + ws + "reaction" + ws + id + ws + dash + e
  {
  }

  lemma ReactionRemovePieces(line: string, ws: string, id: string, dash: string, e: string)
    requires ws == " " && id == "123456789" && dash == "-" && e == "\U{1F440}"
    requires line == "!discord reaction 123456789 -\U{1F440}"
    ensures line == Prefix + ws + "reaction" + ws + id + ws + dash + e
  {
  }

  /** The separator, the message id and the emoji of both reaction examples. */
  lemma ReactionArgs(ws: string, id: string, e: string)
    requires ws == " " && id == "123456789" && (e == "\U{1F44D}" || e == "\U{1F440}")
    ensures |ws| > 0 && AllSpace(ws) && IsDigits(id)
    ensures |e| > 0 && NoLineTerminator(e) && !IsSpace(e[0]) && e[0] != '-' && Trim(e) == e
  {
    TrimUnchanged(e);
  }

  lemma ReactionAddLine(line: string, graphemes: string -> seq<string>)
    requires line == "!discord reaction 123456789 \U{1F44D}"
    ensures ParseLine(line, graphemes) == DiscordReaction("123456789", "\U{1F44D}", false)
  {
    var ws, id, dash, e := " ", "123456789", "", "\U{1F44D}";
    ReactionAddPieces(line, ws, id, dash, e);
    ReactionArgs(ws, id, e);
    ReactionLine(ws, ws, id, ws, false, e, graphemes);
  }

  lemma ReactionAddExample(text: string, graphemes: string -> seq<string>)
    requires text == "!discord reaction 123456789 \U{1F44D}"
    ensures ParseResponseText(text, graphemes) == [DiscordReaction("123456789", "\U{1F44D}", false)]
  {
    OneLine(text, graphemes);
    ReactionAddLine(text, graphemes);
  }

  lemma ReactionRemoveLine(line: string, graphemes: string -> seq<string>)
    requires line == "!discord reaction 123456789 -\U{1F440}"
    ensures ParseLine(line, graphemes) == DiscordReaction("123456789", "\U{1F440}", true)
  {
    var ws, id, dash, e := " ", "123456789", "-", "\U{1F440}";
    ReactionRemovePieces(line, ws, id, dash, e);
    ReactionArgs(ws, id, e);
    ReactionLine(ws, ws, id, ws, true, e, graphemes);
  }

  lemma ReactionRemoveExample(text: string, graphemes: string -> seq<string>)
    requires text == "!discord reaction 123456789 -\U{1F440}"
    ensures ParseResponseText(text, graphemes) == [DiscordReaction("123456789", "\U{1F440}", true)]
  {
    OneLine(text, graphemes);
    ReactionRemoveLine(text, graphemes);
  }

  lemma HistoryPieces(line: string, ws: string, n: string, o: string)
    requires ws == " " && n == "20" && o == "offset:10" && line == "!discord history 20 offset:10"
    ensures line == Prefix + ws + "history" + (ws + (n + (ws + (o + ""))))
    ensures o[7..] == "10"
  {
  }

  lemma HistoryTrim(ws: string, u: string)
    requires ws == " " && u == "20 offset:10"
    ensures Trim(ws + u) == u
  {
    assert u[0] == '2' && u[|u| - 1] == '0';
    DigitNotSpace(u[0]);
    DigitNotSpace(u[|u| - 1]);
    TrimAfterSpace(ws, u);
  }

  lemma HistoryTokenPieces(n: string, o: string)
    requires n == "20" && o == "offset:10"
    ensures IsToken(n) && IsToken(o)
  {
  }

  /** Two tokens with white space between them. */
  lemma TwoTokens(ws: string, a: string, b: string)
    requires |ws| > 0 && AllSpace(ws) && IsToken(a) && IsToken(b)
    ensures Tokens(a + (ws + b)) == [a, b]
  {
    assert (ws + b)[0] == ws[0];
    TokensCons(a, ws + b);
    TokensSpacePrefix(ws, b);
    TokensCons(b, "");
    assert b + "" == b;
  }

  /** `20 offset:10` splits into a count token and an offset token. */
  lemma HistoryTokens(ws: string, n: string, o: string)
    requires ws == " " && n == "20" && o == "offset:10"
    ensures Tokens(Trim(ws + (n + (ws + (o + ""))))) == [n, o]
  {
    var u := n + (ws + o);
    assert o + "" == o;
    HistoryTrim(ws, u);
    HistoryTokenPieces(n, o);
    TwoTokens(ws, n, o);
  }

  /** A decimal literal reads back as its number. */
  lemma DecimalValue(s: string, n: nat)
    requires s == NatToString(n)
    ensures DigitsValue(s) == n
  {
    NatToStringValue(n);
  }

  lemma CountToken(n: string)
    requires n == "20"
    ensures ApplyTokens([n]) == HistoryArgs(20, None, 0)
  {
    assert [n][..0] == [];
    assert !OffsetToken(n) by { NotStartsWith(n, "offset:"); }
    assert !ChannelToken(n) && IsDigits(n);
    assert n == NatToString(20);
    DecimalValue(n, 20);
    assert ApplyTokens([n]) == ApplyToken(DefaultHistoryArgs, n);
  }

  lemma OffsetTokenValue(o: string)
    requires o == "offset:10"
    ensures OffsetToken(o) && DigitsValue(o[7..]) == 10
  {
    assert o[..7] == "offset:";
    assert o[7..] == NatToString(10);
    DecimalValue(o[7..], 10);
  }

  lemma HistoryArgsPieces(ws: string, n: string, o: string)
    requires ws == " " && n == "20" && o == "offset:10"
    ensures HistoryArgsOf(ws + (n + (ws + (o + "")))) == HistoryArgs(20, None, 10)
  {
    HistoryTokens(ws, n, o);
    var ts := [n, o];
    assert ts[..1] == [n];
    CountToken(n);
    OffsetTokenValue(o);
  }

  lemma HistoryLine(line: string, graphemes: string -> seq<string>)
    requires line == "!discord history 20 offset:10"
    ensures ParseLine(line, graphemes) == DiscordHistory(20, None, 10)
  {
    var ws, n, o := " ", "20", "offset:10";
    HistoryPieces(line, ws, n, o);
    HistoryWhateverFollows(ws, ws + (n + (ws + (o + ""))), graphemes);
    HistoryArgsPieces(ws, n, o);
  }

  lemma HistoryExample(text: string, graphemes: string -> seq<string>)
    requires text == "!discord history 20 offset:10"
    ensures ParseResponseText(text, graphemes) == [DiscordHistory(20, None, 10)]
  {
    OneLine(text, graphemes);
    HistoryLine(text, graphemes);
  }

  lemma CapToken(n: string)
    requires n == "500"
    ensures ApplyTokens([n]) == HistoryArgs(100, None, 0)
  {
    assert [n][..0] == [];
    assert !OffsetToken(n) by { NotStartsWith(n, "offset:"); }
    assert !ChannelToken(n) by { assert n[..2][0] == '5'; }
    assert IsDigits(n);
    assert n == NatToString(500);
    DecimalValue(n, 500);
    assert ApplyTokens([n]) == ApplyToken(DefaultHistoryArgs, n);
  }

  lemma HistoryCapTrim(ws: string, u: string)
    requires ws == " " && u == "500"
    ensures Trim(ws + u) == u
  {
    assert u[0] == '5' && u[|u| - 1] == '0';
    DigitNotSpace(u[0]);
    DigitNotSpace(u[|u| - 1]);
    TrimAfterSpace(ws, u);
  }

  lemma HistoryCapArgs(ws: string, n: string)
    requires ws == " " && n == "500"
    ensures HistoryArgsOf(ws + (n + "")) == HistoryArgs(100, None, 0)
  {
    var empty := "";
    assert n + empty == n;
    HistoryCapTrim(ws, n);
    assert IsToken(n);
    TokensCons(n, empty);
    CapToken(n);
  }

  /** A count above 100 is capped. */
  lemma HistoryCapLine(line: string, graphemes: string -> seq<string>)
    requires line == "!discord history 500"
    ensures ParseLine(line, graphemes) == DiscordHistory(100, None, 0)
  {
    var ws, n := " ", "500";
    var rest := ws + (n + "");
    assert line == Prefix + ws + "history" + rest;
    HistoryWhateverFollows(ws, rest, graphemes);
    HistoryCapArgs(ws, n);
  }

  lemma HistoryCapExample(text: string, graphemes: string -> seq<string>)
    requires text == "!discord history 500"
    ensures ParseResponseText(text, graphemes) == [DiscordHistory(100, None, 0)]
  {
    OneLine(text, graphemes);
    HistoryCapLine(text, graphemes);
  }

  lemma DeleteLine(line: string, graphemes: string -> seq<string>)
    requires line == "!discord delete 123456789"
    ensures ParseLine(line, graphemes) == DiscordDelete("123456789")
  {
    var ws, id := " ", "123456789";
    assert line == Prefix + ws + "delete" + ws + id;
    DeleteDigits(ws, ws, id, graphemes);
  }

  lemma DeleteExample(text: string, graphemes: string -> seq<string>)
    requires text == "!discord delete 123456789"
    ensures ParseResponseText(text, graphemes) == [DiscordDelete("123456789")]
  {
    OneLine(text, graphemes);
    DeleteLine(text, graphemes);
  }

  lemma ExecLine(line: string, graphemes: string -> seq<string>)
    requires line == "!discord exec 123456789"
    ensures ParseLine(line, graphemes) == DiscordExec("123456789")
  {
    var ws, id := " ", "123456789";
    assert line == Prefix + ws + "exec" + ws + id;
    ExecDigits(ws, ws, id, graphemes);
  }

  lemma ExecExample(text: string, graphemes: string -> seq<string>)
    requires text == "!discord exec 123456789"
    ensures ParseResponseText(text, graphemes) == [DiscordExec("123456789")]
  {
    OneLine(text, graphemes);
    ExecLine(text, graphemes);
  }

  lemma MediaPieces(line: string, ws: string, path: string)
    requires ws == " " && path == ".tmp/image.png" && line == "media: .tmp/image.png"
    ensures line == "media:" + ws + path
    ensures |path| > 0 && NoLineTerminator(path) && !IsSpace(path[0]) && !IsSpace(path[|path| - 1])
  {
  }

  lemma MediaLineExample(line: string, graphemes: string -> seq<string>)
    requires line == "media: .tmp/image.png"
    ensures ParseLine(line, graphemes) == Media(".tmp/image.png")
  {
    var ws, path := " ", ".tmp/image.png";
    MediaPieces(line, ws, path);
    MediaLine(ws, path, graphemes);
    TrimUnchanged(path);
  }

  lemma MediaExample(text: string, graphemes: string -> seq<string>)
    requires text == "media: .tmp/image.png"
    ensures ParseResponseText(text, graphemes) == [Media(".tmp/image.png")]
  {
    OneLine(text, graphemes);
    MediaLineExample(text, graphemes);
  }

  lemma ReactionsPieces(line: string, ws: string, payload: string)
    requires ws == " " && payload == "1\U{FE0F}\U{20E3}2\U{FE0F}\U{20E3}"
    requires line == "reactions: 1\U{FE0F}\U{20E3}2\U{FE0F}\U{20E3}"
    ensures line == "reactions:" + ws + payload
    ensures NoLineTerminator(payload) && !IsSpace(payload[0])
  {
  }

  /** With a segmentation that splits the keycap emoji into its two clusters. */
  lemma ReactionsLineExample(line: string, graphemes: string -> seq<string>)
    requires line == "reactions: 1\U{FE0F}\U{20E3}2\U{FE0F}\U{20E3}"
    requires graphemes("1\U{FE0F}\U{20E3}2\U{FE0F}\U{20E3}") == ["1\U{FE0F}\U{20E3}", "2\U{FE0F}\U{20E3}"]
    ensures ParseLine(line, graphemes) == Reactions(["1\U{FE0F}\U{20E3}", "2\U{FE0F}\U{20E3}"])
  {
    var ws, payload := " ", "1\U{FE0F}\U{20E3}2\U{FE0F}\U{20E3}";
    ReactionsPieces(line, ws, payload);
    ReactionsLine(ws, payload, graphemes);
    KeycapsKept(graphemes(payload));
  }

  lemma KeycapsKept(segments: seq<string>)
    requires segments == ["1\U{FE0F}\U{20E3}", "2\U{FE0F}\U{20E3}"]
    ensures KeepNonBlank(segments) == segments
  {
    assert segments[0][0] == '1' && segments[1][0] == '2';
    assert !IsBlank(segments[0]) && !IsBlank(segments[1]);
    KeepNonBlankAll(segments);
  }

  lemma ReactionsExample(text: string, graphemes: string -> seq<string>)
    requires text == "reactions: 1\U{FE0F}\U{20E3}2\U{FE0F}\U{20E3}"
    requires graphemes("1\U{FE0F}\U{20E3}2\U{FE0F}\U{20E3}") == ["1\U{FE0F}\U{20E3}", "2\U{FE0F}\U{20E3}"]
    ensures ParseResponseText(text, graphemes) == [Reactions(["1\U{FE0F}\U{20E3}", "2\U{FE0F}\U{20E3}"])]
  {
    OneLine(text, graphemes);
    ReactionsLineExample(text, graphemes);
  }

  lemma HelloLine(line: string, graphemes: string -> seq<string>)
    requires line == "hello"
    ensures ParseLine(line, graphemes) == Text("hello")
  {
    NoCommand(line);
    assert !StartsWith(line, "media:") && !StartsWith(line, "reactions:");
  }

  lemma TwoLinesPieces(text: string, first: string, second: string)
    requires first == "hello" && second == "!discord nop" && text == "hello\n!discord nop"
    ensures text == first + ['\n'] + second && '\n' !in first && '\n' !in second
  {
  }

  /** Two lines joined by `\n` are parsed one after the other. */
  lemma TwoLines(first: string, second: string, graphemes: string -> seq<string>)
    requires '\n' !in first && '\n' !in second
    ensures ParseResponseText(first + ['\n'] + second, graphemes)
            == [ParseLine(first, graphemes), ParseLine(second, graphemes)]
  {
    SplitAppend(first, second, '\n');
    SplitNoSeparator(second, '\n');
  }

  /** Lines are parsed one by one: prose stays text, a command on its own line is recognised. */
  lemma TwoLinesExample(text: string, graphemes: string -> seq<string>)
    requires text == "hello\n!discord nop"
    ensures ParseResponseText(text, graphemes) == [Text("hello"), DiscordNop]
  {
    var first, second := "hello", "!discord nop";
    TwoLinesPieces(text, first, second);
    TwoLines(first, second, graphemes);
    HelloLine(first, graphemes);
    NopLine(second, graphemes);
  }

  lemma CarriageReturnPieces(line: string, ws: string, cr: string)
    requires ws == " " && cr == "\r" && line == "!discord nop\r"
    ensures line == Prefix + ws + "nop" + cr
  {
  }

  /** `$` does not match before a carriage return, so a command line ending in `\r` is text. */
  lemma CarriageReturnExample(line: string, graphemes: string -> seq<string>)
    requires line == "!discord nop\r"
    ensures ParseLine(line, graphemes) == Text("!discord nop\r")
  {
    var ws, cr := " ", "\r";
    CarriageReturnPieces(line, ws, cr);
    MatcherStarts(line);
    AfterVerbOf(ws, "nop", cr);
  }
}
