/** Reading the agent SDK's messages: the text of assistant messages, and the session id of the
    first result message. */
module ResponseParser {
  import opened Common

  /** A content block of an assistant message; only `text` blocks carry text for the bot. */
  datatype Block = TextBlock(text: string) | OtherBlock(kind: string)

  /** An SDK message: an assistant turn, the result that closes a query, or any other kind
      (system, user, stream events). */
  datatype SdkMessage =
    | Assistant(sessionId: string, content: seq<Block>)
    | Result(sessionId: string, subtype: string)
    | Other(kind: string)

  /** The texts of the text blocks, in block order. */
  function BlockTexts(blocks: seq<Block>): seq<string>
    decreases |blocks|
  {
    if |blocks| == 0 then []
    else
      var last := blocks[|blocks| - 1];
      BlockTexts(blocks[..|blocks| - 1]) + (if last.TextBlock? then [last.text] else [])
  }

  /** The texts of the text blocks of all assistant messages, in message order then block order. */
  function MessageTexts(messages: seq<SdkMessage>): seq<string>
    decreases |messages|
  {
    if |messages| == 0 then []
    else
      var last := messages[|messages| - 1];
      MessageTexts(messages[..|messages| - 1]) + (if last.Assistant? then BlockTexts(last.content) else [])
  }

  /** What `extractTextFromAssistantMessage` returns. */
  function AssistantText(msg: SdkMessage): string {
    if msg.Assistant? then Join(BlockTexts(msg.content), "\n") else ""
  }

  /** The session id of the first result message, if any. */
  function FirstResultId(messages: seq<SdkMessage>): Option<string>
    decreases |messages|
  {
    if |messages| == 0 then None
    else if messages[0].Result? then Some(messages[0].sessionId)
    else FirstResultId(messages[1..])
  }

  // ---------------------------------------------------------------------------------------
  // The three extractors

  /** `extractTextFromMessages`: the texts of every assistant message's text blocks joined by
      `\n`. */
  method ExtractTextFromMessages(messages: seq<SdkMessage>) returns (text: string)
    ensures text == Join(MessageTexts(messages), "\n")
  {
    var parts: seq<string> := [];
    for i := 0 to |messages|
      invariant parts == MessageTexts(messages[..i])
    {
      assert messages[..i + 1][..i] == messages[..i];
      var msg := messages[i];
      if msg.Assistant? {
        var content := msg.content;
        for j := 0 to |content|
          invariant parts == MessageTexts(messages[..i]) + BlockTexts(content[..j])
        {
          assert content[..j + 1][..j] == content[..j];
          if content[j].TextBlock? {
            parts := parts + [content[j].text];
          }
        }
        assert content[..|content|] == content;
      }
    }
    assert messages[..|messages|] == messages;
    text := Join(parts, "\n");
  }

  /** `extractTextFromAssistantMessage`: `""` for any other kind of message, otherwise the texts
      of its text blocks joined by `\n`. */
  method ExtractTextFromAssistantMessage(msg: SdkMessage) returns (text: string)
    ensures text == AssistantText(msg)
  {
    if !msg.Assistant? {
      return "";
    }
    var content := msg.content;
    var parts: seq<string> := [];
    for j := 0 to |content|
      invariant parts == BlockTexts(content[..j])
    {
      assert content[..j + 1][..j] == content[..j];
      if content[j].TextBlock? {
        parts := parts + [content[j].text];
      }
    }
    assert content[..|content|] == content;
    text := Join(parts, "\n");
  }

  /** `extractSessionId`: the walk stops at the first result message. */
  method ExtractSessionId(messages: seq<SdkMessage>) returns (id: Option<string>)
    ensures id == FirstResultId(messages)
  {
    for i := 0 to |messages|
      invariant FirstResultId(messages) == FirstResultId(messages[i..])
    {
      assert messages[i..][1..] == messages[i + 1..];
      if messages[i].Result? {
        return Some(messages[i].sessionId);
      }
    }
    return None;
  }

  // ---------------------------------------------------------------------------------------
  // What the extracted text is

  /** Collecting block texts distributes over concatenation, so texts keep their order. */
  lemma {:induction false} BlockTextsAppend(a: seq<Block>, b: seq<Block>)
    ensures BlockTexts(a + b) == BlockTexts(a) + BlockTexts(b)
    decreases |b|
  {
    if |b| == 0 {
      assert a + b == a;
    } else {
      var init := b[..|b| - 1];
      assert (a + b)[..|a + b| - 1] == a + init;
      BlockTextsAppend(a, init);
    }
  }

  /** A text block contributes its text and any other block nothing; with `BlockTextsAppend`
      this pins down `BlockTexts` as the filter of the text blocks. */
  lemma BlockTextsSingle(b: Block)
    ensures BlockTexts([b]) == (if b.TextBlock? then [b.text] else [])
  {
    assert [b][..0] == [];
  }

  /** The texts of a message list are those of its parts, in order. */
  lemma {:induction false} MessageTextsAppend(a: seq<SdkMessage>, b: seq<SdkMessage>)
    ensures MessageTexts(a + b) == MessageTexts(a) + MessageTexts(b)
    decreases |b|
  {
    if |b| == 0 {
      assert a + b == a;
    } else {
      var init := b[..|b| - 1];
      assert (a + b)[..|a + b| - 1] == a + init;
      MessageTextsAppend(a, init);
    }
  }

  /** Non-assistant messages are ignored; an assistant message contributes its block texts. */
  lemma MessageTextsSingle(m: SdkMessage)
    ensures MessageTexts([m]) == (if m.Assistant? then BlockTexts(m.content) else [])
  {
    assert [m][..0] == [];
  }

  /** The two text extractors agree: on one message, `extractTextFromMessages` gives what
      `extractTextFromAssistantMessage` gives. */
  lemma MessagesTextOfOne(m: SdkMessage)
    ensures Join(MessageTexts([m]), "\n") == AssistantText(m)
  {
    MessageTextsSingle(m);
  }

  /** Without text blocks there is nothing to join, and the text is empty. */
  lemma {:induction false} NoTextBlocks(blocks: seq<Block>)
    requires forall j :: 0 <= j < |blocks| ==> !blocks[j].TextBlock?
    ensures BlockTexts(blocks) == []
    decreases |blocks|
  {
    if |blocks| > 0 {
      NoTextBlocks(blocks[..|blocks| - 1]);
    }
  }

  /** Without any text block in any assistant message, `extractTextFromMessages` gives `""`. */
  lemma {:induction false} NoTextInMessages(messages: seq<SdkMessage>)
    requires forall i, j :: 0 <= i < |messages| && messages[i].Assistant? && 0 <= j < |messages[i].content| ==>
                              !messages[i].content[j].TextBlock?
    ensures Join(MessageTexts(messages), "\n") == ""
    decreases |messages|
  {
    if |messages| > 0 {
      var last := messages[|messages| - 1];
      NoTextInMessages(messages[..|messages| - 1]);
      if last.Assistant? {
        NoTextBlocks(last.content);
      }
    }
  }

  /** `extractSessionId` finds a result exactly when there is one, and then it is the first. */
  lemma {:induction false} FirstResultIdIsFirst(messages: seq<SdkMessage>)
    ensures FirstResultId(messages).None? <==> forall i :: 0 <= i < |messages| ==> !messages[i].Result?
    ensures FirstResultId(messages).Some? ==>
              exists k :: 0 <= k < |messages| && messages[k].Result?
                          && FirstResultId(messages).value == messages[k].sessionId
                          && forall i :: 0 <= i < k ==> !messages[i].Result?
    decreases |messages|
  {
    if |messages| > 0 && !messages[0].Result? {
      var rest := messages[1..];
      FirstResultIdIsFirst(rest);
      assert forall i :: 1 <= i < |messages| ==> messages[i] == rest[i - 1];
      if FirstResultId(rest).Some? {
        var k :| 0 <= k < |rest| && rest[k].Result? && FirstResultId(rest).value == rest[k].sessionId
                 && forall i :: 0 <= i < k ==> !rest[i].Result?;
        assert messages[k + 1] == rest[k];
      }
    } else if |messages| > 0 {
      assert messages[0].Result?;
    }
  }
}
