/** The prompt the bot sends the agent for one Discord message: five `key: value` lines. */
module PromptBuilder {
  import opened Common

  /** The parameters of `buildMessagePrompt`; `attachments` may be absent. */
  datatype PromptParams = PromptParams(
    id: string, skill: string, content: string, channelId: string, attachments: Option<seq<string>>)

  /** The text after `attachments:`: nothing when there are no paths, otherwise a space and the
      paths joined by single spaces. */
  function AttachmentsValue(attachments: Option<seq<string>>): string {
    if attachments.Some? && |attachments.value| > 0 then " " + Join(attachments.value, " ") else ""
  }

  /** The content line: the skill, when there is one, goes in front as a slash command. */
  function ContentLine(skill: string, content: string): string {
    if skill == "" then "content: " + content else "content: /" + skill + " " + content
  }

  /** The five lines of the prompt, in order. */
  function PromptLines(p: PromptParams): seq<string> {
    ["id: " + p.id, ContentLine(p.skill, p.content), "channel: " + p.channelId,
     "attachments:" + AttachmentsValue(p.attachments), "reactions:"]
  }

  /** `buildMessagePrompt`. */
  function BuildMessagePrompt(p: PromptParams): string {
    Join(PromptLines(p), "\n")
  }

  predicate EndsWith(s: string, t: string) {
    |s| >= |t| && s[|s| - |t|..] == t
  }

  lemma EndsWithAppend(x: string, y: string, t: string)
    requires EndsWith(y, t)
    ensures EndsWith(x + y, t)
  {
    assert (x + y)[|x + y| - |t|..] == y[|y| - |t|..];
  }

  /** Whatever the fields hold, the prompt starts with `id: ` and the id followed by a line
      break, and ends with a line `reactions:`. */
  lemma PromptShape(p: PromptParams)
    ensures var head := "id: " + p.id + "\n"; |BuildMessagePrompt(p)| > |head| && BuildMessagePrompt(p)[..|head|] == head
    ensures EndsWith(BuildMessagePrompt(p), "\nreactions:")
  {
    var lines := PromptLines(p);
    var rest3 := lines[3] + "\nreactions:";
    var rest2 := lines[2] + ("\n" + rest3);
    var rest1 := lines[1] + ("\n" + rest2);
    assert Join(lines[3..], "\n") == rest3;
    assert Join(lines[2..], "\n") == rest2;
    assert Join(lines[1..], "\n") == rest1;
    var r := BuildMessagePrompt(p);
    assert r == (lines[0] + "\n") + rest1;
    assert EndsWith(rest3, "\nreactions:");
    EndsWithAppend("\n", rest3, "\nreactions:");
    EndsWithAppend(lines[2], "\n" + rest3, "\nreactions:");
    EndsWithAppend("\n", rest2, "\nreactions:");
    EndsWithAppend(lines[1], "\n" + rest2, "\nreactions:");
    EndsWithAppend(lines[0] + "\n", rest1, "\nreactions:");
  }

  /** A value free of line breaks. */
  predicate OneLine(s: string) {
    '\n' !in s
  }

  /** When no field holds a line break, splitting the prompt at `\n` gives back exactly its five
      lines: the id, the content (with the skill), the channel, the attachments, the reactions. */
  lemma PromptRoundTrip(p: PromptParams)
    requires OneLine(p.id) && OneLine(p.skill) && OneLine(p.content) && OneLine(p.channelId)
    requires p.attachments.Some? ==> forall i :: 0 <= i < |p.attachments.value| ==> OneLine(p.attachments.value[i])
    ensures Split(BuildMessagePrompt(p), '\n') == PromptLines(p)
  {
    var lines := PromptLines(p);
    if p.attachments.Some? && |p.attachments.value| > 0 {
      JoinAvoids(p.attachments.value, " ", '\n');
    }
    assert OneLine(AttachmentsValue(p.attachments));
    forall i | 0 <= i < |lines|
      ensures '\n' !in lines[i]
    {
    }
    SplitJoin(lines, '\n');
  }

  /** The attachments line is exactly `attachments:` when the list is absent or empty, and has
      more after it otherwise. */
  lemma EmptyAttachmentsLine(attachments: Option<seq<string>>)
    ensures ("attachments:" + AttachmentsValue(attachments) == "attachments:") <==>
            (attachments.None? || |attachments.value| == 0)
  {
  }

  /** Paths without spaces can be read back from the attachments value. */
  lemma AttachmentsRoundTrip(paths: seq<string>)
    requires |paths| > 0
    requires forall i :: 0 <= i < |paths| ==> ' ' !in paths[i]
    ensures var v := AttachmentsValue(Some(paths));
            |v| > 0 && v[0] == ' ' && Split(v[1..], ' ') == paths
  {
    var v := AttachmentsValue(Some(paths));
    assert v[1..] == Join(paths, " ");
    SplitJoin(paths, ' ');
  }
}
