/** The pure text helpers of the chat routes: the title a new conversation
    gets, the two messages a turn appends, and the markdown export of a
    conversation. */
module ChatText {
  import opened Wrappers
  import opened Models
  import Text

  const TITLE_LIMIT := 30
  const ELLIPSIS := "..."
  const MESSAGE_SEPARATOR := "\n\n"

  // ---------- Title derivation ----------

  /** `s[:n]`. */
  function Prefix(s: string, n: nat): (r: string)
    ensures |r| == if |s| < n then |s| else n
    ensures Text.StartsWith(s, r)
  {
    if |s| < n then s else s[..n]
  }

  /** A string no longer than `n` is its own `s[:n]`. */
  lemma PrefixOfShort(s: string, n: nat)
    requires |s| <= n
    ensures Prefix(s, n) == s
  {
  }

  /** The title a new conversation gets: the stripped `conversation_name`
      when it is not blank; otherwise, when the (unstripped) input is longer
      than 30 characters, the first 30 characters of the stripped input and
      "..."; otherwise the stripped input, and when that is empty "Chat "
      followed by the time `stamp`. A title never is empty, and one taken
      from the input has at most 33 characters. */
  function DeriveTitle(conversationName: Option<string>, userInput: string, stamp: string): (r: string)
    ensures r != ""
    ensures Text.Strip(conversationName.GetOr("")) != "" ==> r == Text.Strip(conversationName.GetOr(""))
    ensures Text.Strip(conversationName.GetOr("")) == "" ==>
              && (|userInput| > TITLE_LIMIT ==>
                    && r == Prefix(Text.Strip(userInput), TITLE_LIMIT) + ELLIPSIS
                    && |ELLIPSIS| <= |r| <= TITLE_LIMIT + |ELLIPSIS|
                    && Text.StartsWith(Text.Strip(userInput), r[..|r| - |ELLIPSIS|]))
              && (|userInput| <= TITLE_LIMIT && Text.Strip(userInput) != "" ==>
                    r == Text.Strip(userInput) && |r| <= TITLE_LIMIT && Text.Strip(r) == r)
              && (|userInput| <= TITLE_LIMIT && Text.Strip(userInput) == "" ==> r == "Chat " + stamp)
  {
    var provided := Text.Strip(conversationName.GetOr(""));
    if provided != "" then provided
    else if |userInput| > TITLE_LIMIT then
      var p := Prefix(Text.Strip(userInput), TITLE_LIMIT);
      assert (p + ELLIPSIS)[..|p + ELLIPSIS| - |ELLIPSIS|] == p;
      p + ELLIPSIS
    else
      var s := Text.Strip(userInput);
      if s == "" then "Chat " + stamp
      else
        Text.StripUnchanged(s);
        s
  }

  /** The length test is on the unstripped input, so a short text padded
      with spaces past 30 characters gets "..." although nothing was cut,
      and 31 spaces make the title "..." rather than a timestamp one. */
  lemma EllipsisWithoutTruncation(stamp: string)
    ensures DeriveTitle(None, "hello" + seq(26, _ => ' '), stamp) == "hello..."
    ensures DeriveTitle(None, seq(31, _ => ' '), stamp) == "..."
  {
    var pad := seq(26, _ => ' ');
    Text.StripOfPadded("hello", pad);
    assert |"hello" + pad| == 31;
    var blank := seq(31, _ => ' ');
    assert forall k :: 0 <= k < |blank| ==> Text.IsSpace(blank[k]);
  }

  /** In general: an input longer than 30 characters only because of the
      whitespace around it keeps all of its stripped text and still gets
      "..." appended. */
  lemma EllipsisWhenPaddedPastLimit(conversationName: Option<string>, userInput: string, stamp: string)
    requires Text.Strip(conversationName.GetOr("")) == ""
    requires |userInput| > TITLE_LIMIT && |Text.Strip(userInput)| <= TITLE_LIMIT
    ensures DeriveTitle(conversationName, userInput, stamp) == Text.Strip(userInput) + ELLIPSIS
  {
    PrefixOfShort(Text.Strip(userInput), TITLE_LIMIT);
  }

  /** The two messages one successful turn appends. */
  function Turn(userInput: string, reply: string): (r: seq<Message>)
    ensures |r| == 2 && r[0].role == "user" && r[1].role == "assistant"
    ensures r[0].content == userInput && r[1].content == reply
  {
    [Message("user", userInput), Message("assistant", reply)]
  }

  // ---------- Markdown export ----------

  /** One message of the export: `**Role**: content`, the role capitalized. */
  function Render(m: Message): (r: string)
    ensures |r| == |m.role| + |m.content| + 6
    ensures r[..2] == "**" && r[|r| - |m.content|..] == m.content
  {
    "**" + Text.Capitalize(m.role) + "**: " + m.content
  }

  /** The rendered lines of a message log, one per message, in order. */
  function RenderAll(ms: seq<Message>): (r: seq<string>)
    ensures |r| == |ms|
    ensures forall k :: 0 <= k < |ms| ==> r[k] == Render(ms[k])
  {
    if ms == [] then []
    else
      var init := ms[..|ms| - 1];
      assert forall k :: 0 <= k < |init| ==> init[k] == ms[k];
      RenderAll(init) + [Render(ms[|ms| - 1])]
  }

  /** The exported file's text: the rendered messages joined by a blank line. */
  function ExportMarkdown(ms: seq<Message>): (r: string)
    ensures ms == [] ==> r == ""
    ensures |ms| == 1 ==> r == Render(ms[0])
  {
    assert |ms| == 1 ==> RenderAll(ms) == RenderAll([]) + [Render(ms[0])];
    Text.Join(MESSAGE_SEPARATOR, RenderAll(ms))
  }

  /** What precedes a new message's line in the export: nothing for the
      first message, else the export so far and a blank line. */
  function Lead(ms: seq<Message>): string {
    if ms == [] then "" else ExportMarkdown(ms) + MESSAGE_SEPARATOR
  }

  /** Appending a message to a conversation adds one blank line and that
      message's line to its export, and leaves what was there. */
  lemma {:induction false} ExportAppend(ms: seq<Message>, m: Message)
    ensures ExportMarkdown(ms + [m]) == Lead(ms) + Render(m)
  {
    var parts := RenderAll(ms + [m]);
    assert (ms + [m])[..|ms + [m]| - 1] == ms;
    assert parts == RenderAll(ms) + [Render(m)];
    assert parts[..|parts| - 1] == RenderAll(ms);
  }

  /** A message of the given role renders as `**Heading**: content`, where
      the heading is the role with its first letter upper-cased. */
  lemma RenderRole(role: string, heading: string, content: string)
    requires role != [] && |heading| == |role|
    requires Text.UpperChar(role[0]) == heading[0] && heading[1..] == role[1..]
    requires forall k :: 1 <= k < |role| ==> !('A' <= role[k] <= 'Z')
    ensures Render(Message(role, content)) == "**" + heading + "**: " + content
  {
    Text.LowerOfLowercase(role[1..]);
    assert Text.Capitalize(role) == [heading[0]] + heading[1..];
    assert [heading[0]] + heading[1..] == heading;
  }

  /** The two lines of a turn. */
  lemma RenderTurnLines(userInput: string, reply: string)
    ensures Render(Turn(userInput, reply)[0]) == "**" + "User" + "**: " + userInput
    ensures Render(Turn(userInput, reply)[1]) == "**" + "Assistant" + "**: " + reply
  {
    RenderRole("user", "User", userInput);
    RenderRole("assistant", "Assistant", reply);
  }

  /** After a successful turn the export ends with the user's line and then
      the assistant's line, after whatever the conversation held before. */
  lemma ExportAfterTurn(ms: seq<Message>, userInput: string, reply: string)
    ensures var t := Turn(userInput, reply);
            ExportMarkdown(ms + t) == Lead(ms) + Render(t[0]) + MESSAGE_SEPARATOR + Render(t[1])
  {
    var t := Turn(userInput, reply);
    var first := ms + [t[0]];
    assert ms + t == first + [t[1]];
    ExportAppend(ms, t[0]);
    ExportAppend(first, t[1]);
    assert Lead(first) == ExportMarkdown(first) + MESSAGE_SEPARATOR;
  }
}
