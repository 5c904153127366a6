/** The requests the program builds from what it holds: the interactive
    loop flattens the conversation it shows into API messages, and pipe
    mode sends one user message made of an optional leading message and
    standard input. */
module Conversation {
  import opened Prelude
  import Anthropic
  import Ui

  const USER: string := "user"

  /** The message a conversation entry contributes, if any: none for the
      interface's own "system" entries and for entries without text. */
  function EntryMessage(entry: (string, seq<Ui.MessageContent>)): (r: Option<Anthropic.Message>)
    ensures r.Some? <==> entry.0 != Ui.SYSTEM && Ui.TextOf(entry.1) != ""
    ensures r.Some? ==> r.value == Anthropic.Message(entry.0, Ui.TextOf(entry.1))
  {
    if entry.0 != Ui.SYSTEM && Ui.TextOf(entry.1) != "" then Some(Anthropic.Message(entry.0, Ui.TextOf(entry.1)))
    else None
  }

  /** The history sent with each request, entry by entry in order. */
  function History(entries: seq<(string, seq<Ui.MessageContent>)>): (r: seq<Anthropic.Message>)
    ensures |r| <= |entries|
    ensures forall k | 0 <= k < |r| :: r[k].role != Ui.SYSTEM && r[k].content != ""
  {
    if entries == [] then []
    else
      var last := entries[|entries| - 1];
      History(entries[..|entries| - 1]) + (match EntryMessage(last) case Some(m) => [m] case None => [])
  }

  /** The history of a longer conversation extends the history of its start. */
  lemma {:induction false} HistoryAppend(a: seq<(string, seq<Ui.MessageContent>)>, b: seq<(string, seq<Ui.MessageContent>)>)
    ensures History(a + b) == History(a) + History(b)
    decreases |b|
  {
    if b == [] {
      assert a + b == a;
    } else {
      var ab := a + b;
      assert ab[..|ab| - 1] == a + b[..|b| - 1];
      assert ab[|ab| - 1] == b[|b| - 1];
      HistoryAppend(a, b[..|b| - 1]);
    }
  }

  /** Every message sent comes from a non-system entry, has that entry's
      role, and has as content the non-empty concatenation of the entry's
      text parts. */
  lemma {:induction false} HistoryMessagesFromEntries(entries: seq<(string, seq<Ui.MessageContent>)>, j: nat)
    requires j < |History(entries)|
    ensures var m := History(entries)[j];
            && m.role != Ui.SYSTEM && m.content != ""
            && exists k | 0 <= k < |entries| :: m == Anthropic.Message(entries[k].0, Ui.TextOf(entries[k].1))
    decreases |entries|
  {
    var init := entries[..|entries| - 1];
    var last := entries[|entries| - 1];
    var h := History(init);
    if j < |h| {
      HistoryMessagesFromEntries(init, j);
      var k :| 0 <= k < |init| && h[j] == Anthropic.Message(init[k].0, Ui.TextOf(init[k].1));
      assert entries[k] == init[k];
    } else {
      assert EntryMessage(last).Some?;
      assert History(entries)[j] == EntryMessage(last).value;
      assert entries[|entries| - 1] == last;
    }
  }

  /** The text of a message's parts through a loop over them. */
  method CollectText(contents: seq<Ui.MessageContent>) returns (textContent: string)
    ensures textContent == Ui.TextOf(contents)
  {
    textContent := "";
    var i := 0;
    while i < |contents|
      invariant 0 <= i <= |contents|
      invariant textContent == Ui.TextOf(contents[..i])
    {
      assert contents[..i + 1][..i] == contents[..i];
      match contents[i] {
        case Text(text) =>
          textContent := textContent + text;
        case _ =>
      }
      i := i + 1;
    }
    assert contents[..|contents|] == contents;
  }

  /** The history builder of the interactive loop. */
  method BuildHistory(entries: seq<(string, seq<Ui.MessageContent>)>) returns (messages: seq<Anthropic.Message>)
    ensures messages == History(entries)
  {
    messages := [];
    var i := 0;
    while i < |entries|
      invariant 0 <= i <= |entries|
      invariant messages == History(entries[..i])
    {
      assert entries[..i + 1][..i] == entries[..i];
      var (role, contents) := entries[i];
      if role != Ui.SYSTEM {
        var textContent := CollectText(contents);
        if textContent != "" {
          messages := messages + [Anthropic.Message(role, textContent)];
        }
      }
      i := i + 1;
    }
    assert entries[..|entries|] == entries;
  }

  /** Renaming files changes no text, so it never changes the history. */
  lemma RenamingKeepsHistory(entries: seq<(string, seq<Ui.MessageContent>)>, fileId: string, filename: string)
    ensures History(Ui.RenamedMessages(entries, fileId, filename)) == History(entries)
    decreases |entries|
  {
    if entries != [] {
      var n := |entries|;
      var renamed := Ui.RenamedMessages(entries, fileId, filename);
      assert renamed[..n - 1] == Ui.RenamedMessages(entries[..n - 1], fileId, filename);
      RenamingKeepsHistory(entries[..n - 1], fileId, filename);
      RenamingKeepsText(entries[n - 1].1, fileId, filename);
    }
  }

  lemma {:induction false} RenamingKeepsText(parts: seq<Ui.MessageContent>, fileId: string, filename: string)
    ensures Ui.TextOf(Ui.RenamedParts(parts, fileId, filename)) == Ui.TextOf(parts)
    decreases |parts|
  {
    if parts != [] {
      var n := |parts|;
      var renamed := Ui.RenamedParts(parts, fileId, filename);
      assert renamed[..n - 1] == Ui.RenamedParts(parts[..n - 1], fileId, filename);
      RenamingKeepsText(parts[..n - 1], fileId, filename);
    }
  }

  /** The text pipe mode sends: the leading message, a space, then the
      input; or the input alone. */
  function FullMessage(prependMessage: Option<string>, input: string): (r: string)
    ensures |input| <= |r| && r[|r| - |input|..] == input
    ensures prependMessage.None? ==> r == input
    ensures prependMessage.Some? ==> |r| == |prependMessage.value| + 1 + |input|
                                     && r[..|prependMessage.value|] == prependMessage.value
                                     && r[|prependMessage.value|] == ' '
  {
    match prependMessage
    case Some(msg) => msg + " " + input
    case None => input
  }

  /** The one message pipe mode sends. */
  function PipeMessages(prependMessage: Option<string>, input: string): (r: seq<Anthropic.Message>)
    ensures |r| == 1 && r[0].role == USER && r[0].content == FullMessage(prependMessage, input)
  {
    [Anthropic.Message(USER, FullMessage(prependMessage, input))]
  }
}
