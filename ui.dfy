/** The conversation state the terminal interface keeps: the slash-command
    autocomplete and the `App` record whose methods the event loop calls.
    Rendering is not modelled; only the state the methods change. */
module Ui {
  import opened Prelude

  /** The tools the next request may use (`ToolMode::None` is `Neither`). */
  datatype ToolMode = Neither | CodeExecution | WebSearch | Both

  /** One part of a message as the interface shows it. */
  datatype MessageContent =
    | Text(text: string)
    | Code(input: string)
    | CodeOutput(stdout: string, stderr: string, returnCode: Int32, files: seq<(string, string)>)
    | CodeError(error: string)
    | ApiError(error: string)

  datatype SlashCommandAction = Clear

  datatype SlashCommand = SlashCommand(name: string, description: string, action: SlashCommandAction)

  // ---------------------------------------------------------------------------
  // Slash-command autocomplete

  /** The commands whose name starts with `prefix`, in their order. */
  function FilterByPrefix(commands: seq<SlashCommand>, prefix: string): (r: seq<SlashCommand>)
    ensures |r| <= |commands|
    ensures forall c :: c in r <==> c in commands && prefix <= c.name
  {
    if commands == [] then []
    else (if prefix <= commands[0].name then [commands[0]] else []) + FilterByPrefix(commands[1..], prefix)
  }

  /** Filtering keeps order: filtering a concatenation concatenates the
      filtered parts. */
  lemma {:induction false} FilterByPrefixAppend(a: seq<SlashCommand>, b: seq<SlashCommand>, prefix: string)
    ensures FilterByPrefix(a + b, prefix) == FilterByPrefix(a, prefix) + FilterByPrefix(b, prefix)
    decreases |a|
  {
    if a == [] {
      assert a + b == b;
    } else {
      assert (a + b)[0] == a[0] && (a + b)[1..] == a[1..] + b;
      FilterByPrefixAppend(a[1..], b, prefix);
    }
  }

  /** The empty prefix, as the autocomplete starts with, keeps every command. */
  lemma {:induction false} FilterByEmptyPrefix(commands: seq<SlashCommand>)
    ensures FilterByPrefix(commands, "") == commands
    decreases |commands|
  {
    if commands != [] {
      FilterByEmptyPrefix(commands[1..]);
      assert [commands[0]] + commands[1..] == commands;
    }
  }

  /** `(i + 1) % n` on a non-empty list; no change on an empty one. */
  function NextIndex(i: nat, n: nat): (r: nat)
    ensures n == 0 ==> r == i
    ensures n > 0 ==> r < n
    ensures n > 0 && i + 1 < n ==> r == i + 1
    ensures n > 0 && i + 1 == n ==> r == 0
  {
    if n == 0 then i else (i + 1) % n
  }

  /** One step back, wrapping from 0 to the last index; no change on an
      empty list. */
  function PrevIndex(i: nat, n: nat): (r: nat)
    ensures n == 0 ==> r == i
    ensures n > 0 && i < n ==> r < n
    ensures n > 0 && i == 0 ==> r == n - 1
    ensures n > 0 && 0 < i ==> r == i - 1
  {
    if n == 0 then i else if i == 0 then n - 1 else i - 1
  }

  /** On an index in range, the two moves undo each other. */
  lemma NextPrevInverse(i: nat, n: nat)
    requires i < n
    ensures PrevIndex(NextIndex(i, n), n) == i
    ensures NextIndex(PrevIndex(i, n), n) == i
  {
  }

  /** `k` moves forward from the first entry. */
  function NextTimes(n: nat, k: nat): nat {
    if k == 0 then 0 else NextIndex(NextTimes(n, k - 1), n)
  }

  /** Moving forward cycles through the list: after `k` moves from the first
      entry the selection is entry `k % n`. */
  lemma {:induction false} NextCycles(n: nat, k: nat)
    requires n > 0
    ensures NextTimes(n, k) == k % n
    decreases k
  {
    if k > 0 {
      NextCycles(n, k - 1);
      NextOfMod(k - 1, n);
    }
  }

  /** One move forward from `x % n` lands on `(x + 1) % n`. */
  lemma NextOfMod(x: nat, n: nat)
    requires n > 0
    ensures NextIndex(x % n, n) == (x + 1) % n
  {
    var q, r := x / n, x % n;
    assert x == q * n + r;
    if r + 1 < n {
      ModOfSum(q, n, r + 1);
    } else {
      assert x + 1 == (q + 1) * n;
      ModOfSum(q + 1, n, 0);
    }
  }

  lemma ModOfSum(q: nat, n: nat, r: nat)
    requires r < n
    ensures (q * n + r) % n == r
  {
    var x := q * n + r;
    var d, m := x / n, x % n;
    assert x == d * n + m && m < n;
    QuotientNotBelow(d, m, q, r, n);
    QuotientNotBelow(q, r, d, m, n);
  }

  /** Two ways of writing a number as a multiple of `n` plus a remainder
      below `n` have the same multiple, one direction at a time. */
  lemma QuotientNotBelow(d: nat, m: nat, q: nat, r: nat, n: nat)
    requires m < n && r < n && d * n + m == q * n + r
    ensures d >= q
  {
    if d < q {
      MulLe(d + 1, q, n);
    }
  }

  lemma MulLe(a: nat, b: nat, n: nat)
    requires a <= b
    ensures a * n <= b * n
  {
    assert b * n == a * n + (b - a) * n;
  }

  /** The autocomplete: the text after '/', the matching commands, and the
      highlighted one. */
  class SlashCommandState {
    var inputBuffer: string
    var suggestions: seq<SlashCommand>
    var selectedIndex: nat

    constructor ()
      ensures inputBuffer == "" && suggestions == [] && selectedIndex == 0
    {
      inputBuffer := "";
      suggestions := [];
      selectedIndex := 0;
    }

    /** The suggestions become the commands matching the input, and the
        first is highlighted. */
    method UpdateSuggestions(commands: seq<SlashCommand>)
      modifies this`suggestions, this`selectedIndex
      ensures suggestions == FilterByPrefix(commands, inputBuffer)
      ensures selectedIndex == 0
    {
      suggestions := FilterByPrefix(commands, inputBuffer);
      selectedIndex := 0;
    }

    method NextSuggestion()
      modifies this`selectedIndex
      ensures selectedIndex == NextIndex(old(selectedIndex), |suggestions|)
    {
      if |suggestions| != 0 {
        selectedIndex := (selectedIndex + 1) % |suggestions|;
      }
    }

    method PrevSuggestion()
      modifies this`selectedIndex
      ensures selectedIndex == PrevIndex(old(selectedIndex), |suggestions|)
    {
      if |suggestions| != 0 {
        selectedIndex := if selectedIndex == 0 then |suggestions| - 1 else selectedIndex - 1;
      }
    }

    /** The highlighted command, or None when the index is out of range. */
    function GetSelected(): (r: Option<SlashCommand>)
      reads this
      ensures r.None? <==> selectedIndex >= |suggestions|
      ensures r.Some? ==> r.value == suggestions[selectedIndex] && r.value in suggestions
    {
      if selectedIndex < |suggestions| then Some(suggestions[selectedIndex]) else None
    }
  }

  // ---------------------------------------------------------------------------
  // Pure pieces of the App methods

  /** All the text of a message's Text parts, in order. */
  function TextOf(parts: seq<MessageContent>): string {
    if parts == [] then "" else TextOf(parts[..|parts| - 1]) + (if parts[|parts| - 1].Text? then parts[|parts| - 1].text else "")
  }

  /** The text of a concatenation is the concatenated text. */
  lemma {:induction false} TextOfAppend(a: seq<MessageContent>, b: seq<MessageContent>)
    ensures TextOf(a + b) == TextOf(a) + TextOf(b)
    decreases |b|
  {
    if b == [] {
      assert a + b == a;
    } else {
      var ab := a + b;
      assert ab[..|ab| - 1] == a + b[..|b| - 1];
      assert ab[|ab| - 1] == b[|b| - 1];
      TextOfAppend(a, b[..|b| - 1]);
    }
  }

  predicate EndsWithText(parts: seq<MessageContent>) {
    |parts| > 0 && parts[|parts| - 1].Text?
  }

  /** Appending streamed text: it extends a trailing Text part, or starts a
      new one. The parts before the last are kept, and the result ends with
      a Text part. */
  function AppendText(parts: seq<MessageContent>, text: string): (r: seq<MessageContent>)
    ensures EndsWithText(r)
    ensures EndsWithText(parts) ==> |r| == |parts| && r[..|parts| - 1] == parts[..|parts| - 1]
    ensures !EndsWithText(parts) ==> |r| == |parts| + 1 && r[..|parts|] == parts
  {
    if EndsWithText(parts) then parts[..|parts| - 1] + [Text(parts[|parts| - 1].text + text)]
    else parts + [Text(text)]
  }

  /** No streamed text is lost or reordered. */
  lemma AppendTextKeepsText(parts: seq<MessageContent>, text: string)
    ensures TextOf(AppendText(parts, text)) == TextOf(parts) + text
  {
    var r := AppendText(parts, text);
    if EndsWithText(parts) {
      var n := |parts|;
      assert r[..n - 1] == parts[..n - 1];
      assert TextOf(parts) == TextOf(parts[..n - 1]) + parts[n - 1].text;
    } else {
      assert r[..|r| - 1] == parts;
    }
  }

  function Concat(ts: seq<string>): string {
    if ts == [] then "" else ts[0] + Concat(ts[1..])
  }

  /** A sequence of appends, one per streamed text. */
  function AppendAll(parts: seq<MessageContent>, ts: seq<string>): seq<MessageContent>
    decreases |ts|
  {
    if ts == [] then parts else AppendAll(AppendText(parts, ts[0]), ts[1..])
  }

  /** A run of appends leaves one Text part holding their concatenation
      after the earlier parts: a trailing Text part is extended, otherwise a
      single new one is pushed. */
  lemma {:induction false} AppendRun(parts: seq<MessageContent>, ts: seq<string>)
    requires ts != []
    ensures var r := AppendAll(parts, ts);
            if EndsWithText(parts) then
              r == parts[..|parts| - 1] + [Text(parts[|parts| - 1].text + Concat(ts))]
            else
              r == parts + [Text(Concat(ts))]
    decreases |ts|
  {
    var p1 := AppendText(parts, ts[0]);
    if |ts| == 1 {
      assert ts[1..] == [];
      assert AppendAll(parts, ts) == p1;
      assert Concat(ts) == ts[0] + "" == ts[0];
    } else {
      AppendRun(p1, ts[1..]);
      assert EndsWithText(p1);
      var n := |p1|;
      if EndsWithText(parts) {
        assert p1[..n - 1] == parts[..|parts| - 1];
        assert p1[n - 1].text == parts[|parts| - 1].text + ts[0];
        assert parts[|parts| - 1].text + ts[0] + Concat(ts[1..]) == parts[|parts| - 1].text + Concat(ts);
      } else {
        assert p1[..n - 1] == parts;
        assert p1[n - 1].text == ts[0];
      }
    }
  }

  /** `update_scroll_bounds` on the position and the auto-scroll flag. */
  function ScrollBounds(position: Usize, autoScroll: bool, totalLines: Usize, visibleLines: Usize): (r: (Usize, bool))
    ensures r.0 <= SaturatingSub(totalLines, visibleLines)
    ensures autoScroll ==> r.0 == SaturatingSub(totalLines, visibleLines)
    ensures !autoScroll ==> r.0 == if position < SaturatingSub(totalLines, visibleLines) then position
                                    else SaturatingSub(totalLines, visibleLines)
    ensures r.1 <==> autoScroll || r.0 == SaturatingSub(totalLines, visibleLines)
  {
    var maxScroll := SaturatingSub(totalLines, visibleLines);
    var p := if autoScroll then maxScroll else position;
    var clamped := if p < maxScroll then p else maxScroll;
    (clamped, autoScroll || clamped == maxScroll)
  }

  /** Recomputing the bounds for the same text and window changes nothing. */
  lemma ScrollBoundsIdempotent(position: Usize, autoScroll: bool, totalLines: Usize, visibleLines: Usize)
    ensures var r := ScrollBounds(position, autoScroll, totalLines, visibleLines);
            ScrollBounds(r.0, r.1, totalLines, visibleLines) == r
  {
  }

  predicate HasCode(m: ToolMode) { m == CodeExecution || m == Both }

  predicate HasWeb(m: ToolMode) { m == WebSearch || m == Both }

  /** Toggling code execution flips its flag and keeps web search's. */
  function ToggledCode(m: ToolMode): (r: ToolMode)
    ensures HasCode(r) == !HasCode(m) && HasWeb(r) == HasWeb(m)
  {
    match m
    case Neither => CodeExecution
    case CodeExecution => Neither
    case WebSearch => Both
    case Both => WebSearch
  }

  /** Toggling web search flips its flag and keeps code execution's. */
  function ToggledWeb(m: ToolMode): (r: ToolMode)
    ensures HasWeb(r) == !HasWeb(m) && HasCode(r) == HasCode(m)
  {
    match m
    case Neither => WebSearch
    case WebSearch => Neither
    case CodeExecution => Both
    case Both => CodeExecution
  }

  /** A mode is fixed by its two flags. */
  lemma ToolModeByFlags(a: ToolMode, b: ToolMode)
    requires HasCode(a) == HasCode(b) && HasWeb(a) == HasWeb(b)
    ensures a == b
  {
  }

  /** Each toggle undoes itself, and the two commute. */
  lemma TogglesInvolutiveAndCommute(m: ToolMode)
    ensures ToggledCode(ToggledCode(m)) == m
    ensures ToggledWeb(ToggledWeb(m)) == m
    ensures ToggledCode(ToggledWeb(m)) == ToggledWeb(ToggledCode(m))
  {
    ToolModeByFlags(ToggledCode(ToggledCode(m)), m);
    ToolModeByFlags(ToggledWeb(ToggledWeb(m)), m);
    ToolModeByFlags(ToggledCode(ToggledWeb(m)), ToggledWeb(ToggledCode(m)));
  }

  // ---------------------------------------------------------------------------
  // File names learned after a code-execution result

  function RenamedPair(p: (string, string), fileId: string, filename: string): (string, string) {
    if p.0 == fileId then (p.0, filename) else p
  }

  /** The pairs with the names of `fileId`'s entries replaced. */
  function RenamedPairs(files: seq<(string, string)>, fileId: string, filename: string): (r: seq<(string, string)>)
    ensures |r| == |files|
    ensures forall k | 0 <= k < |files| :: r[k] == RenamedPair(files[k], fileId, filename)
  {
    seq(|files|, k requires 0 <= k < |files| => RenamedPair(files[k], fileId, filename))
  }

  /** A part with its file names updated; only CodeOutput parts have any. */
  function RenamedPart(part: MessageContent, fileId: string, filename: string): MessageContent {
    if part.CodeOutput? then part.(files := RenamedPairs(part.files, fileId, filename)) else part
  }

  function RenamedParts(parts: seq<MessageContent>, fileId: string, filename: string): (r: seq<MessageContent>)
    ensures |r| == |parts|
    ensures forall k | 0 <= k < |parts| :: r[k] == RenamedPart(parts[k], fileId, filename)
  {
    seq(|parts|, k requires 0 <= k < |parts| => RenamedPart(parts[k], fileId, filename))
  }

  function RenamedMessages(messages: seq<(string, seq<MessageContent>)>, fileId: string, filename: string)
    : (r: seq<(string, seq<MessageContent>)>)
    ensures |r| == |messages|
    ensures forall k | 0 <= k < |messages| :: r[k] == (messages[k].0, RenamedParts(messages[k].1, fileId, filename))
  {
    seq(|messages|, k requires 0 <= k < |messages| => (messages[k].0, RenamedParts(messages[k].1, fileId, filename)))
  }

  /** What renaming keeps and what it changes in one part: the kind, every
      field but the file names, the file ids and the number of files; the
      name of a pair becomes `filename` exactly when its id is `fileId`. */
  lemma RenamedPartShape(part: MessageContent, fileId: string, filename: string)
    ensures var r := RenamedPart(part, fileId, filename);
            && (!part.CodeOutput? ==> r == part)
            && (part.CodeOutput? ==>
                  && r.CodeOutput? && r.stdout == part.stdout && r.stderr == part.stderr
                  && r.returnCode == part.returnCode && |r.files| == |part.files|
                  && forall k | 0 <= k < |part.files| ::
                       && r.files[k].0 == part.files[k].0
                       && (part.files[k].0 == fileId ==> r.files[k].1 == filename)
                       && (part.files[k].0 != fileId ==> r.files[k].1 == part.files[k].1))
  {
  }

  /** Renaming with the same name twice is renaming once. */
  lemma RenamedPartsIdempotent(parts: seq<MessageContent>, fileId: string, filename: string)
    ensures RenamedParts(RenamedParts(parts, fileId, filename), fileId, filename) == RenamedParts(parts, fileId, filename)
  {
    var once := RenamedParts(parts, fileId, filename);
    forall k | 0 <= k < |parts|
      ensures RenamedPart(once[k], fileId, filename) == once[k]
    {
      if parts[k].CodeOutput? {
        var f := once[k].files;
        assert RenamedPairs(f, fileId, filename) == f;
      }
    }
  }

  /** The pair loop of `update_file_metadata`. */
  method RenameInPairs(files: seq<(string, string)>, fileId: string, filename: string) returns (r: seq<(string, string)>)
    ensures r == RenamedPairs(files, fileId, filename)
  {
    r := files;
    var j := 0;
    while j < |r|
      invariant 0 <= j <= |r| == |files|
      invariant forall k | 0 <= k < j :: r[k] == RenamedPair(files[k], fileId, filename)
      invariant r[j..] == files[j..]
    {
      if r[j].0 == fileId {
        r := r[j := (r[j].0, filename)];
      }
      assert r[j] == RenamedPair(files[j], fileId, filename) by {
        assert files[j] == files[j..][0];
      }
      j := j + 1;
    }
  }

  /** The loop over the parts of one content list. */
  method RenameInParts(parts: seq<MessageContent>, fileId: string, filename: string) returns (r: seq<MessageContent>)
    ensures r == RenamedParts(parts, fileId, filename)
  {
    r := parts;
    var i := 0;
    while i < |r|
      invariant 0 <= i <= |r| == |parts|
      invariant forall k | 0 <= k < i :: r[k] == RenamedPart(parts[k], fileId, filename)
      invariant r[i..] == parts[i..]
    {
      assert r[i] == parts[i] by {
        assert parts[i] == parts[i..][0];
      }
      if r[i].CodeOutput? {
        var files := RenameInPairs(r[i].files, fileId, filename);
        r := r[i := r[i].(files := files)];
      }
      i := i + 1;
    }
  }

  const ASSISTANT: string := "assistant"
  const SYSTEM: string := "system"

  const DEFAULT_SYSTEM_PROMPT: string :=
    "You are a helpful assistant. Your knowledge cut-off is March 2025. The current date and time is [DATE_TIME_WITH_WEEKDAY_AND_TIMEZONE]"

  const CLEAR_COMMAND: SlashCommand := SlashCommand("clear", "Clear the conversation history", Clear)

  // ---------------------------------------------------------------------------
  // The App record

  class App {
    var input: string
    var messages: seq<(string, seq<MessageContent>)>
    var isWaiting: bool
    var streamingContent: seq<MessageContent>
    var scrollPosition: Usize
    var autoScroll: bool
    var totalLines: Usize
    var selectionMode: bool
    var containerInfo: Option<(string, string)>
    var toolMode: ToolMode
    var loadingAnimationFrame: nat
    var connectionStatus: Option<string>
    var showHelp: bool
    var slashCommandState: SlashCommandState?
    var availableCommands: seq<SlashCommand>
    var systemPrompt: string

    /** `App::default()`. */
    constructor Default()
      ensures input == "" && messages == [] && !isWaiting && streamingContent == []
      ensures scrollPosition == 0 && autoScroll && totalLines == 0 && !selectionMode
      ensures containerInfo == None && toolMode == Neither && loadingAnimationFrame == 0
      ensures connectionStatus == None && !showHelp && slashCommandState == null
      ensures availableCommands == [CLEAR_COMMAND] && systemPrompt == DEFAULT_SYSTEM_PROMPT
    {
      input := "";
      messages := [];
      isWaiting := false;
      streamingContent := [];
      scrollPosition := 0;
      autoScroll := true;
      totalLines := 0;
      selectionMode := false;
      containerInfo := None;
      toolMode := Neither;
      loadingAnimationFrame := 0;
      connectionStatus := None;
      showHelp := false;
      slashCommandState := null;
      availableCommands := [CLEAR_COMMAND];
      systemPrompt := DEFAULT_SYSTEM_PROMPT;
    }

    method AddMessage(role: string, content: string)
      modifies this`messages
      ensures messages == old(messages) + [(role, [Text(content)])]
    {
      messages := messages + [(role, [Text(content)])];
    }

    method ClearInput()
      modifies this`input
      ensures input == ""
    {
      input := "";
    }

    method StartStreaming()
      modifies this`streamingContent, this`loadingAnimationFrame
      ensures streamingContent == [] && loadingAnimationFrame == 0
    {
      streamingContent := [];
      loadingAnimationFrame := 0;
    }

    method AppendStreamingText(text: string)
      modifies this`streamingContent
      ensures streamingContent == AppendText(old(streamingContent), text)
    {
      var n := |streamingContent|;
      if n > 0 && streamingContent[n - 1].Text? {
        var existing := streamingContent[n - 1].text;
        streamingContent := streamingContent[n - 1 := Text(existing + text)];
      } else {
        streamingContent := streamingContent + [Text(text)];
      }
    }

    method AddStreamingCode(code: string)
      modifies this`streamingContent
      ensures streamingContent == old(streamingContent) + [Code(code)]
    {
      streamingContent := streamingContent + [Code(code)];
    }

    method AddStreamingOutput(stdout: string, stderr: string, returnCode: Int32, files: seq<(string, string)>)
      modifies this`streamingContent
      ensures streamingContent == old(streamingContent) + [CodeOutput(stdout, stderr, returnCode, files)]
    {
      streamingContent := streamingContent + [CodeOutput(stdout, stderr, returnCode, files)];
    }

    method AddStreamingError(error: string)
      modifies this`streamingContent
      ensures streamingContent == old(streamingContent) + [CodeError(error)]
    {
      streamingContent := streamingContent + [CodeError(error)];
    }

    method AddApiError(error: string)
      modifies this`messages
      ensures messages == old(messages) + [(SYSTEM, [ApiError(error)])]
    {
      messages := messages + [(SYSTEM, [ApiError(error)])];
    }

    method SetContainerInfo(id: string, expiresAt: string)
      modifies this`containerInfo
      ensures containerInfo == Some((id, expiresAt))
    {
      containerInfo := Some((id, expiresAt));
    }

    method SetConnectionStatus(status: Option<string>)
      modifies this`connectionStatus
      ensures connectionStatus == status
    {
      connectionStatus := status;
    }

    /** The streamed parts become one assistant message, unless there are
        none; either way the streaming content ends empty and the status is
        cleared. */
    method FinishStreaming()
      modifies this`messages, this`streamingContent, this`connectionStatus
      ensures old(streamingContent) != [] ==> messages == old(messages) + [(ASSISTANT, old(streamingContent))]
      ensures old(streamingContent) == [] ==> messages == old(messages)
      ensures streamingContent == [] && connectionStatus == None
    {
      if streamingContent != [] {
        var content := streamingContent;
        streamingContent := [];
        messages := messages + [(ASSISTANT, content)];
      }
      connectionStatus := None;
    }

    method ScrollUp(amount: Usize)
      modifies this`scrollPosition, this`autoScroll
      ensures scrollPosition == SaturatingSub(old(scrollPosition), amount) && !autoScroll
    {
      scrollPosition := SaturatingSub(scrollPosition, amount);
      autoScroll := false;
    }

    method ScrollDown(amount: Usize)
      modifies this`scrollPosition, this`autoScroll
      ensures scrollPosition == SaturatingAdd(old(scrollPosition), amount) && !autoScroll
    {
      scrollPosition := SaturatingAdd(scrollPosition, amount);
      autoScroll := false;
    }

    method UpdateScrollBounds(total: Usize, visible: Usize)
      modifies this`totalLines, this`scrollPosition, this`autoScroll
      ensures totalLines == total
      ensures (scrollPosition, autoScroll) == ScrollBounds(old(scrollPosition), old(autoScroll), total, visible)
    {
      totalLines := total;
      var maxScroll := SaturatingSub(total, visible);
      if autoScroll {
        scrollPosition := maxScroll;
      }
      if maxScroll < scrollPosition {
        scrollPosition := maxScroll;
      }
      if scrollPosition == maxScroll {
        autoScroll := true;
      }
    }

    method ToggleSelectionMode()
      modifies this`selectionMode
      ensures selectionMode == !old(selectionMode)
    {
      selectionMode := !selectionMode;
    }

    method ToggleCodeExecution()
      modifies this`toolMode
      ensures toolMode == ToggledCode(old(toolMode))
    {
      toolMode := ToggledCode(toolMode);
    }

    method ToggleWebSearch()
      modifies this`toolMode
      ensures toolMode == ToggledWeb(old(toolMode))
    {
      toolMode := ToggledWeb(toolMode);
    }

    method ToggleHelp()
      modifies this`showHelp
      ensures showHelp == !old(showHelp)
    {
      showHelp := !showHelp;
    }

    /** Every file pair with id `fileId`, in the messages and in the
        streaming content, gets the name `filename`; nothing else changes. */
    method UpdateFileMetadata(fileId: string, filename: string)
      modifies this`messages, this`streamingContent
      ensures messages == RenamedMessages(old(messages), fileId, filename)
      ensures streamingContent == RenamedParts(old(streamingContent), fileId, filename)
    {
      var i := 0;
      while i < |messages|
        invariant 0 <= i <= |messages| == |old(messages)|
        invariant forall k | 0 <= k < i :: messages[k] == (old(messages)[k].0, RenamedParts(old(messages)[k].1, fileId, filename))
        invariant messages[i..] == old(messages)[i..]
        invariant streamingContent == old(streamingContent)
      {
        assert messages[i] == old(messages)[i] by {
          assert old(messages)[i] == old(messages)[i..][0];
        }
        var contents := RenameInParts(messages[i].1, fileId, filename);
        messages := messages[i := (messages[i].0, contents)];
        i := i + 1;
      }
      streamingContent := RenameInParts(streamingContent, fileId, filename);
    }

    /** Opens the autocomplete, with every command suggested. */
    method StartSlashCommand()
      modifies this`slashCommandState
      ensures slashCommandState != null && fresh(slashCommandState)
      ensures slashCommandState.inputBuffer == "" && slashCommandState.selectedIndex == 0
      ensures slashCommandState.suggestions == availableCommands
    {
      var state := new SlashCommandState();
      state.UpdateSuggestions(availableCommands);
      FilterByEmptyPrefix(availableCommands);
      slashCommandState := state;
    }

    /** Refilters an open autocomplete for new input; without one, nothing. */
    method UpdateSlashCommand(text: string)
      modifies slashCommandState
      ensures slashCommandState != null ==>
                && slashCommandState.inputBuffer == text
                && slashCommandState.suggestions == FilterByPrefix(availableCommands, text)
                && slashCommandState.selectedIndex == 0
    {
      if slashCommandState != null {
        slashCommandState.inputBuffer := text;
        slashCommandState.UpdateSuggestions(availableCommands);
      }
    }

    method CancelSlashCommand()
      modifies this`slashCommandState
      ensures slashCommandState == null
    {
      slashCommandState := null;
    }

    /** `/clear`: the conversation, the scroll state and the container are
        reset, and the autocomplete and the input are closed and cleared. */
    method ExecuteSlashCommand(action: SlashCommandAction)
      modifies this`messages, this`streamingContent, this`scrollPosition, this`autoScroll,
               this`totalLines, this`containerInfo, this`slashCommandState, this`input
      ensures action == Clear ==>
                && messages == [] && streamingContent == []
                && scrollPosition == 0 && autoScroll && totalLines == 0 && containerInfo == None
      ensures slashCommandState == null && input == ""
    {
      match action {
        case Clear =>
          messages := [];
          streamingContent := [];
          scrollPosition := 0;
          autoScroll := true;
          totalLines := 0;
          containerInfo := None;
      }
      slashCommandState := null;
      ClearInput();
    }
  }
}
