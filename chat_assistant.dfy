/**
 * The transcript controller of the AI assistant view.
 *
 * The view keeps three pieces of state: the message list, seeded with one
 * welcome message, the text of the input box, and an `isLoading` gate.
 * Submitting the form runs `handleSubmit`, which appends the user's message,
 * opens a reply stream, appends an empty reply marked as streaming, rewrites
 * that reply with the text received so far after every chunk, clears the
 * streaming mark at the end, appends a fixed error message if anything
 * fails, and always releases the gate.
 *
 * The stream is data here: an `Outcome` says whether opening it fails, and
 * otherwise which chunks arrive and whether an error follows them. The
 * `Date.now()` readings that name the messages are replaced by a counter of
 * fresh numbers (see `MessageId`).
 */
module ChatAssistant {
  import opened Wrappers

  datatype Role = User | Model

  /** A message's `id`: the literal `'welcome'` of the seed message, or a
      number standing for the decimal string of a `Date.now()` reading. */
  datatype MessageId = Welcome | Stamp(n: nat)

  /** `ChatMessage`. An absent `isStreaming` is `false`: the view only tests
      it for truth. */
  datatype ChatMessage = ChatMessage(id: MessageId, role: Role, content: string, isStreaming: bool)

  const WelcomeText: string :=
    "Hi! I'm your Docusaurus Architect. Ask me anything about installation, swizzling, versioning, or deployment."

  const ErrorText: string :=
    "I encountered an error connecting to the knowledge base. Please try again."

  const WelcomeMessage: ChatMessage := ChatMessage(Welcome, Model, WelcomeText, false)

  /** The message the `catch` block appends. */
  function ErrorMessage(id: MessageId): ChatMessage
  {
    ChatMessage(id, Model, ErrorText, false)
  }

  // ---------------------------------------------------------------------
  // The gate: `!input.trim() || isLoading`
  // ---------------------------------------------------------------------

  /** The characters `String.prototype.trim` removes: the ECMAScript
      WhiteSpace and LineTerminator code points. */
  predicate IsJsWhiteSpace(c: char)
  {
    || c == '\t' || c == '\n' || c == '\U{000B}' || c == '\U{000C}' || c == '\r' || c == ' '
    || c == '\U{00A0}' || c == '\U{1680}' || ('\U{2000}' <= c <= '\U{200A}')
    || c == '\U{2028}' || c == '\U{2029}' || c == '\U{202F}' || c == '\U{205F}'
    || c == '\U{3000}' || c == '\U{FEFF}'
  }

  /** Every character of `s` is white space (the empty string included). */
  predicate IsBlank(s: string)
  {
    forall i :: 0 <= i < |s| ==> IsJsWhiteSpace(s[i])
  }

  /** `s` without its leading white space. */
  function TrimStart(s: string): (r: string)
    ensures |r| <= |s| && r == s[|s| - |r|..]
    ensures r == [] || !IsJsWhiteSpace(r[0])
    ensures IsBlank(s[..|s| - |r|])
    decreases |s|
  {
    if s != [] && IsJsWhiteSpace(s[0]) then
      var r := TrimStart(s[1..]);
      assert s[..|s| - |r|] == [s[0]] + s[1..][..|s[1..]| - |r|];
      r
    else s
  }

  /** `s` without its trailing white space. */
  function TrimEnd(s: string): (r: string)
    ensures |r| <= |s| && r == s[..|r|]
    ensures r == [] || !IsJsWhiteSpace(r[|r| - 1])
    ensures IsBlank(s[|r|..])
    decreases |s|
  {
    if s != [] && IsJsWhiteSpace(s[|s| - 1]) then
      var r := TrimEnd(s[..|s| - 1]);
      assert s[|r|..] == s[..|s| - 1][|r|..] + [s[|s| - 1]];
      r
    else s
  }

  /** `s.trim()`. */
  function Trim(s: string): string
  {
    TrimEnd(TrimStart(s))
  }

  /** `input.trim()` is the empty string, the only falsy string, exactly
      when the input is blank. */
  lemma TrimEmptyIffBlank(s: string)
    ensures Trim(s) == "" <==> IsBlank(s)
  {
    var t := TrimStart(s);
    if Trim(s) == "" {
      assert t[0..] == t;
      assert |t| == 0;
      assert s[..|s|] == s;
    } else if |t| > 0 {
      assert t[0] == s[|s| - |t|];
    }
  }

  /** `handleSubmit` goes past its first line, `!input.trim() || isLoading`:
      the input has a character that is not white space (its trimmed form is
      not empty, by `TrimEmptyIffBlank`) and no reply is being awaited. */
  predicate Accepts(input: string, isLoading: bool)
  {
    !IsBlank(input) && !isLoading
  }

  /** The send button's `disabled` attribute, `isLoading || !input.trim()`. */
  predicate SendDisabled(input: string, isLoading: bool)
  {
    isLoading || Trim(input) == ""
  }

  /** The gate is the source's own test on the trimmed input, and the button
      is enabled exactly when a submission would be accepted. */
  lemma SendEnabledIffAccepted(input: string, isLoading: bool)
    ensures Accepts(input, isLoading) <==> Trim(input) != "" && !isLoading
    ensures !SendDisabled(input, isLoading) <==> Accepts(input, isLoading)
  {
    TrimEmptyIffBlank(input);
  }

  // ---------------------------------------------------------------------
  // The streamed text
  // ---------------------------------------------------------------------

  /** `c.text || ''`: a chunk without text contributes nothing. (`text` is a
      string or absent, and `''` is the only falsy string.) */
  function TextOf(chunk: Option<string>): string
  {
    chunk.GetOr("")
  }

  /** The value of `fullText` after the given chunks, in order. */
  function Concat(chunks: seq<Option<string>>): string
    decreases |chunks|
  {
    if chunks == [] then ""
    else Concat(chunks[..|chunks| - 1]) + TextOf(chunks[|chunks| - 1])
  }

  /** Reading the chunks in two runs gives the two texts one after the other. */
  lemma {:induction false} ConcatAppend(a: seq<Option<string>>, b: seq<Option<string>>)
    ensures Concat(a + b) == Concat(a) + Concat(b)
    decreases |b|
  {
    if b == [] {
      assert a + b == a;
    } else {
      var n := |b| - 1;
      assert (a + b)[..|a + b| - 1] == a + b[..n];
      ConcatAppend(a, b[..n]);
    }
  }

  /** A chunk without text can be dropped without changing the text. */
  lemma ConcatSkipsMissing(a: seq<Option<string>>, b: seq<Option<string>>)
    ensures Concat(a + [None] + b) == Concat(a + b)
  {
    var missing: seq<Option<string>> := [None];
    ConcatAppend(a + missing, b);
    ConcatAppend(a, missing);
    ConcatAppend(a, b);
    assert missing[..0] == [];
  }

  /** The text received is as long as all chunk texts together, and each
      chunk's text sits right after the text of the chunks before it. */
  lemma {:induction false} ConcatPlacesChunks(chunks: seq<Option<string>>, k: nat)
    requires k < |chunks|
    ensures |Concat(chunks[..k])| + |TextOf(chunks[k])| <= |Concat(chunks)|
    ensures Concat(chunks)[|Concat(chunks[..k])|..|Concat(chunks[..k])| + |TextOf(chunks[k])|] == TextOf(chunks[k])
  {
    assert chunks == chunks[..k] + [chunks[k]] + chunks[k + 1..];
    ConcatAppend(chunks[..k] + [chunks[k]], chunks[k + 1..]);
    ConcatAppend(chunks[..k], [chunks[k]]);
    assert [chunks[k]][..0] == [];
  }

  // ---------------------------------------------------------------------
  // `prev.map(msg => msg.id === botMessageId ? { ...msg, … } : msg)`
  // ---------------------------------------------------------------------

  /** The two updates the stream applies to its reply message. */
  datatype Patch = SetContent(text: string) | EndStreaming

  function ApplyPatch(m: ChatMessage, patch: Patch): ChatMessage
  {
    match patch
    case SetContent(text) => m.(content := text)
    case EndStreaming => m.(isStreaming := false)
  }

  /** The list with every message whose id is `id` patched. */
  function UpdateById(ms: seq<ChatMessage>, id: MessageId, patch: Patch): (r: seq<ChatMessage>)
    ensures |r| == |ms|
    ensures forall i :: 0 <= i < |ms| ==>
      r[i] == (if ms[i].id == id then ApplyPatch(ms[i], patch) else ms[i])
    decreases |ms|
  {
    if ms == [] then []
    else
      [if ms[0].id == id then ApplyPatch(ms[0], patch) else ms[0]] + UpdateById(ms[1..], id, patch)
  }

  /** No two messages share an id. */
  predicate DistinctIds(ms: seq<ChatMessage>)
  {
    forall i, j :: 0 <= i < j < |ms| ==> ms[i].id != ms[j].id
  }

  /** Every numbered id is below `bound`: ids from `bound` on are fresh. */
  predicate StampsBelow(ms: seq<ChatMessage>, bound: nat)
  {
    forall i :: 0 <= i < |ms| && ms[i].id.Stamp? ==> ms[i].id.n < bound
  }

  /** With distinct ids the map patches exactly the one message carrying
      the id, and an id no message carries leaves the list as it is. */
  lemma UpdateByIdPatchesOne(ms: seq<ChatMessage>, id: MessageId, patch: Patch)
    requires DistinctIds(ms)
    ensures forall k :: 0 <= k < |ms| && ms[k].id == id ==>
      UpdateById(ms, id, patch) == ms[k := ApplyPatch(ms[k], patch)]
    ensures (forall k :: 0 <= k < |ms| ==> ms[k].id != id) ==> UpdateById(ms, id, patch) == ms
  {
  }

  /** The patch reaches the newest message when its id is fresh for the
      messages before it. */
  lemma UpdateNewest(base: seq<ChatMessage>, m: ChatMessage, patch: Patch)
    requires forall i :: 0 <= i < |base| ==> base[i].id != m.id
    ensures UpdateById(base + [m], m.id, patch) == base + [ApplyPatch(m, patch)]
  {
    var r := UpdateById(base + [m], m.id, patch);
    assert forall i :: 0 <= i < |base| ==> r[i] == base[i];
  }

  // ---------------------------------------------------------------------
  // One submission
  // ---------------------------------------------------------------------

  /** What the stream does once the message is sent: opening it fails, or
      the listed chunks arrive and then the stream ends or throws. */
  datatype Outcome = FailBeforeStream | Streamed(chunks: seq<Option<string>>, thenFails: bool)

  /** The messages the `try` block appends after the user's, numbered from
      `next`: the reply (if the stream opened), then the error message (if
      anything threw). A reply cut off by an error keeps its streaming mark,
      since the `catch` block does not touch it. */
  function ReplyMessages(next: nat, outcome: Outcome): seq<ChatMessage>
  {
    match outcome
    case FailBeforeStream => [ErrorMessage(Stamp(next))]
    case Streamed(chunks, thenFails) =>
      var reply := ChatMessage(Stamp(next), Model, Concat(chunks), thenFails);
      if thenFails then [reply, ErrorMessage(Stamp(next + 1))] else [reply]
  }

  /** The messages one accepted submission appends, numbered from `next`:
      the user's message, then the messages of the `try` block. */
  function TurnMessages(input: string, next: nat, outcome: Outcome): seq<ChatMessage>
  {
    [ChatMessage(Stamp(next), User, input, false)] + ReplyMessages(next + 1, outcome)
  }

  /** The message list after `handleSubmit`, from the state before it. */
  function Submitted(ms: seq<ChatMessage>, input: string, isLoading: bool, next: nat, outcome: Outcome): seq<ChatMessage>
  {
    if Accepts(input, isLoading) then ms + TurnMessages(input, next, outcome) else ms
  }

  /** How many fresh ids a submission uses. */
  function IdsUsed(outcome: Outcome): nat
  {
    if outcome.Streamed? && outcome.thenFails then 3 else 2
  }

  /** The transcript only grows: a refused submission leaves it alone; an
      accepted one keeps every earlier message in place and adds two
      messages on success or early failure and three on a failure after the
      stream opened. */
  lemma TranscriptGrows(ms: seq<ChatMessage>, input: string, isLoading: bool, next: nat, outcome: Outcome)
    ensures var r := Submitted(ms, input, isLoading, next, outcome);
      && |ms| <= |r| && r[..|ms|] == ms
      && (!Accepts(input, isLoading) ==> r == ms)
      && (Accepts(input, isLoading) ==> |r| == |ms| + IdsUsed(outcome))
  {
  }

  /** An accepted submission first appends the user's message, holding the
      input as typed (untrimmed). */
  lemma UserMessageFirst(ms: seq<ChatMessage>, input: string, isLoading: bool, next: nat, outcome: Outcome)
    requires Accepts(input, isLoading)
    ensures var r := Submitted(ms, input, isLoading, next, outcome);
      |r| > |ms| && r[|ms|].role == User && r[|ms|].content == input && !r[|ms|].isStreaming
  {
  }

  /** When the stream opens, the message after the user's is the reply: a
      model message holding the text of all chunks in order, still marked as
      streaming exactly when an error cut the stream off. */
  lemma ReplyHoldsStreamedText(ms: seq<ChatMessage>, input: string, isLoading: bool, next: nat,
                               chunks: seq<Option<string>>, thenFails: bool)
    requires Accepts(input, isLoading)
    ensures var r := Submitted(ms, input, isLoading, next, Streamed(chunks, thenFails));
      && |r| > |ms| + 1
      && r[|ms| + 1].role == Model
      && r[|ms| + 1].content == Concat(chunks)
      && r[|ms| + 1].isStreaming == thenFails
  {
  }

  /** A failure, before or during the stream, ends the transcript with the
      fixed error message, under the last fresh id of the turn. */
  lemma FailureAppendsError(ms: seq<ChatMessage>, input: string, isLoading: bool, next: nat, outcome: Outcome)
    requires Accepts(input, isLoading)
    requires outcome.FailBeforeStream? || outcome.thenFails
    ensures var r := Submitted(ms, input, isLoading, next, outcome);
      r[|r| - 1] == ErrorMessage(Stamp(next + IdsUsed(outcome) - 1))
  {
  }

  /** A stream that ends normally appends exactly the user's message and the
      finished reply, no longer marked as streaming: no error message. */
  lemma SuccessEndsWithReply(ms: seq<ChatMessage>, input: string, isLoading: bool, next: nat,
                             chunks: seq<Option<string>>)
    requires Accepts(input, isLoading)
    ensures var r := Submitted(ms, input, isLoading, next, Streamed(chunks, false));
      && r == ms + [ChatMessage(Stamp(next), User, input, false),
                    ChatMessage(Stamp(next + 1), Model, Concat(chunks), false)]
      && r[|r| - 1] == ChatMessage(Stamp(next + 1), Model, Concat(chunks), false)
  {
  }

  /** While a turn is running the gate is closed: the send button is
      disabled and a submission, whatever its input, leaves the transcript
      as it is. */
  lemma BusyRefusesSubmit(ms: seq<ChatMessage>, input: string, next: nat, outcome: Outcome)
    ensures SendDisabled(input, true) && !Accepts(input, true)
    ensures Submitted(ms, input, true, next, outcome) == ms
  {
  }

  lemma DistinctIdsAppend(a: seq<ChatMessage>, b: seq<ChatMessage>)
    requires DistinctIds(a) && DistinctIds(b)
    requires forall i, j :: 0 <= i < |a| && 0 <= j < |b| ==> a[i].id != b[j].id
    ensures DistinctIds(a + b)
  {
    var c := a + b;
    forall i, j | 0 <= i < j < |c|
      ensures c[i].id != c[j].id
    {
      if j < |a| {
        assert c[i] == a[i] && c[j] == a[j];
      } else if i < |a| {
        assert c[i] == a[i] && c[j] == b[j - |a|];
      } else {
        assert c[i] == b[i - |a|] && c[j] == b[j - |a|];
      }
    }
  }

  /** A submission keeps ids distinct and numbered ids below the counter,
      provided it numbers its messages from the counter. */
  lemma SubmittedKeepsIds(ms: seq<ChatMessage>, input: string, isLoading: bool, next: nat, outcome: Outcome)
    requires DistinctIds(ms) && StampsBelow(ms, next)
    ensures var r := Submitted(ms, input, isLoading, next, outcome);
      var bound := if Accepts(input, isLoading) then next + IdsUsed(outcome) else next;
      DistinctIds(r) && StampsBelow(r, bound)
  {
    if Accepts(input, isLoading) {
      var t := TurnMessages(input, next, outcome);
      TurnIdsFresh(ms, input, next, outcome);
      DistinctIdsAppend(ms, t);
      var r := ms + t;
      forall i | 0 <= i < |r| && r[i].id.Stamp?
        ensures r[i].id.n < next + IdsUsed(outcome)
      {
        if i >= |ms| {
          assert r[i] == t[i - |ms|];
        }
      }
    }
  }

  /** Three chunks `Hel`, `lo, `, `world` leave `Hello, world` in the reply. */
  lemma StreamedGreeting()
    ensures Concat([Some("Hel"), Some("lo, "), Some("world")]) == "Hello, world"
  {
    var c := [Some("Hel"), Some("lo, "), Some("world")];
    assert c[..2][..1][..0] == [];
    assert Concat(c[..2][..1]) == "Hel";
    assert Concat(c[..2]) == "Hello, ";
  }

  // ---------------------------------------------------------------------
  // The component's state and `handleSubmit`, step by step
  // ---------------------------------------------------------------------

  class Chat {
    var messages: seq<ChatMessage>
    var input: string
    var isLoading: bool
    /** The next fresh number for an id, standing for `Date.now()`. */
    var nextId: nat

    ghost predicate Valid()
      reads this
    {
      DistinctIds(messages) && StampsBelow(messages, nextId)
    }

    /** The initial state: the welcome message alone, an empty input and an
        open gate. */
    constructor ()
      ensures messages == [WelcomeMessage] && input == "" && !isLoading
      ensures Valid()
    {
      messages := [WelcomeMessage];
      input := "";
      isLoading := false;
      nextId := 0;
    }

    /** The input's `onChange`: the box's text becomes the state. */
    method OnInputChange(value: string)
      modifies this
      ensures input == value
      ensures messages == old(messages) && isLoading == old(isLoading) && nextId == old(nextId)
    {
      input := value;
    }

    /** A fresh id: the counter's value, which is then advanced. */
    method FreshId() returns (id: MessageId)
      modifies this
      ensures id == Stamp(old(nextId)) && nextId == old(nextId) + 1
      ensures messages == old(messages) && input == old(input) && isLoading == old(isLoading)
    {
      id := Stamp(nextId);
      nextId := nextId + 1;
    }

    /** The synchronous start of `handleSubmit`: the gate, then the user's
        message, the cleared input and the closed gate. `text` is the input
        the message is sent with. */
    method BeginTurn() returns (started: bool, text: string)
      modifies this
      ensures started == Accepts(old(input), old(isLoading))
      ensures !started ==> messages == old(messages) && input == old(input)
                           && isLoading == old(isLoading) && nextId == old(nextId)
      ensures started ==> && text == old(input)
                          && messages == old(messages) + [ChatMessage(Stamp(old(nextId)), User, old(input), false)]
                          && input == "" && isLoading && nextId == old(nextId) + 1
    {
      started := Accepts(input, isLoading);
      text := input;
      if started {
        var id := FreshId();
        messages := messages + [ChatMessage(id, User, text, false)];
        input := "";
        isLoading := true;
      }
    }

    /** The stream has opened: an empty reply, marked as streaming. */
    method OpenReply() returns (botId: MessageId)
      modifies this
      ensures botId == Stamp(old(nextId)) && nextId == old(nextId) + 1
      ensures messages == old(messages) + [ChatMessage(botId, Model, "", true)]
      ensures input == old(input) && isLoading == old(isLoading)
    {
      botId := FreshId();
      messages := messages + [ChatMessage(botId, Model, "", true)];
    }

    /** After a chunk: the reply's content becomes the text so far. */
    method ReceiveChunk(botId: MessageId, fullText: string)
      modifies this
      ensures messages == UpdateById(old(messages), botId, SetContent(fullText))
      ensures input == old(input) && isLoading == old(isLoading) && nextId == old(nextId)
    {
      messages := UpdateById(messages, botId, SetContent(fullText));
    }

    /** The stream has ended: the reply is no longer marked as streaming. */
    method FinishReply(botId: MessageId)
      modifies this
      ensures messages == UpdateById(old(messages), botId, EndStreaming)
      ensures input == old(input) && isLoading == old(isLoading) && nextId == old(nextId)
    {
      messages := UpdateById(messages, botId, EndStreaming);
    }

    /** The `catch` block: the error message is appended. */
    method ReportFailure()
      modifies this
      ensures messages == old(messages) + [ErrorMessage(Stamp(old(nextId)))] && nextId == old(nextId) + 1
      ensures input == old(input) && isLoading == old(isLoading)
    {
      var id := FreshId();
      messages := messages + [ErrorMessage(id)];
    }

    /** The `finally` block: the gate opens. */
    method EndTurn()
      modifies this
      ensures !isLoading
      ensures messages == old(messages) && input == old(input) && nextId == old(nextId)
    {
      isLoading := false;
    }

    /** The `for await` loop: after each chunk the reply, the newest message,
        holds the text of the chunks so far. */
    method StreamReply(botId: MessageId, chunks: seq<Option<string>>, ghost base: seq<ChatMessage>)
        returns (fullText: string)
      requires messages == base + [ChatMessage(botId, Model, "", true)]
      requires forall i :: 0 <= i < |base| ==> base[i].id != botId
      modifies this
      ensures fullText == Concat(chunks)
      ensures messages == base + [ChatMessage(botId, Model, fullText, true)]
      ensures input == old(input) && isLoading == old(isLoading) && nextId == old(nextId)
    {
      fullText := "";
      var k := 0;
      while k < |chunks|
        invariant 0 <= k <= |chunks|
        invariant fullText == Concat(chunks[..k])
        invariant messages == base + [ChatMessage(botId, Model, fullText, true)]
        invariant input == old(input) && isLoading == old(isLoading) && nextId == old(nextId)
      {
        assert chunks[..k + 1][..k] == chunks[..k];
        fullText := fullText + TextOf(chunks[k]);
        UpdateNewest(base, messages[|messages| - 1], SetContent(fullText));
        ReceiveChunk(botId, fullText);
        k := k + 1;
      }
      assert chunks[..k] == chunks;
    }

    /** The `try`/`catch` block of `handleSubmit`, after the user's message:
        open the stream and append the reply, stream into it, then finish it
        or append the error message. */
    method Respond(outcome: Outcome)
      requires StampsBelow(messages, nextId)
      modifies this
      ensures messages == old(messages) + ReplyMessages(old(nextId), outcome)
      ensures nextId == old(nextId) + |ReplyMessages(old(nextId), outcome)|
      ensures input == old(input) && isLoading == old(isLoading)
    {
      if outcome.FailBeforeStream? {
        ReportFailure();
        return;
      }
      ghost var base := messages;
      var botId := OpenReply();
      assert forall i :: 0 <= i < |base| ==> base[i].id != botId;
      var fullText := StreamReply(botId, outcome.chunks, base);
      if outcome.thenFails {
        ReportFailure();
      } else {
        UpdateNewest(base, messages[|messages| - 1], EndStreaming);
        FinishReply(botId);
      }
    }

    /** `handleSubmit` against the stream `outcome`: the gate, the user's
        message, the `try`/`catch` block and the `finally` block. The final
        transcript is `Submitted` of the state before the call. */
    method Submit(outcome: Outcome)
      requires Valid()
      modifies this
      ensures Valid()
      ensures messages == Submitted(old(messages), old(input), old(isLoading), old(nextId), outcome)
      ensures !Accepts(old(input), old(isLoading)) ==>
        input == old(input) && isLoading == old(isLoading) && nextId == old(nextId)
      ensures Accepts(old(input), old(isLoading)) ==>
        input == "" && !isLoading && nextId == old(nextId) + IdsUsed(outcome)
    {
      ghost var before, next, typed, loading := messages, nextId, input, isLoading;
      var started, text := BeginTurn();
      if started {
        ghost var user := [ChatMessage(Stamp(next), User, typed, false)];
        Respond(outcome);
        EndTurn();
        ghost var reply := ReplyMessages(next + 1, outcome);
        assert messages == before + user + reply;
        assert before + user + reply == before + TurnMessages(typed, next, outcome);
        SubmittedKeepsIds(before, typed, loading, next, outcome);
      }
    }
  }

  // ---------------------------------------------------------------------
  // The ids `Date.now()` gives
  // ---------------------------------------------------------------------

  /** The numbers the source names one turn's messages with, from the three
      `Date.now()` readings: at the start, after the stream opened and in the
      `catch` block. The reply gets its reading plus one. */
  datatype TurnStamps = TurnStamps(user: int, reply: int, error: int)

  function StampsAsWritten(atStart: int, atOpen: int, atFailure: int): TurnStamps
  {
    TurnStamps(atStart, atOpen + 1, atFailure)
  }

  /** The readings never go back in time, yet the error message can take the
      reply's number (a failure one millisecond after the stream opened) or
      the user's (a failure before the stream, in the same millisecond). */
  lemma StampsCollideAsWritten()
    ensures var s := StampsAsWritten(1000, 1000, 1001); s.error == s.reply
    ensures var s := StampsAsWritten(1000, 1000, 1000); s.error == s.user
  {
  }

  /** Numbering from a counter, as `TurnMessages` does, gives the messages
      of a turn pairwise distinct ids that no earlier message carries, all
      below the counter's next value. */
  lemma TurnIdsFresh(ms: seq<ChatMessage>, input: string, next: nat, outcome: Outcome)
    requires StampsBelow(ms, next)
    ensures var t := TurnMessages(input, next, outcome);
      && |t| == IdsUsed(outcome)
      && DistinctIds(t)
      && StampsBelow(t, next + IdsUsed(outcome))
      && (forall i, j :: 0 <= i < |ms| && 0 <= j < |t| ==> ms[i].id != t[j].id)
  {
    var t := TurnMessages(input, next, outcome);
    assert forall j :: 0 <= j < |t| ==> t[j].id == Stamp(next + j);
  }
}
