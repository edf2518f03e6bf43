/**
 * `sendMessage` of the co-founder sheet and of the chat page: the input
 * guard, the request it builds (context and history), the reply decoder's
 * nested loops, and what the transcript holds afterwards.
 */
module ChatSession {
  import opened Wrappers
  import opened Text
  import opened Store
  import opened StreamDecoder
  import opened Transcript
  import opened QuestLedger
  import opened ProfileStore

  /** The two components that carry a copy of `sendMessage`. */
  datatype Panel = CoFounderSheet | ChatPage

  /**
   * The `context` object sent with a message. The chat page's context has
   * no level, XP or streak keys; those fields are None there.
   */
  datatype Context = Context(
    userName: string,
    level: Option<int>,
    totalXp: Option<int>,
    streak: Option<int>,
    activeQuests: seq<string>,
    completedQuestsCount: nat)

  /** One `{role, content}` entry of the history sent upstream. */
  datatype WireMessage = WireMessage(role: Role, content: string)

  datatype RequestBody = RequestBody(message: string, context: Context, history: seq<WireMessage>)

  /** What was thrown: an `Error` with its message, or some other value. */
  datatype Failure = ErrorThrown(message: string) | OtherThrown

  /** The reply stream: the decoded chunks read, then either the end or a read failure. */
  datatype ReplyBody = ReplyBody(chunks: seq<string>, readFailure: Option<Failure>)

  /** What `fetch` gives: a thrown failure, or a response whose body may be missing. */
  datatype Response = FetchFailed(failure: Failure) | Http(status: int, body: Option<ReplyBody>)

  /** How the exchange ends: an answer to persist, or a text written into the placeholder. */
  datatype Outcome = Answered(content: string) | Failed(text: string)

  const DefaultUserName: string := "Founder"
  const HistoryLimit: nat := 20
  const FallbackErrorText: string := "Sorry, I encountered an error. Please try again."
  const RateLimitText: string := "Rate limit reached. Please wait a moment and try again."
  const CreditsText: string := "AI credits exhausted. Please add more credits."
  const GenericFailureText: string := "Failed to get AI response"

  /** `profile?.display_name || 'Founder'`: a missing or empty name falls back. */
  function UserName(profile: Option<Profile>): (name: string)
    ensures name != ""
    ensures name == DefaultUserName <==> profile.None? || profile.value.displayName.None?
                                         || profile.value.displayName.value in {"", DefaultUserName}
  {
    if profile.Some? && profile.value.displayName.Some? && profile.value.displayName.value != "" then
      profile.value.displayName.value
    else DefaultUserName
  }

  /** `x || d` on a number: zero is falsy and gives the default. */
  function OrDefault(x: Option<int>, d: int): (r: int)
    ensures x.Some? && x.value != 0 ==> r == x.value
    ensures x.None? || x.value == 0 ==> r == d
  {
    if x.Some? && x.value != 0 then x.value else d
  }

  /** Titles of the uncompleted quests, in list order. */
  function ActiveTitles(qs: seq<Quest>): (ts: seq<string>)
    ensures |ts| <= |qs|
  {
    if |qs| == 0 then []
    else (if qs[0].isCompleted then [] else [qs[0].title]) + ActiveTitles(qs[1..])
  }

  /** The number of completed quests. */
  function CompletedCount(qs: seq<Quest>): (n: nat)
    ensures n <= |qs|
  {
    if |qs| == 0 then 0
    else (if qs[0].isCompleted then 1 else 0) + CompletedCount(qs[1..])
  }

  /** Active titles and the completed count account for every quest exactly once. */
  lemma {:induction false} QuestsAccounted(qs: seq<Quest>)
    ensures |ActiveTitles(qs)| + CompletedCount(qs) == |qs|
  {
    if |qs| > 0 {
      QuestsAccounted(qs[1..]);
    }
  }

  /** Both summaries split over a concatenation, so the titles keep the list order. */
  lemma {:induction false} SummariesAppend(a: seq<Quest>, b: seq<Quest>)
    ensures ActiveTitles(a + b) == ActiveTitles(a) + ActiveTitles(b)
    ensures CompletedCount(a + b) == CompletedCount(a) + CompletedCount(b)
  {
    if |a| == 0 {
      assert a + b == b;
    } else {
      assert (a + b)[1..] == a[1..] + b;
      SummariesAppend(a[1..], b);
    }
  }

  /** A title is listed exactly when some uncompleted quest has it. */
  lemma {:induction false} ActiveTitlesMembers(qs: seq<Quest>, t: string)
    ensures t in ActiveTitles(qs) <==> exists i :: 0 <= i < |qs| && !qs[i].isCompleted && qs[i].title == t
  {
    if |qs| > 0 {
      ActiveTitlesMembers(qs[1..], t);
      if exists i :: 0 <= i < |qs| && !qs[i].isCompleted && qs[i].title == t {
        var i :| 0 <= i < |qs| && !qs[i].isCompleted && qs[i].title == t;
        if i > 0 {
          assert qs[1..][i - 1] == qs[i];
        }
      }
      if exists i :: 0 <= i < |qs[1..]| && !qs[1..][i].isCompleted && qs[1..][i].title == t {
        var i :| 0 <= i < |qs[1..]| && !qs[1..][i].isCompleted && qs[1..][i].title == t;
        assert qs[i + 1] == qs[1..][i];
      }
    }
  }

  /** The context each panel sends. */
  function BuildContext(panel: Panel, profile: Option<Profile>, quests: seq<Quest>): (c: Context)
    ensures c.userName == UserName(profile)
    ensures c.activeQuests == ActiveTitles(quests) && c.completedQuestsCount == CompletedCount(quests)
    ensures panel == ChatPage <==> c.level.None?
    ensures panel == ChatPage ==> c.totalXp.None? && c.streak.None?
    ensures panel == CoFounderSheet ==>
              && c.level == Some(OrDefault(if profile.Some? then Some(profile.value.currentLevel) else None, 1))
              && c.totalXp == Some(OrDefault(if profile.Some? then Some(profile.value.totalXp) else None, 0))
              && c.streak == Some(OrDefault(if profile.Some? then Some(profile.value.currentStreak) else None, 0))
  {
    var level := if profile.Some? then Some(profile.value.currentLevel) else None;
    var xp := if profile.Some? then Some(profile.value.totalXp) else None;
    var streak := if profile.Some? then Some(profile.value.currentStreak) else None;
    match panel
    case CoFounderSheet =>
      Context(UserName(profile), Some(OrDefault(level, 1)), Some(OrDefault(xp, 0)), Some(OrDefault(streak, 0)),
              ActiveTitles(quests), CompletedCount(quests))
    case ChatPage =>
      Context(UserName(profile), None, None, None, ActiveTitles(quests), CompletedCount(quests))
  }

  /** Without a profile the sheet sends level 1, no XP and no streak. */
  lemma ContextWithoutProfile(quests: seq<Quest>)
    ensures var c := BuildContext(CoFounderSheet, None, quests);
            c.userName == DefaultUserName && c.level == Some(1) && c.totalXp == Some(0) && c.streak == Some(0)
  {
  }

  function Wire(m: ChatMessage): WireMessage {
    WireMessage(m.role, m.content)
  }

  /** `messages.slice(-20).map(...)`: the most recent entries, at most 20, in order. */
  function History(ms: seq<ChatMessage>): (h: seq<WireMessage>)
    ensures |h| == if |ms| < HistoryLimit then |ms| else HistoryLimit
    ensures forall i :: 0 <= i < |h| ==> h[i] == Wire(ms[|ms| - |h| + i])
  {
    var recent := if |ms| < HistoryLimit then ms else ms[|ms| - HistoryLimit..];
    seq(|recent|, i requires 0 <= i < |recent| => Wire(recent[i]))
  }

  /** A short transcript is sent whole; a longer one loses its oldest entries only. */
  lemma HistoryKeepsRecent(ms: seq<ChatMessage>, m: ChatMessage)
    requires |ms| >= HistoryLimit
    ensures History(ms + [m]) == History(ms)[1..] + [Wire(m)]
  {
    var a, b := History(ms + [m]), History(ms)[1..] + [Wire(m)];
    assert |a| == |b|;
    forall i | 0 <= i < |a| ensures a[i] == b[i] {
      if i < |a| - 1 {
        assert (ms + [m])[|ms| + 1 - HistoryLimit + i] == ms[|ms| - HistoryLimit + i + 1];
      }
    }
  }

  /** `error instanceof Error ? error.message : <fallback>` */
  function FailureText(f: Failure): string {
    match f
    case ErrorThrown(message) => message
    case OtherThrown => FallbackErrorText
  }

  /** The text thrown for a non-ok status. */
  function StatusErrorText(status: int): (text: string)
    ensures status == 429 <==> text == RateLimitText
    ensures status == 402 <==> text == CreditsText
    ensures status != 429 && status != 402 <==> text == GenericFailureText
  {
    if status == 429 then RateLimitText
    else if status == 402 then CreditsText
    else GenericFailureText
  }

  /** `response.ok` */
  predicate IsOk(status: int) {
    200 <= status <= 299
  }

  /**
   * How an exchange ends. A non-ok status or a thrown failure (from
   * `fetch` or from a read) ends it with that text; a missing body is an
   * empty answer; otherwise the answer is what the decoder accumulated
   * from the chunks, the unterminated tail being dropped.
   */
  function ExchangeOutcome(response: Response, parse: string -> ParseOutcome): Outcome {
    match response
    case FetchFailed(f) => Failed(FailureText(f))
    case Http(status, body) =>
      if !IsOk(status) then Failed(StatusErrorText(status))
      else if body.None? then Answered([])
      else if body.value.readFailure.Some? then Failed(FailureText(body.value.readFailure.value))
      else Answered(Run(Session([], []), body.value.chunks, parse).session.content)
  }

  /** A complete answer is the in-order concatenation of the reported fragments. */
  lemma AnswerIsFragments(status: int, chunks: seq<string>, parse: string -> ParseOutcome)
    requires IsOk(status)
    ensures var r := Run(Session([], []), chunks, parse);
            ExchangeOutcome(Http(status, Some(ReplyBody(chunks, None))), parse) == Answered(Concat(r.fragments))
  {
    RunContent(Session([], []), chunks, parse);
  }

  /** A reply that stalls on an unparsable line answers with what came before it, whatever follows. */
  lemma StalledReplyFreezes(status: int, chunks: seq<string>, k: nat, parse: string -> ParseOutcome)
    requires IsOk(status) && k < |chunks|
    requires Feed(Run(Session([], []), chunks[..k], parse).session, chunks[k], parse).stop == Requeued
    ensures ExchangeOutcome(Http(status, Some(ReplyBody(chunks, None))), parse)
            == Answered(Feed(Run(Session([], []), chunks[..k], parse).session, chunks[k], parse).session.content)
  {
    RequeueFreezesReply(Session([], []), chunks, k, parse);
  }

  /** The texts shown while streaming: the accumulated content after each fragment. */
  function Accumulated(base: string, fs: seq<string>): (shown: seq<string>)
    ensures |shown| == |fs|
    decreases |fs|
  {
    if |fs| == 0 then [] else Accumulated(base, fs[..|fs| - 1]) + [base + Concat(fs)]
  }

  /** Every shown text is the base plus all fragments so far, never a lone delta. */
  lemma {:induction false} AccumulatedAt(base: string, fs: seq<string>, k: nat)
    requires k < |fs|
    ensures Accumulated(base, fs)[k] == base + Concat(fs[..k + 1])
    decreases |fs|
  {
    if k < |fs| - 1 {
      AccumulatedAt(base, fs[..|fs| - 1], k);
      assert fs[..|fs| - 1][..k + 1] == fs[..k + 1];
    } else {
      assert fs[..k + 1] == fs;
    }
  }

  lemma AccumulatedSnoc(base: string, fs: seq<string>, f: string)
    ensures Accumulated(base, fs + [f]) == Accumulated(base, fs) + [base + Concat(fs + [f])]
  {
    assert (fs + [f])[..|fs|] == fs;
  }

  /** Showing two batches of fragments in turn: the second continues from the text the first reached. */
  lemma {:induction false} AccumulatedAppend(base: string, a: seq<string>, b: seq<string>)
    ensures Accumulated(base, a + b) == Accumulated(base, a) + Accumulated(base + Concat(a), b)
    decreases |b|
  {
    if b == [] {
      assert a + b == a;
    } else {
      var b' := b[..|b| - 1];
      assert (a + b)[..|a + b| - 1] == a + b';
      AccumulatedAppend(base, a, b');
      ConcatAppend(a, b);
      assert base + Concat(a + b) == (base + Concat(a)) + Concat(b);
    }
  }

  lemma AppendAssoc<T>(a: seq<T>, b: seq<T>, c: seq<T>)
    ensures a + (b + c) == (a + b) + c
  {
  }

  /**
   * The inner loop's treatment of one complete, CR-stripped line, as
   * written: comments, blank lines and lines without the `data: ` prefix
   * are skipped, a `[DONE]` payload ends the loop, a payload that does not
   * parse is put back, and a non-empty content string is appended.
   * `StreamDecoder.Act` is the same decision as a function; this method is
   * the step-by-step if-chain the loop runs, proved equal to it.
   */
  method ReadLine(line: string, parse: string -> ParseOutcome) returns (act: Action)
    ensures act == Act(line, parse)
  {
    if StartsWith(line, ":") || Trim(line) == "" {
      return Skip;
    }
    if !StartsWith(line, "data: ") {
      return Skip;
    }
    var jsonStr := Trim(line[6..]);
    if jsonStr == "[DONE]" {
      return Finish;
    }
    match parse(jsonStr) {
      case ParseFailed =>
        return PutBack;
      case Parsed(c) =>
        if c.Some? && c.value != "" {
          return Emit(c.value);
        }
        return Skip;
    }
  }

  /**
   * The head of the inner loop's body: split off the line before the first
   * '\n', strip one '\r' and decide what to do with it; a line that does
   * not parse is put back in front of the rest. `rest` is the buffer
   * afterwards, and the decoder's reading of the old buffer is the action
   * followed by its reading of `rest`.
   */
  method TakeLine(buffer: string, newlineIndex: int, parse: string -> ParseOutcome) returns (rest: string, act: Action)
    requires newlineIndex == IndexOf(buffer, '\n') && newlineIndex >= 0
    ensures act.Skip? ==> Lines(buffer, parse) == Lines(rest, parse)
    ensures act.Finish? ==> Lines(buffer, parse) == LinesResult(rest, [], SawDone)
    ensures act.PutBack? ==> Lines(buffer, parse) == LinesResult(rest, [], Requeued)
    ensures act.Emit? ==> act.fragment != "" && |rest| < |buffer|
                          && Lines(buffer, parse) == LinesResult(Lines(rest, parse).rest, [act.fragment] + Lines(rest, parse).fragments,
                                                                 Lines(rest, parse).stop)
    ensures act.Skip? ==> |rest| < |buffer|
  {
    var line := buffer[..newlineIndex];
    rest := buffer[newlineIndex + 1..];
    if EndsWith(line, "\r") {
      line := line[..|line| - 1];
    }
    assert line == StripCR(buffer[..newlineIndex]);
    LinesStep(buffer, parse);
    act := ReadLine(line, parse);
    if act.PutBack? {
      rest := line + "\n" + rest;
    }
  }

  /**
   * One run of the inner loop: take lines until none is complete, `[DONE]`
   * is seen or a line is put back, and pass the whole accumulated text to
   * `updateLastMessage` after each appended fragment.
   */
  method DrainBuffer(buffer0: string, content0: string, parse: string -> ParseOutcome,
                     transcript: ChatMessages, ghost earlier: seq<ChatMessage>, ghost placeholder: ChatMessage)
    returns (buffer: string, content: string, shown: seq<string>)
    requires placeholder.role == Assistant
    requires transcript.messages == earlier + [placeholder.(content := content0)]
    modifies transcript
    ensures buffer == Lines(buffer0, parse).rest
    ensures content == content0 + Concat(Lines(buffer0, parse).fragments)
    ensures shown == Accumulated(content0, Lines(buffer0, parse).fragments)
    ensures transcript.messages == earlier + [placeholder.(content := content)]
  {
    buffer, content, shown := buffer0, content0, [];
    ghost var emitted: seq<string> := [];
    var newlineIndex := IndexOf(buffer, '\n');
    while newlineIndex != -1
      invariant newlineIndex == IndexOf(buffer, '\n')
      invariant Lines(buffer0, parse) ==
                  LinesResult(Lines(buffer, parse).rest, emitted + Lines(buffer, parse).fragments, Lines(buffer, parse).stop)
      invariant content == content0 + Concat(emitted)
      invariant shown == Accumulated(content0, emitted)
      invariant transcript.messages == earlier + [placeholder.(content := content)]
      decreases |buffer|
    {
      var act;
      buffer, act := TakeLine(buffer, newlineIndex, parse);
      match act {
        case Skip =>
        case Finish =>
          assert emitted + [] == emitted;
          break;
        case PutBack =>
          assert emitted + [] == emitted;
          break;
        case Emit(f) =>
          assert emitted + ([f] + Lines(buffer, parse).fragments) == (emitted + [f]) + Lines(buffer, parse).fragments by {
            AppendAssoc(emitted, [f], Lines(buffer, parse).fragments);
          }
          assert content0 + Concat(emitted + [f]) == content + f by {
            assert Concat([f]) == f;
            ConcatAppend(emitted, [f]);
            AppendAssoc(content0, Concat(emitted), f);
          }
          assert shown + [content + f] == Accumulated(content0, emitted + [f]) by {
            AccumulatedSnoc(content0, emitted, f);
          }
          assert WithLastContent(transcript.messages, content + f) == earlier + [placeholder.(content := content + f)] by {
            UpdateLandsOnLast(earlier, placeholder.(content := content), content + f);
          }
          content := content + f;
          emitted := emitted + [f];
          shown := shown + [content];
          transcript.UpdateLastMessage(content);
      }
      newlineIndex := IndexOf(buffer, '\n');
    }
    assert emitted + [] == emitted;
  }

  /**
   * The outer loop over the reply's chunks: each decoded chunk is appended
   * to the carried-over buffer and the inner loop drains it. The result is
   * the decoder's reply for the same chunks, and the placeholder, the last
   * entry, shows the accumulated text.
   */
  method DecodeReply(chunks: seq<string>, parse: string -> ParseOutcome,
                     transcript: ChatMessages, ghost earlier: seq<ChatMessage>, ghost placeholder: ChatMessage)
    returns (content: string, shown: seq<string>)
    requires placeholder.role == Assistant && placeholder.content == ""
    requires transcript.messages == earlier + [placeholder]
    modifies transcript
    ensures content == Run(Session([], []), chunks, parse).session.content
    ensures shown == Accumulated([], Run(Session([], []), chunks, parse).fragments)
    ensures transcript.messages == earlier + [placeholder.(content := content)]
  {
    var buffer := "";
    content, shown := "", [];
    ghost var emitted: seq<string> := [];
    var k := 0;
    while k < |chunks|
      invariant 0 <= k <= |chunks|
      invariant Run(Session([], []), chunks[..k], parse) == RunResult(Session(buffer, content), emitted)
      invariant shown == Accumulated([], emitted)
      invariant transcript.messages == earlier + [placeholder.(content := content)]
    {
      ghost var f := Feed(Session(buffer, content), chunks[k], parse);
      assert Run(Session([], []), chunks[..k + 1], parse) == RunResult(f.session, emitted + f.fragments) by {
        RunSnoc(Session([], []), chunks[..k], chunks[k], parse);
        assert chunks[..k] + [chunks[k]] == chunks[..k + 1];
      }
      assert content == Concat(emitted) by {
        RunContent(Session([], []), chunks[..k], parse);
      }
      assert Accumulated([], emitted + f.fragments) == shown + Accumulated(content, f.fragments) by {
        AccumulatedAppend([], emitted, f.fragments);
        assert [] + Concat(emitted) == content;
      }
      buffer := buffer + chunks[k];
      var more: seq<string>;
      buffer, content, more := DrainBuffer(buffer, content, parse, transcript, earlier, placeholder);
      shown := shown + more;
      emitted := emitted + f.fragments;
      k := k + 1;
    }
    assert chunks[..|chunks|] == chunks;
  }

  /** The rows an `addMessage` call appends. */
  function Rows(stored: Option<ChatMessage>): seq<ChatMessage> {
    if stored.Some? then [stored.value] else []
  }

  /** The text the placeholder ends with: the answer, or the error text written over it. */
  function PlaceholderText(o: Outcome): string {
    match o
    case Answered(content) => content
    case Failed(text) => text
  }

  /** The empty assistant entry appended before the request is sent. */
  function Placeholder(user: Option<string>, nowMillis: nat, nowIso: string): ChatMessage {
    Optimistic(user, Assistant, "", nowMillis, nowIso)
  }

  /**
   * The transcript after an accepted send: the stored user message, the
   * placeholder with its final text, and on an answer the stored assistant
   * message.
   */
  function AfterSend(before: seq<ChatMessage>, user: Option<string>, message: string, userInsert: Insert,
                     nowMillis: nat, nowIso: string, outcome: Outcome, assistantInsert: Insert): seq<ChatMessage> {
    before + Rows(Stored(user, User, message, userInsert))
    + [Placeholder(user, nowMillis, nowIso).(content := PlaceholderText(outcome))]
    + (if outcome.Answered? then Rows(Stored(user, Assistant, outcome.content, assistantInsert)) else [])
  }

  /**
   * A send only appends: the earlier entries stay as they were, and the
   * placeholder, still a `temp-` assistant entry, holds the answer or the
   * error text.
   */
  lemma SendAppendsOnly(before: seq<ChatMessage>, user: Option<string>, message: string, userInsert: Insert,
                        nowMillis: nat, nowIso: string, outcome: Outcome, assistantInsert: Insert)
    ensures var ms := AfterSend(before, user, message, userInsert, nowMillis, nowIso, outcome, assistantInsert);
            var p := |before| + |Rows(Stored(user, User, message, userInsert))|;
            && p < |ms| && ms[..|before|] == before
            && IsTemp(ms[p]) && ms[p].role == Assistant && ms[p].content == PlaceholderText(outcome)
            && |ms| == p + 1 + (if outcome.Answered? && user.Some? && assistantInsert.Inserted? then 1 else 0)
  {
    var ms := AfterSend(before, user, message, userInsert, nowMillis, nowIso, outcome, assistantInsert);
    var p := |before| + |Rows(Stored(user, User, message, userInsert))|;
    assert ms[p] == Placeholder(user, nowMillis, nowIso).(content := PlaceholderText(outcome));
  }

  /**
   * On a stored answer the reply appears twice in memory: once in the
   * placeholder and once in the stored assistant row after it.
   */
  lemma AnswerKeptTwice(before: seq<ChatMessage>, user: Option<string>, message: string, userInsert: Insert,
                        nowMillis: nat, nowIso: string, content: string, assistantInsert: Insert)
    requires user.Some? && assistantInsert.Inserted?
    ensures var ms := AfterSend(before, user, message, userInsert, nowMillis, nowIso, Answered(content), assistantInsert);
            |ms| >= 2 && ms[|ms| - 2].content == content && ms[|ms| - 1].content == content
            && IsTemp(ms[|ms| - 2]) && ms[|ms| - 1].id == assistantInsert.id
  {
  }

  /** The texts shown while the reply streams in. */
  function Streamed(response: Response, parse: string -> ParseOutcome): seq<string> {
    if response.Http? && IsOk(response.status) && response.body.Some? then
      Accumulated([], Run(Session([], []), response.body.value.chunks, parse).fragments)
    else []
  }

  /**
   * The `try` block after the request is sent, with its `catch`: a thrown
   * failure or a non-ok status writes its text into the placeholder; a
   * streamed reply is decoded into the placeholder and then stored; a read
   * failure writes its text over what had streamed in.
   */
  method AwaitReply(response: Response, parse: string -> ParseOutcome, assistantInsert: Insert,
                    transcript: ChatMessages, ghost earlier: seq<ChatMessage>, ghost placeholder: ChatMessage)
    returns (shown: seq<string>)
    requires transcript.messages == earlier + [placeholder]
    requires placeholder.role == Assistant && placeholder.content == ""
    modifies transcript
    ensures shown == Streamed(response, parse)
    ensures var o := ExchangeOutcome(response, parse);
            transcript.messages == earlier + [placeholder.(content := PlaceholderText(o))]
                                   + (if o.Answered? then Rows(Stored(transcript.user, Assistant, o.content, assistantInsert)) else [])
  {
    shown := [];
    match response {
      case FetchFailed(f) =>
        transcript.UpdateLastMessage(FailureText(f));
        UpdateLandsOnLast(earlier, placeholder, FailureText(f));
      case Http(status, body) =>
        if !IsOk(status) {
          transcript.UpdateLastMessage(StatusErrorText(status));
          UpdateLandsOnLast(earlier, placeholder, StatusErrorText(status));
          return;
        }
        var content := "";
        if body.Some? {
          content, shown := DecodeReply(body.value.chunks, parse, transcript, earlier, placeholder);
        }
        assert transcript.messages == earlier + [placeholder.(content := content)];
        if body.Some? && body.value.readFailure.Some? {
          var text := FailureText(body.value.readFailure.value);
          transcript.UpdateLastMessage(text);
          UpdateLandsOnLast(earlier, placeholder.(content := content), text);
        } else {
          var storedReply := transcript.AddMessage(Assistant, content, assistantInsert);
        }
    }
  }

  /** The sheet or the page, with its input box and loading flag, over a transcript. */
  class ChatPanel {
    const panel: Panel
    const transcript: ChatMessages
    var input: string
    var isLoading: bool

    constructor (panel: Panel, transcript: ChatMessages)
      ensures this.panel == panel && this.transcript == transcript
      ensures input == "" && !isLoading
    {
      this.panel := panel;
      this.transcript := transcript;
      input := "";
      isLoading := false;
    }

    /**
     * `sendMessage`. Blank input, or a send already in progress, is
     * refused and nothing changes. Otherwise the trimmed text is sent with
     * the context and with the history as it stood before this send; the
     * user message is stored, a placeholder streams the reply and ends with
     * the answer or an error text, the answer is stored, and the loading
     * flag is cleared.
     */
    method SendMessage(profile: Option<Profile>, quests: seq<Quest>, userInsert: Insert, nowMillis: nat, nowIso: string,
                       response: Response, parse: string -> ParseOutcome, assistantInsert: Insert)
      returns (request: Option<RequestBody>, shown: seq<string>)
      modifies this, transcript
      ensures Trim(old(input)) == [] || old(isLoading) ==>
                && request.None? && shown == []
                && input == old(input) && isLoading == old(isLoading)
                && transcript.messages == old(transcript.messages)
      ensures Trim(old(input)) != [] && !old(isLoading) ==>
                && request == Some(RequestBody(Trim(old(input)), BuildContext(panel, profile, quests),
                                               History(old(transcript.messages))))
                && input == "" && !isLoading
                && shown == Streamed(response, parse)
                && transcript.messages == AfterSend(old(transcript.messages), transcript.user, Trim(old(input)), userInsert,
                                                    nowMillis, nowIso, ExchangeOutcome(response, parse), assistantInsert)
    {
      if Trim(input) == "" || isLoading {
        return None, [];
      }
      var userMessage := Trim(input);
      var history := History(transcript.messages);
      input := "";
      isLoading := true;
      var storedUser := transcript.AddMessage(User, userMessage, userInsert);
      var placeholder := transcript.AddOptimisticMessage(Assistant, "", nowMillis, nowIso);
      ghost var earlier := old(transcript.messages) + Rows(storedUser);
      assert transcript.messages == earlier + [placeholder];
      request := Some(RequestBody(userMessage, BuildContext(panel, profile, quests), history));
      shown := AwaitReply(response, parse, assistantInsert, transcript, earlier, placeholder);
      isLoading := false;
    }
  }
}
