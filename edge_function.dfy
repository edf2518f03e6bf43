/**
 * The `ai-cofounder` edge function: it answers the CORS preflight, builds
 * the system prompt from the founder's context, sends the prompt, the
 * history and the new message to the AI gateway as one streamed chat
 * completion, and maps the gateway's status onto its own reply. Reading
 * the environment, the HTTP exchange with the gateway and the logging are
 * parameters or left out; what the function decides is modelled.
 */
module CoFounderFunction {
  import opened Wrappers
  import opened Text
  import opened StreamDecoder
  import opened Transcript
  import opened ChatSession

  const ApiKeyMissingText := "LOVABLE_API_KEY is not configured"
  const RateLimitError := "Rate limit exceeded"
  const PaymentError := "Payment required"
  const GatewayError := "AI gateway error"
  const UnknownError := "Unknown error"
  const GatewayModel := "google/gemini-2.5-flash"
  const JsonType := "application/json"
  const EventStreamType := "text/event-stream"
  const NoQuestsText := "None yet"
  const Undefined := "undefined"

  /** The fixed text before the context lines. */
  const PromptIntro := "You are an AI Co-Founder and business coach for startup founders. You're knowledgeable, supportive, and focused on helping founders execute and succeed.\n\nCurrent user context:\n"

  /** The fixed text after the context lines. */
  const PromptRole := "\n\nYour role:\n1. Help prioritize tasks and suggest what to focus on\n2. Provide strategic business advice and coaching\n3. Act as an accountability partner\n4. Celebrate wins and motivate during tough times\n5. Help break down big goals into actionable quests\n6. Remember past conversations for continuity\n\nKeep responses concise but insightful. Be encouraging but honest. If they ask about their progress, reference their actual stats. Suggest new quests when appropriate."

  /**
   * One entry of the gateway's `messages` array. The system entry is kept
   * as its context lines; `PromptText` renders it around the fixed prose.
   */
  datatype ApiMessage = SystemPrompt(contextLines: seq<string>) | Turn(role: string, content: string)

  /** What `req.json()` gives: the request body, or what it threw. */
  datatype BodyRead = Read(body: RequestBody) | Unreadable(failure: Failure)

  datatype Incoming = Incoming(httpMethod: string, body: BodyRead)

  /** What the gateway `fetch` gives: a thrown failure, or a status and the streamed body. */
  datatype Upstream = UpstreamThrew(failure: Failure) | UpstreamReplied(status: int, chunks: seq<string>)

  /** The body of the function's own reply. */
  datatype ReplyBody = NoBody | ErrorJson(error: string) | EventStream(chunks: seq<string>)

  /** The function's reply; a `Response` without a status has status 200. */
  datatype Reply = Reply(status: int, contentType: Option<string>, body: ReplyBody)

  /** The request the function sends to the gateway. */
  datatype GatewayCall = GatewayCall(apiKey: string, model: string, messages: seq<ApiMessage>, stream: bool)

  /** The reply, and the gateway request when one was sent. */
  datatype Handled = Handled(reply: Reply, call: Option<GatewayCall>)

  /** A number as a template literal prints it. */
  function IntText(n: int): string {
    if n >= 0 then NatToDecimal(n) else "-" + NatToDecimal(-n)
  }

  /** A context field in the template: an absent field prints as `undefined`. */
  function FieldText(v: Option<int>): string {
    if v.Some? then IntText(v.value) else Undefined
  }

  /**
   * The active-quests line: the titles joined by ", ", or "None yet" when
   * there are none. One title is printed as it is, and every title and
   * separator is kept.
   */
  function QuestsLine(titles: seq<string>): (line: string)
    ensures |titles| == 0 ==> line == NoQuestsText
    ensures |titles| == 1 ==> line == titles[0]
    ensures |titles| > 0 ==> |line| == TotalLength(titles) + 2 * (|titles| - 1)
    ensures |titles| > 0 ==> StartsWith(line, titles[0]) && EndsWith(line, titles[|titles| - 1])
  {
    if |titles| > 0 then Join(titles, ", ") else NoQuestsText
  }

  /** With two or more titles, the line is the first title, a separator and the line of the rest. */
  lemma QuestsLineUnfolds(titles: seq<string>)
    requires |titles| >= 2
    ensures QuestsLine(titles) == titles[0] + ", " + QuestsLine(titles[1..])
  {
  }

  /** The five context lines of the prompt. */
  function ContextLines(c: Context): (lines: seq<string>)
    ensures |lines| == 5
    ensures lines[0] == "- Name: " + c.userName
    ensures lines[3] == "- Active quests: " + QuestsLine(c.activeQuests)
  {
    [ "- Name: " + c.userName,
      "- Level: " + FieldText(c.level) + " (earned " + FieldText(c.totalXp) + " XP total)",
      "- Current streak: " + FieldText(c.streak) + " days",
      "- Active quests: " + QuestsLine(c.activeQuests),
      "- Completed quests: " + NatToDecimal(c.completedQuestsCount) ]
  }

  /** The system prompt's text: the fixed introduction, the context lines one per line, the fixed role text. */
  function PromptText(contextLines: seq<string>): string {
    PromptIntro + Join(contextLines, "\n") + PromptRole
  }

  /** An entry's `role` and `content` as sent. */
  function RoleOf(m: ApiMessage): string {
    if m.SystemPrompt? then "system" else m.role
  }

  function ContentOf(m: ApiMessage): string {
    if m.SystemPrompt? then PromptText(m.contextLines) else m.content
  }

  /**
   * The full chat page sends no level, total or streak, so its prompt's
   * level and streak lines print `undefined`.
   */
  lemma ChatPagePromptSaysUndefined(profile: Option<ProfileStore.Profile>, quests: seq<QuestLedger.Quest>)
    ensures var c := BuildContext(ChatPage, profile, quests);
            && ContextLines(c)[1] == "- Level: " + Undefined + " (earned " + Undefined + " XP total)"
            && ContextLines(c)[2] == "- Current streak: " + Undefined + " days"
  {
  }

  /**
   * The sheet sends numbers, so its prompt prints the profile's level, XP
   * and streak, or their defaults, and never `undefined`; without a
   * profile it reads level 1, 0 XP and a 0-day streak.
   */
  lemma SheetPromptShowsNumbers(profile: Option<ProfileStore.Profile>, quests: seq<QuestLedger.Quest>)
    ensures var c := BuildContext(CoFounderSheet, profile, quests);
            var level := OrDefault(if profile.Some? then Some(profile.value.currentLevel) else None, 1);
            var xp := OrDefault(if profile.Some? then Some(profile.value.totalXp) else None, 0);
            var streak := OrDefault(if profile.Some? then Some(profile.value.currentStreak) else None, 0);
            && ContextLines(c)[1] == "- Level: " + IntText(level) + " (earned " + IntText(xp) + " XP total)"
            && ContextLines(c)[2] == "- Current streak: " + IntText(streak) + " days"
            && FieldText(c.level) != Undefined && FieldText(c.totalXp) != Undefined && FieldText(c.streak) != Undefined
    ensures profile.None? ==>
              && ContextLines(BuildContext(CoFounderSheet, profile, quests))[1] == "- Level: 1 (earned 0 XP total)"
              && ContextLines(BuildContext(CoFounderSheet, profile, quests))[2] == "- Current streak: 0 days"
  {
    var c := BuildContext(CoFounderSheet, profile, quests);
    IntTextNotUndefined(c.level.value);
    IntTextNotUndefined(c.totalXp.value);
    IntTextNotUndefined(c.streak.value);
    if profile.None? {
      assert NatToDecimal(1) == "1" && NatToDecimal(0) == "0";
    }
  }

  /** A number is printed with digits and a sign, never as `undefined`. */
  lemma IntTextNotUndefined(n: int)
    ensures IntText(n) != Undefined
  {
    var t := IntText(n);
    if n >= 0 {
      assert IsDigit(t[0]);
    } else {
      assert t[0] == '-';
    }
  }

  function RoleName(r: Role): string {
    match r
    case User => "user"
    case Assistant => "assistant"
  }

  function Api(m: WireMessage): ApiMessage {
    Turn(RoleName(m.role), m.content)
  }

  /** `messages`: the system prompt for the context, then the history in order, then the new user message. */
  function UpstreamMessages(c: Context, history: seq<WireMessage>, message: string): (ms: seq<ApiMessage>)
    ensures |ms| == |history| + 2
    ensures ms[0] == SystemPrompt(ContextLines(c))
    ensures ms[|ms| - 1] == Turn("user", message)
    ensures forall i :: 0 <= i < |history| ==> ms[i + 1] == Api(history[i])
  {
    [SystemPrompt(ContextLines(c))]
      + seq(|history|, i requires 0 <= i < |history| => Api(history[i]))
      + [Turn("user", message)]
  }

  /**
   * A request built by a chat panel reaches the gateway with at most 22
   * messages, and the one before the new message is the panel's latest
   * transcript entry.
   */
  lemma PanelRequestShape(c: Context, ms: seq<ChatMessage>, message: string)
    ensures |UpstreamMessages(c, History(ms), message)| <= HistoryLimit + 2
    ensures |ms| > 0 ==>
              var up := UpstreamMessages(c, History(ms), message);
              up[|up| - 2] == Turn(RoleName(ms[|ms| - 1].role), ms[|ms| - 1].content)
  {
    if |ms| > 0 {
      var h := History(ms);
      assert h[|h| - 1] == Wire(ms[|ms| - 1]);
    }
  }

  /** The reply to anything caught: status 500 with the error's message, or "Unknown error". */
  function ErrorReply(f: Failure): (r: Reply)
    ensures r.status == 500 && r.contentType == Some(JsonType)
    ensures f.ErrorThrown? ==> r.body == ErrorJson(f.message)
    ensures f.OtherThrown? ==> r.body == ErrorJson(UnknownError)
  {
    Reply(500, Some(JsonType), ErrorJson(match f case ErrorThrown(m) => m case OtherThrown => UnknownError))
  }

  /**
   * The reply for what the gateway gave: an ok status streams its body
   * through with status 200; 429 and 402 are passed on with their own
   * error; any other status, and a thrown fetch, become status 500.
   */
  function GatewayReply(upstream: Upstream): (r: Reply)
    ensures upstream.UpstreamReplied? && IsOk(upstream.status) ==>
              r == Reply(200, Some(EventStreamType), EventStream(upstream.chunks))
    ensures upstream.UpstreamReplied? && !IsOk(upstream.status) ==>
              r.contentType == Some(JsonType)
              && (r.status == 429 <==> upstream.status == 429)
              && (r.status == 402 <==> upstream.status == 402)
              && (r.status == 500 <==> upstream.status != 429 && upstream.status != 402)
    ensures upstream.UpstreamReplied? && upstream.status == 429 ==> r.body == ErrorJson(RateLimitError)
    ensures upstream.UpstreamReplied? && upstream.status == 402 ==> r.body == ErrorJson(PaymentError)
    ensures upstream.UpstreamReplied? && !IsOk(upstream.status) && upstream.status != 429 && upstream.status != 402 ==>
              r.body == ErrorJson(GatewayError)
    ensures upstream.UpstreamThrew? ==> r == ErrorReply(upstream.failure)
  {
    match upstream
    case UpstreamThrew(f) => ErrorReply(f)
    case UpstreamReplied(status, chunks) =>
      if !IsOk(status) then
        if status == 429 then Reply(429, Some(JsonType), ErrorJson(RateLimitError))
        else if status == 402 then Reply(402, Some(JsonType), ErrorJson(PaymentError))
        else ErrorReply(ErrorThrown(GatewayError))
      else Reply(200, Some(EventStreamType), EventStream(chunks))
  }

  /** An API key that `!LOVABLE_API_KEY` rejects: unset or empty. */
  predicate KeyMissing(apiKey: Option<string>) {
    apiKey.None? || apiKey.value == ""
  }

  /**
   * The handler. A preflight gets an empty 200 and nothing else happens. A
   * body that cannot be read, and then a missing key, end in a 500 before
   * the gateway is called. Otherwise exactly one gateway request is sent,
   * carrying the key, the model, the assembled messages and streaming on,
   * and the reply follows the gateway's answer.
   */
  function Handle(req: Incoming, apiKey: Option<string>, upstream: Upstream): (h: Handled)
    ensures req.httpMethod == "OPTIONS" ==> h == Handled(Reply(200, None, NoBody), None)
    ensures h.call.Some? <==> req.httpMethod != "OPTIONS" && req.body.Read? && !KeyMissing(apiKey)
    ensures req.httpMethod != "OPTIONS" && req.body.Unreadable? ==> h.reply == ErrorReply(req.body.failure)
    ensures req.httpMethod != "OPTIONS" && req.body.Read? && KeyMissing(apiKey) ==>
              h.reply == Reply(500, Some(JsonType), ErrorJson(ApiKeyMissingText))
    ensures h.call.Some? ==>
              var b := req.body.body;
              && h.call.value == GatewayCall(apiKey.value, GatewayModel,
                                             UpstreamMessages(b.context, b.history, b.message), true)
              && h.reply == GatewayReply(upstream)
  {
    if req.httpMethod == "OPTIONS" then Handled(Reply(200, None, NoBody), None)
    else match req.body
      case Unreadable(f) => Handled(ErrorReply(f), None)
      case Read(b) =>
        if KeyMissing(apiKey) then Handled(ErrorReply(ErrorThrown(ApiKeyMissingText)), None)
        else
          var messages := UpstreamMessages(b.context, b.history, b.message);
          Handled(GatewayReply(upstream), Some(GatewayCall(apiKey.value, GatewayModel, messages, true)))
  }

  /**
   * The reply as a chat panel's `fetch` sees it. Only a streamed body is
   * read by the panel; an error body is never read, because a non-ok
   * status is handled first.
   */
  function AsSeenByPanel(r: Reply): Response {
    Http(r.status, if r.body.EventStream? then Some(ChatSession.ReplyBody(r.body.chunks, None)) else None)
  }

  /**
   * End to end: for a chat request that reaches the gateway, the panel
   * answers with the decoded stream when the gateway succeeds, and
   * otherwise shows the rate-limit text exactly for a 429, the credits
   * text exactly for a 402, and the generic failure for anything else.
   */
  lemma PanelSeesGatewayOutcome(req: Incoming, apiKey: Option<string>, status: int, chunks: seq<string>,
                                parse: string -> ParseOutcome)
    requires req.httpMethod != "OPTIONS" && req.body.Read? && !KeyMissing(apiKey)
    ensures var o := ExchangeOutcome(AsSeenByPanel(Handle(req, apiKey, UpstreamReplied(status, chunks)).reply), parse);
            && (IsOk(status) ==> o == Answered(Run(Session([], []), chunks, parse).session.content))
            && (!IsOk(status) ==> o.Failed?)
            && (o == Failed(RateLimitText) <==> status == 429)
            && (o == Failed(CreditsText) <==> status == 402)
            && (o == Failed(GenericFailureText) <==> !IsOk(status) && status != 429 && status != 402)
  {
    var o := ExchangeOutcome(AsSeenByPanel(Handle(req, apiKey, UpstreamReplied(status, chunks)).reply), parse);
    if IsOk(status) {
      assert o.Answered?;
    }
  }

  /** A request the function rejects before the gateway shows the panel's generic failure. */
  lemma PanelSeesEarlyFailure(req: Incoming, apiKey: Option<string>, upstream: Upstream, parse: string -> ParseOutcome)
    requires req.httpMethod != "OPTIONS" && (req.body.Unreadable? || KeyMissing(apiKey) || upstream.UpstreamThrew?)
    ensures ExchangeOutcome(AsSeenByPanel(Handle(req, apiKey, upstream).reply), parse) == Failed(GenericFailureText)
  {
  }
}
