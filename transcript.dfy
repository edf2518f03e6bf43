/**
 * The chat transcript hook: the `messages` sequence and the three ways it
 * changes (a stored message appended, an optimistic placeholder appended,
 * the last entry's content overwritten).
 */
module Transcript {
  import opened Wrappers
  import opened Text
  import opened Store

  datatype Role = User | Assistant

  /** A `chat_messages` row as the client holds it. */
  datatype ChatMessage = ChatMessage(id: string, userId: string, role: Role, content: string, createdAt: string)

  /** Ids of optimistic entries start with this. */
  const TempPrefix: string := "temp-"

  predicate IsTemp(m: ChatMessage) {
    StartsWith(m.id, TempPrefix)
  }

  /**
   * The transcript after `updateLastMessage(content)`: when the last entry
   * is an assistant message its content becomes `content`; otherwise, and
   * on an empty transcript, nothing changes. Only the role is checked.
   */
  function WithLastContent(ms: seq<ChatMessage>, content: string): seq<ChatMessage> {
    if |ms| == 0 || ms[|ms| - 1].role != Assistant then ms
    else ms[..|ms| - 1] + [ms[|ms| - 1].(content := content)]
  }

  /**
   * Entry by entry: the length, every earlier entry and every id, owner,
   * role and timestamp stay; only the last content can change, and only
   * for an assistant entry.
   */
  lemma UpdateTouchesLastOnly(ms: seq<ChatMessage>, content: string)
    ensures var r := WithLastContent(ms, content);
            && |r| == |ms|
            && (forall i :: 0 <= i < |ms| - 1 ==> r[i] == ms[i])
            && (forall i :: 0 <= i < |ms| ==>
                  r[i].id == ms[i].id && r[i].userId == ms[i].userId
                  && r[i].role == ms[i].role && r[i].createdAt == ms[i].createdAt)
            && (|ms| > 0 ==>
                  r[|ms| - 1].content == (if ms[|ms| - 1].role == Assistant then content else ms[|ms| - 1].content))
  {
  }

  /** An update that the guard refuses leaves the transcript as it was. */
  lemma RefusedUpdate(ms: seq<ChatMessage>, content: string)
    requires |ms| == 0 || ms[|ms| - 1].role == User
    ensures WithLastContent(ms, content) == ms
  {
  }

  /** Each update replaces the last content outright: only the latest one is visible. */
  lemma {:induction false} LatestUpdateWins(ms: seq<ChatMessage>, a: string, b: string)
    ensures WithLastContent(WithLastContent(ms, a), b) == WithLastContent(ms, b)
  {
    var r := WithLastContent(WithLastContent(ms, a), b);
    var t := WithLastContent(ms, b);
    UpdateTouchesLastOnly(ms, a);
    UpdateTouchesLastOnly(WithLastContent(ms, a), b);
    UpdateTouchesLastOnly(ms, b);
    forall i | 0 <= i < |r| ensures r[i] == t[i] {
    }
  }

  /**
   * The streaming pattern: after an assistant entry is appended, updates
   * land on that entry and leave every earlier one alone, whatever its id.
   */
  lemma UpdateLandsOnLast(ms: seq<ChatMessage>, m: ChatMessage, content: string)
    requires m.role == Assistant
    ensures WithLastContent(ms + [m], content) == ms + [m.(content := content)]
  {
    assert (ms + [m])[..|ms|] == ms;
  }

  /** After a user entry was appended last, updates are refused. */
  lemma UpdateAfterUser(ms: seq<ChatMessage>, m: ChatMessage, content: string)
    requires m.role == User
    ensures WithLastContent(ms + [m], content) == ms + [m]
  {
  }

  /** The optimistic entry `addOptimisticMessage` creates. */
  function Optimistic(user: Option<string>, role: Role, content: string, nowMillis: nat, nowIso: string): (m: ChatMessage)
    ensures IsTemp(m)
    ensures m.id[|TempPrefix|..] == NatToDecimal(nowMillis)
    ensures m.role == role && m.content == content && m.createdAt == nowIso
    ensures m.userId == if user.Some? then user.value else ""
  {
    var id := TempPrefix + NatToDecimal(nowMillis);
    assert id[..|TempPrefix|] == TempPrefix;
    assert id[|TempPrefix|..] == NatToDecimal(nowMillis);
    ChatMessage(id, if user.Some? then user.value else "", role, content, nowIso)
  }

  /** Two optimistic entries made at different milliseconds get different ids. */
  lemma OptimisticIdsDiffer(user: Option<string>, r1: Role, c1: string, t1: nat, i1: string,
                            r2: Role, c2: string, t2: nat, i2: string)
    requires t1 != t2
    ensures Optimistic(user, r1, c1, t1, i1).id != Optimistic(user, r2, c2, t2, i2).id
  {
  }

  /** The messages a store insert adds: the returned row, or nothing with no user or on an error. */
  function Stored(user: Option<string>, role: Role, content: string, outcome: Insert): (r: Option<ChatMessage>)
    ensures r.Some? <==> user.Some? && outcome.Inserted?
    ensures r.Some? ==> r.value.userId == user.value && r.value.role == role && r.value.content == content
                        && r.value.id == outcome.id && r.value.createdAt == outcome.createdAt
  {
    if user.None? then None
    else match outcome
      case InsertFailed => None
      case Inserted(id, createdAt) => Some(ChatMessage(id, user.value, role, content, createdAt))
  }

  /** The transcript of one signed-in (or signed-out) session. */
  class ChatMessages {
    const user: Option<string>
    var messages: seq<ChatMessage>

    /**
     * The transcript once the initial load has settled: empty with no user
     * or when the fetch failed, otherwise the fetched rows (a null result
     * counts as no rows).
     */
    constructor (user: Option<string>, fetched: Option<seq<ChatMessage>>)
      ensures this.user == user
      ensures messages == if user.Some? && fetched.Some? then fetched.value else []
    {
      this.user := user;
      messages := if user.Some? && fetched.Some? then fetched.value else [];
    }

    /** `fetchMessages`: replaces the transcript with the user's rows; keeps it on an error or with no user. */
    method FetchMessages(fetched: Option<seq<ChatMessage>>)
      modifies this
      ensures messages == if user.Some? && fetched.Some? then fetched.value else old(messages)
    {
      if user.Some? && fetched.Some? {
        messages := fetched.value;
      }
    }

    /**
     * `addMessage`: on a stored insert the returned row is appended at the
     * end; with no user or on a store error it returns null and the
     * transcript is unchanged. Nothing already there is removed or replaced.
     */
    method AddMessage(role: Role, content: string, outcome: Insert) returns (r: Option<ChatMessage>)
      modifies this
      ensures r == Stored(user, role, content, outcome)
      ensures messages == old(messages) + (if r.Some? then [r.value] else [])
    {
      r := Stored(user, role, content, outcome);
      if r.Some? {
        messages := messages + [r.value];
      }
    }

    /** `updateLastMessage`. */
    method UpdateLastMessage(content: string)
      modifies this
      ensures messages == WithLastContent(old(messages), content)
    {
      var lastIndex := |messages| - 1;
      if lastIndex < 0 || messages[lastIndex].role != Assistant {
        return;
      }
      messages := messages[lastIndex := messages[lastIndex].(content := content)];
    }

    /** `addOptimisticMessage`: exactly one `temp-` entry appended at the end, returned as well. */
    method AddOptimisticMessage(role: Role, content: string, nowMillis: nat, nowIso: string) returns (m: ChatMessage)
      modifies this
      ensures m == Optimistic(user, role, content, nowMillis, nowIso)
      ensures messages == old(messages) + [m]
    {
      m := Optimistic(user, role, content, nowMillis, nowIso);
      messages := messages + [m];
    }
  }
}
