/**
 * The quest hook: the founder's quest list, newest first, with add
 * (prepend), complete (mark in place) and delete (filter out).
 */
module QuestLedger {
  import opened Wrappers
  import opened Store

  /** A `quests` row. */
  datatype Quest = Quest(
    id: string,
    userId: string,
    title: string,
    description: Option<string>,
    xpReward: int,
    isCompleted: bool,
    completedAt: Option<string>,
    createdAt: string)

  /** The reward `addQuest` uses when the caller passes none. */
  const DefaultXpReward: int := 25

  /**
   * A default parameter applies only to an omitted argument: an explicit
   * reward, zero included, is kept.
   */
  function RewardOrDefault(xpReward: Option<int>): (r: int)
    ensures xpReward.None? ==> r == DefaultXpReward
    ensures xpReward.Some? ==> r == xpReward.value
  {
    xpReward.GetOr(DefaultXpReward)
  }

  predicate HasId(qs: seq<Quest>, id: string) {
    exists i :: 0 <= i < |qs| && qs[i].id == id
  }

  /** `quests.find(q => q.id === questId)`: the first quest with that id. */
  function Find(qs: seq<Quest>, id: string): (r: Option<Quest>)
    ensures r.None? <==> !HasId(qs, id)
    ensures r.Some? ==> exists i :: 0 <= i < |qs| && qs[i] == r.value && r.value.id == id
                                    && forall j :: 0 <= j < i ==> qs[j].id != id
  {
    if |qs| == 0 then None
    else if qs[0].id == id then Some(qs[0])
    else
      var r := Find(qs[1..], id);
      assert HasId(qs, id) ==> HasId(qs[1..], id) by {
        if HasId(qs, id) {
          var i :| 0 <= i < |qs| && qs[i].id == id;
          assert qs[1..][i - 1].id == id;
        }
      }
      assert r.Some? ==> exists i :: 0 <= i < |qs| && qs[i] == r.value && r.value.id == id
                                    && forall j :: 0 <= j < i ==> qs[j].id != id by {
        if r.Some? {
          var i :| 0 <= i < |qs[1..]| && qs[1..][i] == r.value && r.value.id == id
                   && forall j :: 0 <= j < i ==> qs[1..][j].id != id;
          assert qs[i + 1] == r.value;
          forall j | 0 <= j < i + 1 ensures qs[j].id != id {
            if j > 0 { assert qs[j] == qs[1..][j - 1]; }
          }
        }
      }
      r
  }

  /** One quest as `completeQuest` rewrites it in memory. */
  function Completed(q: Quest, at: string): Quest {
    q.(isCompleted := true, completedAt := Some(at))
  }

  /** The in-memory list after `completeQuest`: every quest with the id is marked, the rest are kept. */
  function MarkCompleted(qs: seq<Quest>, id: string, at: string): (r: seq<Quest>)
    ensures |r| == |qs|
    ensures forall i :: 0 <= i < |qs| && qs[i].id != id ==> r[i] == qs[i]
    ensures forall i :: 0 <= i < |qs| && qs[i].id == id ==>
              r[i].isCompleted && r[i].completedAt == Some(at)
              && r[i] == qs[i].(isCompleted := true, completedAt := Some(at))
  {
    if |qs| == 0 then []
    else [if qs[0].id == id then Completed(qs[0], at) else qs[0]] + MarkCompleted(qs[1..], id, at)
  }

  /** Marking an id that is not in the list changes nothing. */
  lemma MarkAbsent(qs: seq<Quest>, id: string, at: string)
    requires !HasId(qs, id)
    ensures MarkCompleted(qs, id, at) == qs
  {
    var r := MarkCompleted(qs, id, at);
    forall i | 0 <= i < |qs| ensures r[i] == qs[i] {
      assert qs[i].id != id;
    }
  }

  /** After marking, the quest found under the id is completed at the given time. */
  lemma MarkThenFind(qs: seq<Quest>, id: string, at: string)
    requires HasId(qs, id)
    ensures Find(MarkCompleted(qs, id, at), id) == Some(Completed(Find(qs, id).value, at))
  {
    var r := MarkCompleted(qs, id, at);
    var i :| 0 <= i < |qs| && qs[i] == Find(qs, id).value && qs[i].id == id
             && forall j :: 0 <= j < i ==> qs[j].id != id;
    assert r[i].id == id;
    assert HasId(r, id);
    var k :| 0 <= k < |r| && r[k] == Find(r, id).value && r[k].id == id
             && forall j :: 0 <= j < k ==> r[j].id != id;
    if k < i {
      assert r[k] == qs[k];
    }
  }

  /** The in-memory list after `deleteQuest`: the quests without the id, in their order. */
  function Without(qs: seq<Quest>, id: string): (r: seq<Quest>)
    ensures |r| <= |qs|
    ensures forall q :: q in r <==> q in qs && q.id != id
  {
    if |qs| == 0 then []
    else (if qs[0].id == id then [] else [qs[0]]) + Without(qs[1..], id)
  }

  /** Filtering distributes over concatenation, so the survivors keep their order. */
  lemma {:induction false} WithoutAppend(a: seq<Quest>, b: seq<Quest>, id: string)
    ensures Without(a + b, id) == Without(a, id) + Without(b, id)
  {
    if |a| == 0 {
      assert a + b == b;
    } else {
      assert (a + b)[1..] == a[1..] + b;
      WithoutAppend(a[1..], b, id);
    }
  }

  /** Deleting an id that is not in the list changes nothing. */
  lemma {:induction false} WithoutAbsent(qs: seq<Quest>, id: string)
    requires !HasId(qs, id)
    ensures Without(qs, id) == qs
  {
    if |qs| > 0 {
      assert qs[0].id != id;
      WithoutAbsent(qs[1..], id);
      assert qs == [qs[0]] + qs[1..];
    }
  }

  /** After a delete no quest has the id, and deleting again changes nothing. */
  lemma WithoutIdempotent(qs: seq<Quest>, id: string)
    ensures !HasId(Without(qs, id), id)
    ensures Without(Without(qs, id), id) == Without(qs, id)
  {
    WithoutAbsent(Without(qs, id), id);
  }

  /** The row a quest insert creates: a new, uncompleted quest. */
  function NewQuest(userId: string, title: string, description: Option<string>, xpReward: Option<int>,
                    id: string, createdAt: string): (q: Quest)
    ensures q.userId == userId && q.title == title && q.description == description
    ensures q.xpReward == RewardOrDefault(xpReward)
    ensures !q.isCompleted && q.completedAt.None?
    ensures q.id == id && q.createdAt == createdAt
  {
    Quest(id, userId, title, description, RewardOrDefault(xpReward), false, None, createdAt)
  }

  /** The update `completeQuest` sends: the rows with this id become completed at this time. */
  datatype CompletionWrite = CompletionWrite(questId: string, completedAt: string)

  class QuestList {
    const user: Option<string>
    var quests: seq<Quest>

    /** The list once the initial load has settled: the user's quests, or empty with no user or on an error. */
    constructor (user: Option<string>, fetched: Option<seq<Quest>>)
      ensures this.user == user
      ensures quests == if user.Some? && fetched.Some? then fetched.value else []
    {
      this.user := user;
      quests := if user.Some? && fetched.Some? then fetched.value else [];
    }

    /**
     * `addQuest`: the stored quest is put in front of the list and returned;
     * with no user or on a store error the result is null and the list is
     * unchanged. The title is not checked.
     */
    method AddQuest(title: string, description: Option<string>, xpReward: Option<int>, outcome: Insert)
      returns (r: Option<Quest>)
      modifies this
      ensures user.None? || outcome.InsertFailed? ==> r.None? && quests == old(quests)
      ensures user.Some? && outcome.Inserted? ==>
                && r == Some(NewQuest(user.value, title, description, xpReward, outcome.id, outcome.createdAt))
                && quests == [r.value] + old(quests)
    {
      if user.None? {
        return None;
      }
      match outcome {
        case InsertFailed =>
          return None;
        case Inserted(id, createdAt) =>
          var q := NewQuest(user.value, title, description, xpReward, id, createdAt);
          quests := [q] + quests;
          return Some(q);
      }
    }

    /**
     * `completeQuest`: with no user, or when no quest has the id, nothing is
     * written and the result is null. Otherwise the completion of that id is
     * written with the store's clock reading; on success every quest with
     * the id is marked completed in memory and the first one's reward is
     * returned, also when it was already completed. The store and the list
     * get separate clock readings.
     */
    method CompleteQuest(questId: string, storeOk: bool, storeNow: string, localNow: string)
      returns (reward: Option<int>, write: Option<CompletionWrite>)
      modifies this
      ensures write.Some? <==> user.Some? && HasId(old(quests), questId)
      ensures write.Some? ==> write.value == CompletionWrite(questId, storeNow)
      ensures write.None? || !storeOk ==> reward.None? && quests == old(quests)
      ensures write.Some? && storeOk ==>
                && reward == Some(Find(old(quests), questId).value.xpReward)
                && quests == MarkCompleted(old(quests), questId, localNow)
    {
      if user.None? {
        return None, None;
      }
      var quest := Find(quests, questId);
      if quest.None? {
        return None, None;
      }
      write := Some(CompletionWrite(questId, storeNow));
      if !storeOk {
        return None, write;
      }
      quests := MarkCompleted(quests, questId, localNow);
      reward := Some(quest.value.xpReward);
    }

    /**
     * `deleteQuest`: with a user, a delete is always written; on success
     * every quest with the id leaves the list and the rest keep their order.
     */
    method DeleteQuest(questId: string, storeOk: bool) returns (wrote: bool)
      modifies this
      ensures wrote <==> user.Some?
      ensures quests == if wrote && storeOk then Without(old(quests), questId) else old(quests)
    {
      if user.None? {
        return false;
      }
      wrote := true;
      if storeOk {
        quests := Without(quests, questId);
      }
    }
  }
}
