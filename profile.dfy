/**
 * The profile hook: the signed-in founder's profile row and its two
 * updates, XP gain (which recomputes the level) and streak.
 */
module ProfileStore {
  import opened Wrappers
  import opened Text
  import opened Levels

  /** A `profiles` row. */
  datatype Profile = Profile(
    id: string,
    userId: string,
    displayName: Option<string>,
    currentLevel: int,
    totalXp: int,
    currentStreak: int,
    lastActiveDate: Option<string>)

  /** The column values an update sends to the store. */
  datatype XpWrite = XpWrite(totalXp: int, currentLevel: int, lastActiveDate: string)

  datatype StreakWrite = StreakWrite(currentStreak: int, lastActiveDate: string)

  /** `new Date().toISOString().split('T')[0]`, from the timestamp passed in. */
  function Today(nowIso: string): (date: string)
    ensures StartsWith(nowIso, date) && 'T' !in date
  {
    DatePart(nowIso)
  }

  /** The profile after an XP gain is stored: only the total and the level change. */
  function AwardXP(p: Profile, xpToAdd: int): (q: Profile)
    ensures q.totalXp == p.totalXp + xpToAdd
    ensures (q.currentLevel - 1) * LevelWidth <= q.totalXp < q.currentLevel * LevelWidth
    ensures q == p.(totalXp := q.totalXp, currentLevel := q.currentLevel)
  {
    var total := p.totalXp + xpToAdd;
    p.(totalXp := total, currentLevel := Level(total))
  }

  /** The level always follows the total. */
  predicate LevelConsistent(p: Profile) {
    p.currentLevel == Level(p.totalXp)
  }

  /** An award leaves the profile level-consistent, whatever its level was before. */
  lemma AwardMakesConsistent(p: Profile, xpToAdd: int)
    ensures LevelConsistent(AwardXP(p, xpToAdd))
  {
    LevelUnique(AwardXP(p, xpToAdd).totalXp, AwardXP(p, xpToAdd).currentLevel);
  }

  /** Two awards in a row equal one award of the sum. */
  lemma AwardsAdd(p: Profile, a: int, b: int)
    ensures AwardXP(AwardXP(p, a), b) == AwardXP(p, a + b)
  {
    var q, r, s := AwardXP(p, a), AwardXP(AwardXP(p, a), b), AwardXP(p, a + b);
    LevelUnique(r.totalXp, r.currentLevel);
    LevelUnique(s.totalXp, s.currentLevel);
  }

  /** A non-negative award never lowers the level of a consistent profile. */
  lemma AwardNeverLowersLevel(p: Profile, xpToAdd: int)
    requires LevelConsistent(p) && xpToAdd >= 0
    ensures AwardXP(p, xpToAdd).currentLevel >= p.currentLevel
  {
    AwardMakesConsistent(p, xpToAdd);
    LevelMonotone(p.totalXp, p.totalXp + xpToAdd);
  }

  /** The profile after a streak update is stored: only the streak changes, to exactly the given value. */
  function WithStreak(p: Profile, newStreak: int): (q: Profile)
    ensures q.currentStreak == newStreak
    ensures q.(currentStreak := p.currentStreak) == p
  {
    p.(currentStreak := newStreak)
  }

  class ProfileState {
    const user: Option<string>
    var profile: Option<Profile>

    /**
     * The profile once the initial load has settled: null with no user or
     * when the fetch failed, otherwise the row found (or null when there is
     * none). `fetched` is None for a failed fetch.
     */
    constructor (user: Option<string>, fetched: Option<Option<Profile>>)
      ensures this.user == user
      ensures profile == if user.Some? && fetched.Some? then fetched.value else None
    {
      this.user := user;
      profile := if user.Some? && fetched.Some? then fetched.value else None;
    }

    /**
     * `updateXP`: with no user or no profile nothing is written. Otherwise
     * the new total, the level computed from it and today's date are
     * written; the profile in memory takes the new total and level only
     * when the store reports success.
     */
    method UpdateXP(xpToAdd: int, storeOk: bool, nowIso: string) returns (write: Option<XpWrite>)
      modifies this
      ensures user.None? || old(profile).None? ==> write.None? && profile == old(profile)
      ensures user.Some? && old(profile).Some? ==>
                && write == Some(XpWrite(old(profile).value.totalXp + xpToAdd,
                                         Level(old(profile).value.totalXp + xpToAdd), Today(nowIso)))
                && profile == if storeOk then Some(AwardXP(old(profile).value, xpToAdd)) else old(profile)
    {
      if user.None? || profile.None? {
        return None;
      }
      var newTotalXP := profile.value.totalXp + xpToAdd;
      var newLevel := newTotalXP / 100 + 1;
      write := Some(XpWrite(newTotalXP, newLevel, Today(nowIso)));
      if storeOk {
        profile := Some(profile.value.(totalXp := newTotalXP, currentLevel := newLevel));
      }
    }

    /**
     * `updateStreak`: the given value is stored as is, with no day
     * arithmetic; the profile in memory changes only its streak, and only
     * on success.
     */
    method UpdateStreak(newStreak: int, storeOk: bool, nowIso: string) returns (write: Option<StreakWrite>)
      modifies this
      ensures user.None? || old(profile).None? ==> write.None? && profile == old(profile)
      ensures user.Some? && old(profile).Some? ==>
                && write == Some(StreakWrite(newStreak, Today(nowIso)))
                && profile == if storeOk then Some(WithStreak(old(profile).value, newStreak)) else old(profile)
    {
      if user.None? || profile.None? {
        return None;
      }
      write := Some(StreakWrite(newStreak, Today(nowIso)));
      if storeOk {
        profile := Some(profile.value.(currentStreak := newStreak));
      }
    }
  }
}
