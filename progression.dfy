/**
 * The level rule of the profile hook: a level is 100 XP wide and level 1
 * starts at 0 XP, so the level is `Math.floor(totalXP / 100) + 1`. Dafny's
 * `/` on `int` with a positive divisor rounds toward negative infinity,
 * exactly as `Math.floor` of the quotient does, so the formula is written
 * as is for every integer total.
 */
module Levels {

  /** XP per level. */
  const LevelWidth: int := 100

  /** The level for a total: the unique `l` with `(l - 1) * 100 <= total < l * 100`. */
  function Level(total: int): (level: int)
    ensures (level - 1) * LevelWidth <= total < level * LevelWidth
  {
    total / LevelWidth + 1
  }

  /** `Level` is the only level whose band holds the total. */
  lemma LevelUnique(total: int, l: int)
    requires (l - 1) * LevelWidth <= total < l * LevelWidth
    ensures l == Level(total)
  {
  }

  /** A non-negative total is at least level 1. */
  lemma LevelAtLeastOne(total: int)
    requires total >= 0
    ensures Level(total) >= 1
  {
  }

  /** More XP never lowers the level. */
  lemma LevelMonotone(a: int, b: int)
    requires a <= b
    ensures Level(a) <= Level(b)
  {
  }

  /** A gain of less than 100 XP raises the level by at most one. */
  lemma LevelStep(total: int, gain: int)
    requires 0 <= gain < LevelWidth
    ensures Level(total) <= Level(total + gain) <= Level(total) + 1
  {
    LevelMonotone(total, total + gain);
  }

  /** The thresholds: 0 and 99 are level 1, 100 is level 2, 250 level 3, 300 level 4. */
  lemma LevelExamples()
    ensures Level(0) == 1 && Level(99) == 1 && Level(100) == 2
    ensures Level(250) == 3 && Level(300) == 4
  {
    LevelUnique(0, 1);
    LevelUnique(99, 1);
    LevelUnique(100, 2);
    LevelUnique(250, 3);
    LevelUnique(300, 4);
  }

  /** Three 25-XP quests from 225 XP: level 3, 3, 3, then 4 at 300. */
  lemma QuestRunExample()
    ensures Level(225) == 3 && Level(225 + 25) == 3
    ensures Level(225 + 2 * 25) == 3 && Level(225 + 3 * 25) == 4
  {
    LevelUnique(225, 3);
    LevelUnique(250, 3);
    LevelUnique(275, 3);
    LevelUnique(300, 4);
  }
}

/** The progress arithmetic of the dashboard's XP card. */
module XPCard {
  import opened Levels

  function XpForCurrentLevel(level: int): (xp: int)
    ensures xp + LevelWidth == XpForNextLevel(level)
  {
    (level - 1) * 100
  }

  function XpForNextLevel(level: int): int {
    level * 100
  }

  /** The card's divisor: always 100, whatever the level. */
  const XpNeeded: int := 100

  /** XP earned inside the current level. */
  function XpInCurrentLevel(level: int, totalXP: int): (xp: int)
    ensures xp + XpForCurrentLevel(level) == totalXP
  {
    totalXP - XpForCurrentLevel(level)
  }

  /**
   * With a level that follows the profile's rule, the XP shown inside the
   * level is the total's remainder modulo 100, so it lies in [0, 100).
   */
  lemma InLevelIsRemainder(totalXP: int)
    ensures XpInCurrentLevel(Level(totalXP), totalXP) == totalXP % XpNeeded
    ensures 0 <= XpInCurrentLevel(Level(totalXP), totalXP) < XpNeeded
  {
    assert totalXP == (totalXP / 100) * 100 + totalXP % 100;
  }

  /** The label names the following level. */
  function NextLevelLabel(level: int): (shown: int)
    ensures Level(XpForNextLevel(level)) == shown
  {
    LevelUnique(XpForNextLevel(level), level + 1);
    level + 1
  }

  /** The streak badge is rendered only for a positive streak. */
  predicate ShowsStreakBadge(currentStreak: int) {
    currentStreak > 0
  }
}

/** The progress arithmetic of the heads-up bar. */
module Hud {
  import opened Levels
  import XPCard

  function XpForCurrentLevel(level: int): int {
    (level - 1) * 100
  }

  function XpForNextLevel(level: int): int {
    level * 100
  }

  /** The bar's progress: the XP above the current level's threshold. */
  function XpProgress(level: int, xp: int): int {
    xp - XpForCurrentLevel(level)
  }

  /** The bar's divisor, computed from the two thresholds. */
  function XpNeeded(level: int): (needed: int)
    ensures needed == LevelWidth
  {
    XpForNextLevel(level) - XpForCurrentLevel(level)
  }

  /** With a level that follows the profile's rule, the bar's progress lies in [0, 100). */
  lemma ProgressInBand(xp: int)
    ensures 0 <= XpProgress(Level(xp), xp) < XpNeeded(Level(xp))
  {
  }

  /** The heads-up bar and the dashboard card show the same in-level XP. */
  lemma AgreesWithCard(level: int, xp: int)
    ensures XpProgress(level, xp) == XPCard.XpInCurrentLevel(level, xp)
  {
  }

  /** The flame is drawn in its active style only for a positive streak. */
  predicate FlameActive(streak: int) {
    streak > 0
  }

  /** The bar's flame is lit exactly when the dashboard card shows its streak badge. */
  lemma FlameMatchesBadge(streak: int)
    ensures FlameActive(streak) <==> XPCard.ShowsStreakBadge(streak)
  {
  }
}
