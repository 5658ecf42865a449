/**
 * The player card's derived figures: the experience bar, the quest completion
 * rate and the achievement badge. All are computed from the page state on
 * every render; none is stored.
 */
module PlayerStats {
  import Engine

  /** Width of the experience bar: `(xp / xpToNext) * 100`. It divides the
      whole experience, not the part earned within the current level. */
  function XpProgress(xp: int, xpToNext: int): (p: real)
    requires xpToNext > 0
    ensures p * xpToNext as real == 100.0 * xp as real
    ensures p > 100.0 <==> xp > xpToNext
    ensures p == 100.0 <==> xp == xpToNext
    ensures p >= 0.0 <==> xp >= 0
  {
    var x, n := xp as real, xpToNext as real;
    QuotientAgainstOne(x, n);
    assert (x / n) * n == x;
    (x / n) * 100.0
  }

  /** How a quotient by a positive number compares with 1 and with 0. */
  lemma QuotientAgainstOne(x: real, n: real)
    requires n > 0.0
    ensures x / n > 1.0 <==> x > n
    ensures x / n == 1.0 <==> x == n
    ensures x / n >= 0.0 <==> x >= 0.0
  {
    var q := x / n;
    assert q * n == x;
    if q > 1.0 {
      assert q * n > 1.0 * n;
    }
    if q < 1.0 {
      assert q * n < 1.0 * n;
    }
  }

  /** With the page's 200 XP per level the bar shows 100% for every level
      already passed plus the share of the current one, so it is at least 100%
      once the experience reaches 200 (level 2) and above 100% past it. */
  lemma XpBarCountsPassedLevels(xp: nat)
    ensures XpProgress(xp, Engine.XpPerLevel) ==
      100.0 * (Engine.LevelFor(xp) - 1) as real + XpProgress(xp % Engine.XpPerLevel, Engine.XpPerLevel)
    ensures Engine.LevelFor(xp) >= 2 ==> XpProgress(xp, Engine.XpPerLevel) >= 100.0
  {
    var q, r := xp / 200, xp % 200;
    assert xp == 200 * q + r;
    assert (xp as real / 200.0) == q as real + r as real / 200.0;
  }

  /** Completion rate: `completedTasks / totalTasks * 100`, or 0 when there
      are no tasks. */
  function CompletionRate(totalTasks: nat, completedTasks: nat): (r: real)
    ensures totalTasks == 0 ==> r == 0.0
    ensures totalTasks > 0 ==> r * totalTasks as real == 100.0 * completedTasks as real
    ensures completedTasks <= totalTasks ==> 0.0 <= r <= 100.0
  {
    if totalTasks > 0 then
      var c, n := completedTasks as real, totalTasks as real;
      assert c <= n ==> c / n <= 1.0;
      (c / n) * 100.0
    else 0.0
  }

  /** Fed with the page's task list, the rate lies in [0, 100] and is 100
      exactly when there are tasks and every one is cleared. */
  lemma PageCompletionRate(tasks: seq<Engine.Task>)
    ensures var r := CompletionRate(|tasks|, |Engine.ClearedTasks(tasks)|);
      && 0.0 <= r <= 100.0
      && (r == 100.0 <==> tasks != [] && forall i :: 0 <= i < |tasks| ==> tasks[i].completed)
  {
    Engine.AllClearedIff(tasks);
    var n, c := |tasks|, |Engine.ClearedTasks(tasks)|;
    if n > 0 {
      FullRateIffAll(n, c);
    }
  }

  /** The card's figure, fed with the page's `completedTasks` count, obeys
      the same bounds and reaches 100 exactly when every task is cleared. */
  lemma CardCompletionRate(p: Engine.Progression)
    ensures var r := CompletionRate(|p.tasks|, p.CompletedCount());
      && 0.0 <= r <= 100.0
      && (r == 100.0 <==> p.tasks != [] && forall i :: 0 <= i < |p.tasks| ==> p.tasks[i].completed)
  {
    PageCompletionRate(p.tasks);
  }

  /** On a nonempty list the rate is 100 exactly when all are completed. */
  lemma FullRateIffAll(n: nat, c: nat)
    requires 0 < n && c <= n
    ensures CompletionRate(n, c) == 100.0 <==> c == n
  {
    var r := CompletionRate(n, c);
    assert r * n as real == 100.0 * c as real;
  }

  /** The achievement badge. */
  datatype Badge = NewAdventurer | RisingWarrior | QuestMaster

  /** Rank of a badge, lowest first. */
  function BadgeTier(b: Badge): nat {
    match b
    case NewAdventurer => 0
    case RisingWarrior => 1
    case QuestMaster => 2
  }

  /** The text shown on a badge. */
  function BadgeLabel(b: Badge): string {
    match b
    case NewAdventurer => "New Adventurer"
    case RisingWarrior => "Rising Warrior"
    case QuestMaster => "Quest Master"
  }

  /** The badge for a level: Quest Master from level 5, Rising Warrior at
      levels 3 and 4, New Adventurer below; the card shows its label. */
  function BadgeFor(level: int): (b: Badge)
    ensures b == QuestMaster <==> level >= 5
    ensures b == RisingWarrior <==> 3 <= level < 5
    ensures b == NewAdventurer <==> level < 3
    ensures BadgeLabel(b) == "Quest Master" <==> level >= 5
    ensures BadgeLabel(b) == "Rising Warrior" <==> 3 <= level < 5
    ensures BadgeLabel(b) == "New Adventurer" <==> level < 3
  {
    if level >= 5 then QuestMaster else if level >= 3 then RisingWarrior else NewAdventurer
  }

  /** A higher level never shows a lower badge. */
  lemma BadgeMonotone(l1: int, l2: int)
    requires l1 <= l2
    ensures BadgeTier(BadgeFor(l1)) <= BadgeTier(BadgeFor(l2))
  {
  }
}
