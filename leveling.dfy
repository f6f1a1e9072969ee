/** Level arithmetic. Leaving level L takes L * 100 experience. The shop
    handlers each apply one of three single-step rules after adding
    experience; `Resolve` is the looped reference rule (subtract the
    threshold and advance for as long as it is reached), and the lemmas
    here say exactly when each handler rule agrees with it. */
module Leveling {
  import Js

  /** Experience needed to leave `level`. */
  function Threshold(level: int): int {
    level * 100
  }

  /** The progression invariant: a positive level and experience below its
      threshold. */
  predicate Normalized(level: int, experience: int) {
    1 <= level && 0 <= experience < Threshold(level)
  }

  /** Experience earned since level 1, start of the session: the thresholds
      of levels 1 .. level - 1 plus the current experience. */
  function TotalExperience(level: int, experience: int): int {
    50 * level * (level - 1) + experience
  }

  /** Reference rule: while experience reaches the threshold of the current
      level, subtract that threshold and advance one level. It keeps every
      point of experience and always ends in a normalized state. */
  function Resolve(level: int, experience: int): (r: (int, int))
    requires 1 <= level
    ensures r.0 >= level
    ensures 0 <= experience ==> Normalized(r.0, r.1)
    ensures TotalExperience(r.0, r.1) == TotalExperience(level, experience)
    decreases if experience < 0 then 0 else experience
  {
    if experience < Threshold(level) then (level, experience)
    else
      var r := Resolve(level + 1, experience - Threshold(level));
      assert TotalExperience(level + 1, experience - Threshold(level))
          == TotalExperience(level, experience) by {
        assert 50 * (level + 1) * level == 50 * level * (level - 1) + 100 * level;
      }
      r
  }

  /** The purchase handlers' rule: one `if`, then `experience % 100`. At
      most one level is gained, exactly when the threshold is reached, and
      a level-up from non-negative experience leaves less than 100. */
  function ModuloLevelUp(level: int, experience: int): (r: (int, int))
    ensures r.0 == level + 1 <==> experience >= Threshold(level)
    ensures r.0 == level <==> experience < Threshold(level)
    ensures r.0 == level ==> r.1 == experience
    ensures r.0 == level + 1 && experience >= 0 ==> 0 <= r.1 < 100
  {
    if experience >= Threshold(level) then (level + 1, Js.Remainder(experience, 100))
    else (level, experience)
  }

  /** The chat and simulated-voice rule: one `if`, then experience 0. At
      most one level is gained, exactly when the threshold is reached, and
      a level-up starts the new level empty. */
  function ResetLevelUp(level: int, experience: int): (r: (int, int))
    ensures r.0 == level + 1 <==> experience >= Threshold(level)
    ensures r.0 == level <==> experience < Threshold(level)
    ensures r.0 == level ==> r.1 == experience
    ensures r.0 == level + 1 ==> r.1 == 0
  {
    if experience >= Threshold(level) then (level + 1, 0)
    else (level, experience)
  }

  /** From a normalized state an award of at most 100 crosses at most one
      threshold. */
  lemma ResolveSingleCrossing(level: int, experience: int, award: int)
    requires Normalized(level, experience) && 0 <= award <= 100
    ensures Resolve(level, experience + award)
         == if experience + award >= Threshold(level)
            then (level + 1, experience + award - Threshold(level))
            else (level, experience + award)
  {
    var x := experience + award;
    if x >= Threshold(level) {
      assert x - Threshold(level) < Threshold(level + 1);
    }
  }

  /** Adding a multiple of 100 does not change a remainder by 100. */
  lemma {:induction false} RemainderAfterThresholds(level: nat, k: int)
    requires 0 <= k < 100
    ensures (Threshold(level) + k) % 100 == k
  {
    if level > 0 {
      RemainderAfterThresholds(level - 1, k);
      assert Threshold(level) + k == (Threshold(level - 1) + k) + 100;
    }
  }

  /** The `% 100` purchase rule agrees with the reference rule whenever the
      invariant held before and the award is at most 100 (the purchases
      award 20). */
  lemma {:induction false} ModuloMatchesResolve(level: int, experience: int, award: int)
    requires Normalized(level, experience) && 0 <= award <= 100
    ensures ModuloLevelUp(level, experience + award) == Resolve(level, experience + award)
  {
    ResolveSingleCrossing(level, experience, award);
    var x := experience + award;
    if x >= Threshold(level) {
      RemainderAfterThresholds(level, x - Threshold(level));
    }
  }

  /** The `% 100` rule always lands in a normalized state, whatever
      non-negative experience it is given. */
  lemma ModuloKeepsNormalized(level: int, experience: int)
    requires 1 <= level && 0 <= experience
    ensures Normalized(ModuloLevelUp(level, experience).0, ModuloLevelUp(level, experience).1)
  {
  }

  /** On an award above 100 the `% 100` rule drops experience and can miss
      a level: from level 1, 250 gives level 2 with 50 where the reference
      rule keeps level 2 with 150, and 300 gives level 2 with 0 where the
      reference rule reaches level 3 with 0. */
  lemma ModuloMissesLargeAward()
    ensures ModuloLevelUp(1, 0 + 250) == (2, 50)
    ensures Resolve(1, 0 + 250) == (2, 150)
    ensures ModuloLevelUp(1, 0 + 300) == (2, 0)
    ensures Resolve(1, 0 + 300) == (3, 0)
  {
    assert Resolve(2, 150) == (2, 150);
    assert Resolve(3, 0) == (3, 0);
    assert Resolve(2, 200) == Resolve(3, 0);
  }

  /** After unchecked awards have left experience above the threshold, the
      `% 100` rule discards experience: level 1 with 180, plus 20, gives
      level 2 with 0, where the reference rule gives level 2 with 100. */
  lemma ModuloDivergesWhenDenormalized()
    ensures !Normalized(1, 180)
    ensures ModuloLevelUp(1, 180 + 20) == (2, 0)
    ensures Resolve(1, 180 + 20) == (2, 100)
  {
  }

  /** The reset rule agrees with the reference rule exactly when the award
      lands at or below the threshold; any overflow past it is lost. */
  lemma ResetMatchesResolveIff(level: int, experience: int, award: int)
    requires Normalized(level, experience) && 0 <= award <= 100
    ensures ResetLevelUp(level, experience + award) == Resolve(level, experience + award)
        <==> experience + award <= Threshold(level)
  {
    ResolveSingleCrossing(level, experience, award);
  }

  /** How much the reset rule forgets: the overflow past the threshold. */
  lemma ResetDiscardsOverflow(level: int, experience: int, award: int)
    requires Normalized(level, experience) && 0 <= award <= 100
    ensures var r := ResetLevelUp(level, experience + award);
      TotalExperience(r.0, r.1) == TotalExperience(level, experience + award)
        - (if experience + award >= Threshold(level) then experience + award - Threshold(level) else 0)
  {
    var x := experience + award;
    if x >= Threshold(level) {
      assert 50 * (level + 1) * level == 50 * level * (level - 1) + 100 * level;
    }
  }

  /** The reset rule keeps the invariant. */
  lemma ResetKeepsNormalized(level: int, experience: int)
    requires 1 <= level && 0 <= experience
    ensures Normalized(ResetLevelUp(level, experience).0, ResetLevelUp(level, experience).1)
  {
  }

  /** With no level check at all, the state agrees with the reference rule
      exactly while the award stays below the threshold; from there on
      experience sits at or past the threshold without a level-up. */
  lemma UncheckedMatchesResolveIff(level: int, experience: int, award: int)
    requires Normalized(level, experience) && 0 <= award
    ensures (level, experience + award) == Resolve(level, experience + award)
        <==> experience + award < Threshold(level)
    ensures Normalized(level, experience + award) <==> experience + award < Threshold(level)
  {
    if experience + award >= Threshold(level) {
      assert Resolve(level, experience + award).0 > level;
    }
  }
}
