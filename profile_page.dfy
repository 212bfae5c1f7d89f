/** The profile page of src/pages/ProfilePage.tsx: the level derived from
    the XP total, and which achievements show as unlocked. The page loads
    the achievement catalogue once and never changes its XP total or its
    list of the user's achievements. */
module ProfilePage {

  datatype Achievement = Achievement(id: string, code: string, name: string, description: string, icon: string, xpReward: int)

  datatype UserAchievement = UserAchievement(id: string, achievementId: string, unlockedAt: string)

  /** `Math.floor(totalXP / 1000) + 1`. */
  function Level(totalXP: int): int {
    totalXP / 1000 + 1
  }

  /** Level `n + 1` is exactly the XP range `[1000 n, 1000 (n + 1))`; so the
      level is at least 1 for any XP that is not negative, and it goes up
      by one exactly when the XP reaches a multiple of 1000. */
  lemma LevelBands(totalXP: int, n: int)
    ensures Level(totalXP) == n + 1 <==> 1000 * n <= totalXP < 1000 * (n + 1)
    ensures totalXP >= 0 ==> Level(totalXP) >= 1
    ensures Level(totalXP + 1) == Level(totalXP) + 1 <==> (totalXP + 1) % 1000 == 0
    ensures Level(totalXP + 1) == Level(totalXP) || Level(totalXP + 1) == Level(totalXP) + 1
  {
  }

  /** The ids of the achievements the user holds, `unlockedIds`. */
  function UnlockedIds(mine: seq<UserAchievement>): set<string> {
    set i | 0 <= i < |mine| :: mine[i].achievementId
  }

  /** An achievement shows unlocked exactly when one of the user's records
      names its id. */
  lemma UnlockedIff(mine: seq<UserAchievement>, a: Achievement)
    ensures a.id in UnlockedIds(mine) <==> exists i :: 0 <= i < |mine| && mine[i].achievementId == a.id
  {
  }

  /** The page's state. */
  class Profile {
    var achievements: seq<Achievement>
    var myAchievements: seq<UserAchievement>
    var totalXP: int

    /** Nothing loaded, no XP. */
    constructor ()
      ensures achievements == [] && myAchievements == [] && totalXP == 0
    {
      achievements := [];
      myAchievements := [];
      totalXP := 0;
    }

    /** `loadData`: the catalogue is stored, nothing else changes. */
    method LoadData(all: seq<Achievement>)
      modifies this
      ensures achievements == all
      ensures myAchievements == old(myAchievements) && totalXP == old(totalXP)
    {
      achievements := all;
    }

    /** The figures in the header: achievement count, XP and level. */
    function Stats(): (int, int, int)
      reads this
    {
      (|myAchievements|, totalXP, Level(totalXP))
    }
  }

  /** Since no code path changes the XP or the user's achievements, a page
      shows level 1, 0 XP and 0 achievements, however often it loads. */
  method FreshPageStats(loads: seq<seq<Achievement>>) returns (stats: (int, int, int))
    ensures stats == (0, 0, 1)
  {
    var page := new Profile();
    for i := 0 to |loads|
      invariant page.myAchievements == [] && page.totalXP == 0
    {
      page.LoadData(loads[i]);
    }
    stats := page.Stats();
  }
}
