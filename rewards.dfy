/** The quest rewards screen: a points balance counted up on a celebration
    overlay, rewards to redeem with points, and a list of achievements whose
    details open one at a time. */
module Rewards {
  import opened Text
  import opened Countdown

  datatype Reward = Reward(id: int, name: string, points: nat, redeemed: bool)

  datatype Achievement = Achievement(id: int, name: string, completed: bool, progress: nat, total: nat, points: nat)

  const InitialRewards: seq<Reward> := [
    Reward(1, "デジタルフォトフレーム", 500, false),
    Reward(2, "お孫さんからのビデオメッセージ", 300, false),
    Reward(3, "家族での食事会クーポン", 1000, false),
    Reward(4, "お好きなお茶セット", 400, true),
    Reward(5, "金の入れ歯（特別限定版）", 2000, false)
  ]

  /** The achievements; the completed ones carry no progress (0 of 0 here). */
  const Achievements: seq<Achievement> := [
    Achievement(1, "初めてのおつかい", true, 0, 0, 100),
    Achievement(2, "週間ミッション", true, 0, 0, 150),
    Achievement(3, "特売マスター", false, 3, 5, 200),
    Achievement(4, "献立お助け", true, 0, 0, 250),
    Achievement(5, "節約の達人", false, 2100, 3000, 300)
  ]

  const InitialTotalPoints: int := 750
  const InitialDisplayedPoints: int := 650

  predicate DistinctIds(rs: seq<Reward>)
  {
    forall i, j :: 0 <= i < j < |rs| ==> rs[i].id != rs[j].id
  }

  /** `rewards.find(r => r.id === id)`: the first reward with that id. */
  function FindReward(rs: seq<Reward>, id: int): (r: Option<Reward>)
    ensures r.Some? ==> r.value in rs && r.value.id == id
    ensures r.None? <==> forall i :: 0 <= i < |rs| ==> rs[i].id != id
  {
    if rs == [] then None else if rs[0].id == id then Some(rs[0]) else FindReward(rs[1..], id)
  }

  /** The spoken answer to a redeem click. */
  datatype Outcome = Started(reward: Reward) | AlreadyRedeemed | NotEnoughPoints

  /** `redeemReward`'s decision: a found, unredeemed, affordable reward starts
      its redemption; a found redeemed one is reported as such; anything else,
      an unknown id included, is answered with "not enough points". */
  function RedeemOutcome(rs: seq<Reward>, totalPoints: int, id: int): (o: Outcome)
    ensures o.Started? <==>
      FindReward(rs, id).Some? && !FindReward(rs, id).value.redeemed && totalPoints >= FindReward(rs, id).value.points
    ensures o.Started? ==> o.reward == FindReward(rs, id).value
    ensures o == AlreadyRedeemed <==> FindReward(rs, id).Some? && FindReward(rs, id).value.redeemed
  {
    var found := FindReward(rs, id);
    if found.Some? && !found.value.redeemed && totalPoints >= found.value.points then Started(found.value)
    else if found.Some? && found.value.redeemed then AlreadyRedeemed
    else NotEnoughPoints
  }

  /** The rewards with every one carrying `id` marked redeemed. */
  function MarkRedeemed(rs: seq<Reward>, id: int): (r: seq<Reward>)
    ensures |r| == |rs|
    ensures forall i :: 0 <= i < |rs| ==> r[i] == if rs[i].id == id then rs[i].(redeemed := true) else rs[i]
  {
    if rs == [] then [] else [if rs[0].id == id then rs[0].(redeemed := true) else rs[0]] + MarkRedeemed(rs[1..], id)
  }

  /** A whole redemption, from the click to the end of the animation: the
      new rewards and balance. */
  function Redeem(rs: seq<Reward>, totalPoints: int, id: int): (res: (seq<Reward>, int))
  {
    var o := RedeemOutcome(rs, totalPoints, id);
    if o.Started? then (MarkRedeemed(rs, id), totalPoints - o.reward.points) else (rs, totalPoints)
  }

  /** A successful redemption takes exactly the reward's points, never goes
      below zero, and marks only that reward; any other outcome changes
      nothing. */
  lemma RedeemBalance(rs: seq<Reward>, totalPoints: int, id: int)
    requires DistinctIds(rs) && totalPoints >= 0
    ensures var (rs', total') := Redeem(rs, totalPoints, id);
      match RedeemOutcome(rs, totalPoints, id)
      case Started(r) =>
        && total' == totalPoints - r.points && total' >= 0
        && (exists k :: 0 <= k < |rs| && rs[k] == r && rs'[k] == r.(redeemed := true)
              && forall i :: 0 <= i < |rs| && i != k ==> rs'[i] == rs[i])
      case _ => rs' == rs && total' == totalPoints
  {
    var o := RedeemOutcome(rs, totalPoints, id);
    if o.Started? {
      var k :| 0 <= k < |rs| && rs[k] == o.reward;
      var rs' := MarkRedeemed(rs, id);
      forall i | 0 <= i < |rs| && i != k ensures rs'[i] == rs[i] {
        assert rs[i].id != rs[k].id;
      }
    }
  }

  /** A redeemed reward cannot be redeemed again. */
  lemma RedeemOnce(rs: seq<Reward>, totalPoints: int, id: int)
    requires DistinctIds(rs) && RedeemOutcome(rs, totalPoints, id).Started?
    ensures var (rs', total') := Redeem(rs, totalPoints, id);
      RedeemOutcome(rs', total', id) == AlreadyRedeemed
  {
    var rs' := MarkRedeemed(rs, id);
    MarkedIsFound(rs, id);
  }

  lemma {:induction false} MarkedIsFound(rs: seq<Reward>, id: int)
    requires FindReward(rs, id).Some?
    ensures FindReward(MarkRedeemed(rs, id), id) == Some(FindReward(rs, id).value.(redeemed := true))
  {
    if rs[0].id != id {
      assert MarkRedeemed(rs, id)[1..] == MarkRedeemed(rs[1..], id);
      MarkedIsFound(rs[1..], id);
    }
  }

  /** One tick of the count-up: five more points, never past the balance. */
  function CountUpStep(displayed: int, total: int): (r: int)
    requires displayed < total
    ensures displayed < r <= total
    ensures r <= displayed + 5
    ensures r == total || r == displayed + 5
  {
    if displayed + 5 <= total then displayed + 5 else total
  }

  /** The displayed points after `n` ticks, the count-up stopping at the balance. */
  function CountUpAfter(displayed: int, total: int, n: nat): int
    decreases n
  {
    if n == 0 || displayed >= total then displayed else CountUpAfter(CountUpStep(displayed, total), total, n - 1)
  }

  /** From below the balance, `n` ticks show `displayed + 5 n` until that
      reaches the balance, and the balance from then on. */
  lemma {:induction false} CountUpReaches(displayed: int, total: int, n: nat)
    requires displayed <= total
    ensures CountUpAfter(displayed, total, n) == if displayed + 5 * n <= total then displayed + 5 * n else total
    decreases n
  {
    if n > 0 && displayed < total {
      CountUpReaches(CountUpStep(displayed, total), total, n - 1);
    }
  }

  /** `calculateProgress`: the rounded percentage, capped at 100. */
  function CalculateProgress(current: nat, total: nat): (r: nat)
    requires total > 0
    ensures r <= 100
    ensures r == 100 || r == RoundedPercent(current, total)
  {
    var p := RoundedPercent(current, total);
    if p <= 100 then p else 100
  }

  /** Progress within the target is not capped, and every unfinished
      achievement has a target, so its bar is drawn below 100. */
  lemma ProgressOfAchievements(current: nat, total: nat)
    requires 0 < total && current <= total
    ensures CalculateProgress(current, total) == RoundedPercent(current, total)
    ensures forall i :: 0 <= i < |Achievements| && !Achievements[i].completed ==>
      0 < Achievements[i].total && Achievements[i].progress < Achievements[i].total
      && CalculateProgress(Achievements[i].progress, Achievements[i].total) < 100
  {
    PercentBounds(current, total);
    assert CalculateProgress(3, 5) == 60;
    assert CalculateProgress(2100, 3000) == 70;
  }

  /** `toggleAchievementDetails`: closes the open achievement, or opens
      another one in its place. */
  function ToggleDetails(expanded: Option<int>, id: int): (r: Option<int>)
    ensures r == Some(id) <==> expanded != Some(id)
    ensures r.None? <==> expanded == Some(id)
  {
    if expanded == Some(id) then None else Some(id)
  }

  /** Opening and closing the same achievement leaves the details as they were. */
  lemma ToggleTwice(expanded: Option<int>, id: int)
    requires expanded != Some(id)
    ensures ToggleDetails(ToggleDetails(expanded, id), id) == None
    ensures ToggleDetails(ToggleDetails(Some(id), id), id) == Some(id)
  {
  }

  /** A redemption waiting for its animation to end, with the balance and
      the rewards as they were when it started. */
  datatype Redemption = Redemption(reward: Reward, pointsBefore: int, rewardsBefore: seq<Reward>)

  class RewardsScreen {
    var showCelebration: bool
    var isConfettiActive: bool
    var rewards: seq<Reward>
    var totalPoints: int
    var displayedPoints: int
    var selectedTab: string
    var activeReward: Option<Reward>
    var showRewardAnimation: bool
    var expandedAchievement: Option<int>
    var pending: Option<Redemption>

    /** The balance is never negative; while the celebration is up the
      count-up stays at or below it; an animation is showing exactly while a
      redemption waits, and that redemption is of an affordable, unredeemed
      reward whose captured state is still the current one (the animation
      covers the screen, so nothing else can change it meanwhile). */
    ghost predicate Valid()
      reads this
    {
      && totalPoints >= 0 && DistinctIds(rewards)
      && (showCelebration ==> displayedPoints <= totalPoints)
      && (showRewardAnimation <==> pending.Some?)
      && (pending.Some? ==>
            var p := pending.value;
            && !showCelebration
            && p.pointsBefore == totalPoints && p.rewardsBefore == rewards
            && RedeemOutcome(rewards, totalPoints, p.reward.id) == Started(p.reward))
    }

    constructor ()
      ensures showCelebration && isConfettiActive && rewards == InitialRewards
      ensures totalPoints == InitialTotalPoints && displayedPoints == InitialDisplayedPoints
      ensures selectedTab == "rewards" && activeReward == None && !showRewardAnimation
      ensures expandedAchievement == None && pending == None
      ensures Valid()
    {
      showCelebration := true;
      isConfettiActive := true;
      rewards := InitialRewards;
      totalPoints := InitialTotalPoints;
      displayedPoints := InitialDisplayedPoints;
      selectedTab := "rewards";
      activeReward := None;
      showRewardAnimation := false;
      expandedAchievement := None;
      pending := None;
    }

    /** One 50 ms tick of the count-up, which runs while the celebration is
      up and the balance has not been reached. */
    method CountUpTick()
      requires Valid() && showCelebration && displayedPoints < totalPoints
      modifies this`displayedPoints
      ensures displayedPoints == CountUpStep(old(displayedPoints), totalPoints)
      ensures Valid()
    {
      displayedPoints := CountUpStep(displayedPoints, totalPoints);
    }

    /** Either button on the celebration overlay. */
    method CloseCelebration()
      requires Valid() && showCelebration
      modifies this`showCelebration
      ensures !showCelebration
      ensures Valid()
    {
      showCelebration := false;
    }

    /** Six seconds after the celebration opened, the confetti stops; the
      timer is cleared when the celebration closes earlier, so it only fires
      while the celebration is still up. */
    method ConfettiTimeout()
      requires showCelebration
      modifies this`isConfettiActive
      ensures !isConfettiActive
    {
      isConfettiActive := false;
    }

    /** A tab button. */
    method SelectTab(tab: string)
      requires tab in ["rewards", "achievements", "ranking"]
      requires !showCelebration && !showRewardAnimation
      modifies this`selectedTab
      ensures selectedTab == tab
    {
      selectedTab := tab;
    }

    /** A click on an achievement. */
    method ToggleAchievementDetails(id: int)
      requires !showCelebration && !showRewardAnimation
      modifies this`expandedAchievement
      ensures expandedAchievement == ToggleDetails(old(expandedAchievement), id)
    {
      expandedAchievement := ToggleDetails(expandedAchievement, id);
    }

    /** A redeem button, reachable once no overlay covers the screen. A
      redemption that can start shows its animation and waits for it;
      points and rewards only change when it ends. */
    method RedeemReward(rewardId: int) returns (outcome: Outcome)
      requires Valid() && !showCelebration && !showRewardAnimation
      modifies this`activeReward, this`showRewardAnimation, this`pending
      ensures outcome == RedeemOutcome(rewards, totalPoints, rewardId)
      ensures outcome.Started? ==>
        && activeReward == Some(outcome.reward) && showRewardAnimation
        && pending == Some(Redemption(outcome.reward, totalPoints, rewards))
      ensures !outcome.Started? ==>
        activeReward == old(activeReward) && !showRewardAnimation && pending == None
      ensures Valid()
    {
      outcome := RedeemOutcome(rewards, totalPoints, rewardId);
      if outcome.Started? {
        activeReward := Some(outcome.reward);
        showRewardAnimation := true;
        pending := Some(Redemption(outcome.reward, totalPoints, rewards));
      }
    }

    /** Three seconds after a redemption started: the captured balance less
      the reward's points, the captured rewards with it marked redeemed,
      and the animation closed. */
    method FinishRedemption()
      requires Valid() && pending.Some?
      modifies this`totalPoints, this`rewards, this`showRewardAnimation, this`pending
      ensures var p := old(pending.value);
        && rewards == Redeem(old(rewards), old(totalPoints), p.reward.id).0
        && totalPoints == Redeem(old(rewards), old(totalPoints), p.reward.id).1
        && totalPoints == old(totalPoints) - p.reward.points
        && rewards == MarkRedeemed(p.rewardsBefore, p.reward.id)
      ensures !showRewardAnimation && pending == None
      ensures Valid()
    {
      var p := pending.value;
      FinishIsRedeem(rewards, totalPoints, p.reward);
      totalPoints := p.pointsBefore - p.reward.points;
      rewards := MarkRedeemed(p.rewardsBefore, p.reward.id);
      showRewardAnimation := false;
      pending := None;
    }
  }

  /** Ending a started redemption is the whole redemption of its reward:
      the balance stays non-negative and the ids stay distinct. */
  lemma FinishIsRedeem(rs: seq<Reward>, totalPoints: int, r: Reward)
    requires DistinctIds(rs) && totalPoints >= 0 && RedeemOutcome(rs, totalPoints, r.id) == Started(r)
    ensures Redeem(rs, totalPoints, r.id).0 == MarkRedeemed(rs, r.id)
    ensures Redeem(rs, totalPoints, r.id).1 == totalPoints - r.points >= 0
    ensures DistinctIds(MarkRedeemed(rs, r.id))
  {
    var rs' := MarkRedeemed(rs, r.id);
    forall i, j | 0 <= i < j < |rs'| ensures rs'[i].id != rs'[j].id {
      assert rs'[i].id == rs[i].id && rs'[j].id == rs[j].id;
    }
  }
}
