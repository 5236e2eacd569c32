/** The smaller animated rewards screen: the same celebration and count-up
    as the full rewards screen, and three rewards that can be taken again
    and again while the points last. */
module QuestRewards {
  import opened Text
  import opened Rewards

  datatype Offer = Offer(id: int, name: string, points: nat)

  const Offers: seq<Offer> := [
    Offer(1, "デジタルフォトフレーム", 500),
    Offer(2, "お孫さんからのビデオメッセージ", 300),
    Offer(3, "家族での食事会クーポン", 1000)
  ]

  /** `redeemReward`'s decision and the balance once the animation ends: the
      reward is taken exactly when the balance covers it. There is no
      record of what was taken. */
  function Spend(totalPoints: int, offer: Offer): (r: Option<int>)
    ensures r.Some? <==> totalPoints >= offer.points
    ensures r.Some? ==> r.value == totalPoints - offer.points && 0 <= r.value
  {
    if totalPoints >= offer.points then Some(totalPoints - offer.points) else None
  }

  /** The balance after a run of clicks, each one's animation ending before the next. */
  function SpendAll(totalPoints: int, clicks: seq<Offer>): int
    decreases |clicks|
  {
    if clicks == [] then totalPoints
    else match Spend(totalPoints, clicks[0])
      case Some(t) => SpendAll(t, clicks[1..])
      case None => SpendAll(totalPoints, clicks[1..])
  }

  /** The clicks of such a run that were taken. */
  function Taken(totalPoints: int, clicks: seq<Offer>): seq<Offer>
    decreases |clicks|
  {
    if clicks == [] then []
    else match Spend(totalPoints, clicks[0])
      case Some(t) => [clicks[0]] + Taken(t, clicks[1..])
      case None => Taken(totalPoints, clicks[1..])
  }

  function PointsOf(offers: seq<Offer>): int
  {
    if offers == [] then 0 else offers[0].points + PointsOf(offers[1..])
  }

  /** Over any run of clicks the balance falls by exactly the points of the
      rewards taken and never below zero. */
  lemma {:induction false} SpendAllBalance(totalPoints: int, clicks: seq<Offer>)
    requires totalPoints >= 0
    ensures SpendAll(totalPoints, clicks) == totalPoints - PointsOf(Taken(totalPoints, clicks))
    ensures SpendAll(totalPoints, clicks) >= 0
    decreases |clicks|
  {
    if clicks != [] {
      match Spend(totalPoints, clicks[0])
      case Some(t) =>
        SpendAllBalance(t, clicks[1..]);
        assert ([clicks[0]] + Taken(t, clicks[1..]))[1..] == Taken(t, clicks[1..]);
      case None =>
        SpendAllBalance(totalPoints, clicks[1..]);
    }
  }

  /** Unlike the full rewards screen, the same reward can be taken twice in a
      row whenever the balance covers it twice. */
  lemma TakenTwice(totalPoints: int, offer: Offer)
    requires totalPoints >= 2 * offer.points
    ensures Taken(totalPoints, [offer, offer]) == [offer, offer]
    ensures SpendAll(totalPoints, [offer, offer]) == totalPoints - 2 * offer.points
  {
    var t := totalPoints - offer.points;
    assert [offer, offer][1..] == [offer];
    assert [offer][1..] == [];
    assert Taken(t, [offer]) == [offer];
    assert SpendAll(t, [offer]) == t - offer.points;
  }

  /** A redemption waiting for its animation, with the balance it captured. */
  datatype Pending = Pending(offer: Offer, pointsBefore: int)

  class QuestRewardsScreen {
    var showCelebration: bool
    var isConfettiActive: bool
    var totalPoints: int
    var displayedPoints: int
    var showRewardAnimation: bool
    var activeReward: Option<Offer>
    var pending: Option<Pending>

    /** The balance is never negative, the count-up stays at or below it while
      the celebration is up, and an animation shows exactly while a
      redemption waits; the overlays cover the screen, so the captured
      balance is still the current one and still covers the reward. */
    ghost predicate Valid()
      reads this
    {
      && totalPoints >= 0
      && (showCelebration ==> displayedPoints <= totalPoints)
      && (showRewardAnimation <==> pending.Some?)
      && (pending.Some? ==>
            && !showCelebration
            && pending.value.pointsBefore == totalPoints
            && Spend(totalPoints, pending.value.offer).Some?)
    }

    constructor ()
      ensures showCelebration && isConfettiActive
      ensures totalPoints == 750 && displayedPoints == 650
      ensures !showRewardAnimation && activeReward == None && pending == None
      ensures Valid()
    {
      showCelebration := true;
      isConfettiActive := true;
      totalPoints := 750;
      displayedPoints := 650;
      showRewardAnimation := false;
      activeReward := None;
      pending := None;
    }

    /** One 50 ms tick of the count-up. */
    method CountUpTick()
      requires Valid() && showCelebration && displayedPoints < totalPoints
      modifies this`displayedPoints
      ensures displayedPoints == CountUpStep(old(displayedPoints), totalPoints)
      ensures Valid()
    {
      displayedPoints := CountUpStep(displayedPoints, totalPoints);
    }

    /** The button on the celebration overlay. */
    method CloseCelebration()
      requires Valid() && showCelebration
      modifies this`showCelebration
      ensures !showCelebration
      ensures Valid()
    {
      showCelebration := false;
    }

    /** Six seconds after the celebration opened; this timer is never cleared. */
    method ConfettiTimeout()
      modifies this`isConfettiActive
      ensures !isConfettiActive
    {
      isConfettiActive := false;
    }

    /** A reward button, reachable once no overlay covers the screen. */
    method RedeemReward(offer: Offer) returns (started: bool)
      requires Valid() && !showCelebration && !showRewardAnimation
      modifies this`activeReward, this`showRewardAnimation, this`pending
      ensures started <==> Spend(totalPoints, offer).Some?
      ensures started ==> activeReward == Some(offer) && showRewardAnimation && pending == Some(Pending(offer, totalPoints))
      ensures !started ==> activeReward == old(activeReward) && !showRewardAnimation && pending == None
      ensures Valid()
    {
      started := Spend(totalPoints, offer).Some?;
      if started {
        activeReward := Some(offer);
        showRewardAnimation := true;
        pending := Some(Pending(offer, totalPoints));
      }
    }

    /** Three seconds later: the captured balance less the reward's points. */
    method FinishRedemption()
      requires Valid() && pending.Some?
      modifies this`totalPoints, this`showRewardAnimation, this`pending
      ensures Some(totalPoints) == Spend(old(totalPoints), old(pending.value.offer))
      ensures !showRewardAnimation && pending == None
      ensures Valid()
    {
      totalPoints := pending.value.pointsBefore - pending.value.offer.points;
      showRewardAnimation := false;
      pending := None;
    }
  }
}
