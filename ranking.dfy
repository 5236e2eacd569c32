/** The shopping ranking: weekly, monthly and all-time tables, medals for
    the top three, a detail panel per row, and a popup when the player's
    own row is opened. */
module Ranking {
  import opened Text

  datatype Entry = Entry(rank: int, name: string, points: int, achievement: string, streak: nat)

  datatype Period = Weekly | Monthly | AllTime

  /** The player's own name in the tables. */
  const You := "あなた"

  const WeeklyTable: seq<Entry> := [
    Entry(1, "田中さん", 95, "8回達成", 7),
    Entry(2, "佐藤さん", 87, "7回達成", 5),
    Entry(3, "鈴木さん", 82, "6回達成", 4),
    Entry(4, "渡辺さん", 76, "5回達成", 3),
    Entry(5, "あなた", 70, "4回達成", 2),
    Entry(6, "山田さん", 65, "3回達成", 1),
    Entry(7, "加藤さん", 62, "3回達成", 0)
  ]

  const MonthlyTable: seq<Entry> := [
    Entry(1, "佐藤さん", 210, "18回達成", 12),
    Entry(2, "田中さん", 195, "16回達成", 7),
    Entry(3, "あなた", 185, "15回達成", 6),
    Entry(4, "鈴木さん", 172, "14回達成", 4),
    Entry(5, "渡辺さん", 156, "12回達成", 3),
    Entry(6, "山田さん", 145, "11回達成", 2),
    Entry(7, "加藤さん", 132, "10回達成", 0)
  ]

  const AllTimeTable: seq<Entry> := [
    Entry(1, "佐藤さん", 530, "42回達成", 12),
    Entry(2, "あなた", 485, "38回達成", 6),
    Entry(3, "田中さん", 462, "36回達成", 7),
    Entry(4, "鈴木さん", 421, "33回達成", 4),
    Entry(5, "渡辺さん", 395, "31回達成", 3),
    Entry(6, "山田さん", 378, "29回達成", 2),
    Entry(7, "加藤さん", 341, "26回達成", 0)
  ]

  /** `rankingData[period]`. */
  function Table(p: Period): seq<Entry>
  {
    match p
    case Weekly => WeeklyTable
    case Monthly => MonthlyTable
    case AllTime => AllTimeTable
  }

  function PeriodLabel(p: Period): string
  {
    match p
    case Weekly => "今週"
    case Monthly => "今月"
    case AllTime => "全期間"
  }

  /** A table is a ranking: each row's rank is its position from 1, and the
      points fall from each row to the next. */
  predicate Ranked(t: seq<Entry>)
  {
    && (forall i :: 0 <= i < |t| ==> t[i].rank == i + 1)
    && (forall i :: 0 <= i < |t| - 1 ==> t[i].points > t[i + 1].points)
  }

  /** Falling from one row to the next, the points fall from any row to every later one. */
  lemma {:induction false} RankedPointsFall(t: seq<Entry>, i: int, j: int)
    requires Ranked(t) && 0 <= i < j < |t|
    ensures t[i].points > t[j].points
    decreases j - i
  {
    if j > i + 1 {
      RankedPointsFall(t, i + 1, j);
    }
  }

  /** The player is in row `k` of `t` and in no other. */
  predicate OnlyYouAt(t: seq<Entry>, k: nat)
  {
    k < |t| && t[k].name == You && forall i :: 0 <= i < |t| && i != k ==> t[i].name != You
  }

  lemma WeeklyRanked()
    ensures Ranked(WeeklyTable) && OnlyYouAt(WeeklyTable, 4)
  {
    WeeklyInOrder();
    WeeklyYouOnce();
  }

  lemma WeeklyInOrder()
    ensures Ranked(WeeklyTable)
  {
    var t := WeeklyTable;
    assert |t| == 7;
    assert t[0].rank == 1 && t[0].points == 95;
    assert t[1].rank == 2 && t[1].points == 87;
    assert t[2].rank == 3 && t[2].points == 82;
    assert t[3].rank == 4 && t[3].points == 76;
    assert t[4].rank == 5 && t[4].points == 70;
    assert t[5].rank == 6 && t[5].points == 65;
    assert t[6].rank == 7 && t[6].points == 62;
  }

  lemma WeeklyYouOnce()
    ensures OnlyYouAt(WeeklyTable, 4)
  {
  }

  lemma MonthlyRanked()
    ensures Ranked(MonthlyTable) && OnlyYouAt(MonthlyTable, 2)
  {
    MonthlyInOrder();
    MonthlyYouOnce();
  }

  lemma MonthlyInOrder()
    ensures Ranked(MonthlyTable)
  {
    var t := MonthlyTable;
    assert |t| == 7;
    assert t[0].rank == 1 && t[0].points == 210;
    assert t[1].rank == 2 && t[1].points == 195;
    assert t[2].rank == 3 && t[2].points == 185;
    assert t[3].rank == 4 && t[3].points == 172;
    assert t[4].rank == 5 && t[4].points == 156;
    assert t[5].rank == 6 && t[5].points == 145;
    assert t[6].rank == 7 && t[6].points == 132;
  }

  lemma MonthlyYouOnce()
    ensures OnlyYouAt(MonthlyTable, 2)
  {
  }

  lemma AllTimeRanked()
    ensures Ranked(AllTimeTable) && OnlyYouAt(AllTimeTable, 1)
  {
    AllTimeInOrder();
    AllTimeYouOnce();
  }

  lemma AllTimeInOrder()
    ensures Ranked(AllTimeTable)
  {
    var t := AllTimeTable;
    assert |t| == 7;
    assert t[0].rank == 1 && t[0].points == 530;
    assert t[1].rank == 2 && t[1].points == 485;
    assert t[2].rank == 3 && t[2].points == 462;
    assert t[3].rank == 4 && t[3].points == 421;
    assert t[4].rank == 5 && t[4].points == 395;
    assert t[5].rank == 6 && t[5].points == 378;
    assert t[6].rank == 7 && t[6].points == 341;
  }

  lemma AllTimeYouOnce()
    ensures OnlyYouAt(AllTimeTable, 1)
  {
  }

  /** Every period's table is a ranking of seven rows with the player in
      exactly one of them. */
  lemma TablesRanked(p: Period)
    ensures Ranked(Table(p)) && |Table(p)| == 7
    ensures exists k :: OnlyYouAt(Table(p), k)
  {
    match p
    case Weekly => WeeklyRanked();
    case Monthly => MonthlyRanked();
    case AllTime => AllTimeRanked();
  }

  /** `getRankDisplay`: a medal for the first three ranks, the number for the rest. */
  function GetRankDisplay(rank: int): (r: string)
    ensures rank == 1 ==> r == ['\U{1F947}']
    ensures rank == 2 ==> r == ['\U{1F948}']
    ensures rank == 3 ==> r == ['\U{1F949}']
    ensures rank !in {1, 2, 3} ==> r == IntToString(rank)
  {
    if rank == 1 then ['\U{1F947}']
    else if rank == 2 then ['\U{1F948}']
    else if rank == 3 then ['\U{1F949}']
    else IntToString(rank)
  }

  /** Different ranks are never shown alike, so every row's badge tells its rank. */
  lemma RankDisplayDistinct(a: nat, b: nat)
    requires a != b
    ensures GetRankDisplay(a) != GetRankDisplay(b)
  {
    if a > 3 && b > 3 {
      NatToStringRoundTrip(a);
      NatToStringRoundTrip(b);
    } else if a > 3 {
      assert IsDigit(GetRankDisplay(a)[0]);
    } else if b > 3 {
      assert IsDigit(GetRankDisplay(b)[0]);
    }
  }

  /** `toggleDetail`'s choice of the open row: closes it if it is open,
      otherwise opens it in place of any other. */
  function ToggleDetail(open: Option<nat>, index: nat): (r: Option<nat>)
    ensures r == Some(index) <==> open != Some(index)
    ensures r.None? <==> open == Some(index)
  {
    if open == Some(index) then None else Some(index)
  }

  class RankingPage {
    var currentPeriod: Period
    var showDetail: Option<nat>
    var animatePoints: bool
    var showCongrats: bool
    var isLoading: bool
    /** The mount-time loading timer has not fired yet. */
    var loadPending: bool
    /** Period changes whose 300 ms timers have not fired, oldest first. */
    var periodQueue: seq<Period>
    /** Popup timers that have not fired. */
    var congratsPending: nat

    ghost predicate Valid()
      reads this
    {
      && (showDetail.Some? ==> showDetail.value < |Table(currentPeriod)|)
      && (showCongrats ==> congratsPending > 0)
    }

    /** The page as it mounts: loading, and the points animation started. */
    constructor ()
      ensures currentPeriod == Weekly && showDetail == None && animatePoints && !showCongrats
      ensures isLoading && loadPending && periodQueue == [] && congratsPending == 0
      ensures Valid()
    {
      currentPeriod := Weekly;
      showDetail := None;
      animatePoints := true;
      showCongrats := false;
      isLoading := true;
      loadPending := true;
      periodQueue := [];
      congratsPending := 0;
    }

    /** One second after mounting. */
    method LoadTimeout()
      requires loadPending
      modifies this`isLoading, this`loadPending
      ensures !isLoading && !loadPending
    {
      isLoading := false;
      loadPending := false;
    }

    /** The end of the points animation (a new period restarts it). */
    method AnimationTimeout()
      requires animatePoints
      modifies this`animatePoints
      ensures !animatePoints
    {
      animatePoints := false;
    }

    /** A click on a row of the shown table (the popup covers the page while
      it is up): the detail toggles, and opening the player's own row brings
      up the popup. */
    method ToggleRow(index: nat)
      requires Valid() && !isLoading && !showCongrats && index < |Table(currentPeriod)|
      modifies this`showDetail, this`showCongrats, this`congratsPending
      ensures showDetail == ToggleDetail(old(showDetail), index)
      ensures showCongrats <==> old(showDetail) != Some(index) && Table(currentPeriod)[index].name == You
      ensures congratsPending == old(congratsPending) + (if showCongrats then 1 else 0)
      ensures Valid()
    {
      if showDetail == Some(index) {
        showDetail := None;
      } else {
        showDetail := Some(index);
        if Table(currentPeriod)[index].name == You {
          showCongrats := true;
          congratsPending := congratsPending + 1;
        }
      }
    }

    /** 2.5 s after the popup was brought up. */
    method CongratsTimeout()
      requires Valid() && congratsPending > 0
      modifies this`showCongrats, this`congratsPending
      ensures !showCongrats && congratsPending == old(congratsPending) - 1
      ensures Valid()
    {
      showCongrats := false;
      congratsPending := congratsPending - 1;
    }

    /** The popup's close button. */
    method CloseCongrats()
      requires Valid()
      modifies this`showCongrats
      ensures !showCongrats && Valid()
    {
      showCongrats := false;
    }

    /** `changePeriod`: a period tab. The table is hidden and the detail
      closed at once; the period itself changes when the timer fires. */
    method ChangePeriod(p: Period)
      requires Valid() && !showCongrats
      modifies this`isLoading, this`showDetail, this`periodQueue
      ensures isLoading && showDetail == None && periodQueue == old(periodQueue) + [p]
      ensures Valid()
    {
      isLoading := true;
      showDetail := None;
      periodQueue := periodQueue + [p];
    }

    /** 300 ms after the oldest pending period change: that period is shown,
      and switching to a different one restarts the points animation. */
    method PeriodTimeout()
      requires Valid() && periodQueue != []
      modifies this`currentPeriod, this`isLoading, this`periodQueue, this`animatePoints
      ensures currentPeriod == old(periodQueue[0]) && !isLoading && periodQueue == old(periodQueue[1..])
      ensures animatePoints == (old(animatePoints) || old(periodQueue[0]) != old(currentPeriod))
      ensures Valid()
    {
      var p := periodQueue[0];
      periodQueue := periodQueue[1..];
      TablesRanked(p);
      TablesRanked(currentPeriod);
      if p != currentPeriod {
        animatePoints := true;
      }
      currentPeriod := p;
      isLoading := false;
    }
  }
}
