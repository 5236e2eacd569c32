/** The restock page: from the purchase history it suggests what is about
    to run out, soonest first, and lets items be added to a shopping list. */
module Restock {
  import opened Text

  /** A calendar date as written in `"YYYY-MM-DD"`. */
  datatype Date = Date(year: int, month: int, day: int)

  /** A month from 1 to 12 and a day from 1 to 31. This also admits days a
      month does not have, such as 2025-02-31, which `new Date` reads in an
      engine-dependent way (V8 rolls it over to 2025-03-03, other engines give
      an invalid date); the counting below steps past the month's end
      for them, as V8 does.
      The purchase history and the clock only give real dates. */
  predicate ValidDate(d: Date)
  {
    1 <= d.month <= 12 && 1 <= d.day <= 31
  }

  /** Days since 1970-01-01 in the proleptic Gregorian calendar, which is
      what `new Date("YYYY-MM-DD")` counts in (UTC midnight). */
  function DayNumber(d: Date): int
    requires ValidDate(d)
  {
    var y := if d.month <= 2 then d.year - 1 else d.year;
    var era := y / 400;
    var yoe := y - era * 400;
    var mp := (d.month + 9) % 12;
    var doy := (153 * mp + 2) / 5 + d.day - 1;
    var doe := yoe * 365 + yoe / 4 - yoe / 100 + doy;
    era * 146097 + doe - 719468
  }

  /** `daysBetween`: whole days from `d1` to `d2`; both are midnights, so the
      rounding in the source never changes the count. */
  function DaysBetween(d1: Date, d2: Date): (r: int)
    requires ValidDate(d1) && ValidDate(d2)
    ensures d1 == d2 ==> r == 0
  {
    DayNumber(d2) - DayNumber(d1)
  }

  /** Within a month, the next day is one day later. */
  lemma NextDayIsOneLater(y: int, m: int, d: int)
    requires 1 <= m <= 12 && 1 <= d < 31
    ensures DaysBetween(Date(y, m, d), Date(y, m, d + 1)) == 1
  {
  }

  /** The count starts at 1970-01-01. */
  lemma EpochIsDayZero()
    ensures DayNumber(Date(1970, 1, 1)) == 0
  {
  }

  /** A leap year of the Gregorian calendar. */
  predicate LeapYear(y: int)
  {
    y % 4 == 0 && (y % 100 != 0 || y % 400 == 0)
  }

  /** Every year's end counts as a single day. */
  lemma {:induction false} YearEndIsOneDay(y: int)
    ensures DaysBetween(Date(y, 12, 31), Date(y + 1, 1, 1)) == 1
  {
    assert (12 + 9) % 12 == 9 && (153 * 9 + 2) / 5 == 275;
    assert (1 + 9) % 12 == 10 && (153 * 10 + 2) / 5 == 306;
  }

  /** The count of a March 1st is 365 days after the one before, plus one
      when the February between has a 29th. */
  lemma MarchToMarch(y: int)
    ensures DayNumber(Date(y, 3, 1)) == DayNumber(Date(y - 1, 3, 1)) + 365 + (if LeapYear(y) then 1 else 0)
  {
    MarchFirst(y);
    MarchFirst(y - 1);
    if (y - 1) % 400 == 399 {
      EraStep(y);
    } else {
      YearOfEraStep(y);
      StepDiv((y - 1) % 400, y);
    }
  }

  /** The last year of an era is followed by the first of the next. */
  lemma EraStep(y: int)
    requires (y - 1) % 400 == 399
    ensures y / 400 == (y - 1) / 400 + 1 && y % 400 == 0 && LeapYear(y)
  {
  }

  /** Inside an era, the next year is the next year of the era. */
  lemma YearOfEraStep(y: int)
    requires (y - 1) % 400 != 399
    ensures y / 400 == (y - 1) / 400 && y % 400 == (y - 1) % 400 + 1
  {
  }

  /** The count of March 1st of year `y`, written by era and year of era. */
  lemma MarchFirst(y: int)
    ensures DayNumber(Date(y, 3, 1)) == (y / 400) * 146097 + YearOfEraDays(y % 400) - 719468
  {
    assert (3 + 9) % 12 == 0 && (153 * 0 + 2) / 5 == 0;
  }

  function YearOfEraDays(o: int): int
  {
    o * 365 + o / 4 - o / 100
  }

  lemma StepDiv(o: int, y: int)
    requires 0 <= o < 399 && y % 400 == o + 1
    ensures YearOfEraDays(o + 1) == YearOfEraDays(o) + 365 + (if LeapYear(y) then 1 else 0)
  {
    StepDivBy4(o);
    StepDivBy100(o);
    ModsOfYearOfEra(y, o + 1);
  }

  lemma StepDivBy4(o: int)
    requires 0 <= o
    ensures (o + 1) / 4 == o / 4 + (if (o + 1) % 4 == 0 then 1 else 0)
  {
  }

  lemma StepDivBy100(o: int)
    requires 0 <= o
    ensures (o + 1) / 100 == o / 100 + (if (o + 1) % 100 == 0 then 1 else 0)
  {
  }

  lemma ModsOfYearOfEra(y: int, o: int)
    requires y % 400 == o
    ensures y % 4 == o % 4 && y % 100 == o % 100 && (y % 400 == 0 <==> o == 0)
  {
    var e := y / 400;
    ModOfShift(y, 100 * e, o, 4);
    ModOfShift(y, 4 * e, o, 100);
  }

  /** Adding a multiple of `n` does not change the remainder by `n`. */
  lemma ModOfShift(y: int, q: int, o: int, n: int)
    requires n == 4 || n == 100
    requires y == n * q + o
    ensures y % n == o % n
  {
    var d := y / n - q - o / n;
    assert n * d == o % n - y % n;
  }

  /** The end of February in a common year counts as a single day. */
  lemma {:induction false} CommonFebruaryEnd(y: int)
    requires !LeapYear(y)
    ensures DaysBetween(Date(y, 2, 28), Date(y, 3, 1)) == 1
  {
    MarchToMarch(y);
    assert (2 + 9) % 12 == 11 && (153 * 11 + 2) / 5 == 337;
    assert (3 + 9) % 12 == 0;
  }

  /** In a leap year February has a 29th, and the day after is March 1st. */
  lemma {:induction false} LeapFebruaryEnd(y: int)
    requires LeapYear(y)
    ensures DaysBetween(Date(y, 2, 28), Date(y, 2, 29)) == 1
    ensures DaysBetween(Date(y, 2, 29), Date(y, 3, 1)) == 1
  {
    MarchToMarch(y);
    assert (2 + 9) % 12 == 11 && (153 * 11 + 2) / 5 == 337;
    assert (3 + 9) % 12 == 0;
  }

  /** `formatDate`: "M月D日". */
  function FormatDate(d: Date): string
  {
    IntToString(d.month) + "月" + IntToString(d.day) + "日"
  }

  datatype Purchase = Purchase(id: int, name: string, lastPurchased: Date, frequency: int, category: string, urgency: string)

  const History: seq<Purchase> := [
    Purchase(1, "洗剤", Date(2025, 3, 1), 14, "日用品", "high"),
    Purchase(2, "トイレットペーパー", Date(2025, 3, 5), 21, "日用品", "medium"),
    Purchase(3, "牛乳", Date(2025, 3, 10), 5, "食品", "high"),
    Purchase(4, "シャンプー", Date(2025, 2, 20), 30, "日用品", "high"),
    Purchase(5, "お米", Date(2025, 3, 1), 30, "食品", "medium")
  ]

  predicate HistoryDated(h: seq<Purchase>)
  {
    forall i :: 0 <= i < |h| ==> ValidDate(h[i].lastPurchased)
  }

  /** A purchase with the days since it was bought and the days it has left. */
  datatype Suggestion = Suggestion(item: Purchase, daysSinceLastPurchase: int, daysUntilEmpty: int)

  /** The `map` step. */
  function Annotate(h: seq<Purchase>, today: Date): (r: seq<Suggestion>)
    requires HistoryDated(h) && ValidDate(today)
    ensures |r| == |h|
    ensures forall i :: 0 <= i < |h| ==>
      && r[i].item == h[i]
      && r[i].daysSinceLastPurchase == DaysBetween(h[i].lastPurchased, today)
      && r[i].daysUntilEmpty == h[i].frequency - r[i].daysSinceLastPurchase
  {
    if h == [] then []
    else
      var since := DaysBetween(h[0].lastPurchased, today);
      [Suggestion(h[0], since, h[0].frequency - since)] + Annotate(h[1..], today)
  }

  /** The `filter` step: 'urgent' keeps the high urgencies, 'food' food and
      seasonings, 'daily' daily goods, and anything else keeps everything. */
  predicate Keep(filter: string, s: Suggestion)
  {
    if filter == "urgent" then s.item.urgency == "high"
    else if filter == "food" then s.item.category == "食品" || s.item.category == "調味料"
    else if filter == "daily" then s.item.category == "日用品"
    else true
  }

  function FilterBy(filter: string, s: seq<Suggestion>): (r: seq<Suggestion>)
    ensures forall x :: x in r <==> x in s && Keep(filter, x)
  {
    if s == [] then []
    else if Keep(filter, s[0]) then [s[0]] + FilterBy(filter, s[1..])
    else FilterBy(filter, s[1..])
  }

  predicate SortedByDays(s: seq<Suggestion>)
  {
    forall i, j :: 0 <= i < j < |s| ==> s[i].daysUntilEmpty <= s[j].daysUntilEmpty
  }

  /** Inserting before the first suggestion with at least as many days left.
      The sort inserts each suggestion into the sorted rest that came after
      it, so among equal days left the earlier one stays in front, as in the
      stable `Array.prototype.sort`. */
  function Insert(x: Suggestion, s: seq<Suggestion>): seq<Suggestion>
  {
    if s == [] || x.daysUntilEmpty <= s[0].daysUntilEmpty then [x] + s
    else [s[0]] + Insert(x, s[1..])
  }

  /** The `sort` step, by days left. */
  function SortByDays(s: seq<Suggestion>): seq<Suggestion>
  {
    if s == [] then [] else Insert(s[0], SortByDays(s[1..]))
  }

  lemma {:induction false} InsertPermutes(x: Suggestion, s: seq<Suggestion>)
    ensures multiset(Insert(x, s)) == multiset{x} + multiset(s)
    ensures |Insert(x, s)| == |s| + 1
  {
    if s != [] && x.daysUntilEmpty > s[0].daysUntilEmpty {
      InsertPermutes(x, s[1..]);
      assert s == [s[0]] + s[1..];
    }
  }

  /** The first suggestion after an insertion is the inserted one or the old first. */
  lemma InsertHead(x: Suggestion, s: seq<Suggestion>)
    ensures Insert(x, s) != []
    ensures Insert(x, s)[0] == x || (s != [] && Insert(x, s)[0] == s[0])
  {
  }

  lemma ConsSorted(a: Suggestion, t: seq<Suggestion>)
    requires SortedByDays(t) && (t != [] ==> a.daysUntilEmpty <= t[0].daysUntilEmpty)
    ensures SortedByDays([a] + t)
  {
    var r := [a] + t;
    forall i, j | 0 <= i < j < |r| ensures r[i].daysUntilEmpty <= r[j].daysUntilEmpty {
      if i == 0 && j > 1 { assert r[j] == t[j - 1]; }
    }
  }

  lemma {:induction false} InsertSorted(x: Suggestion, s: seq<Suggestion>)
    requires SortedByDays(s)
    ensures SortedByDays(Insert(x, s))
  {
    if s == [] || x.daysUntilEmpty <= s[0].daysUntilEmpty {
      ConsSorted(x, s);
    } else {
      assert SortedByDays(s[1..]);
      InsertSorted(x, s[1..]);
      var t := Insert(x, s[1..]);
      InsertHead(x, s[1..]);
      if t[0] != x { assert t[0] == s[1]; }
      ConsSorted(s[0], t);
    }
  }

  /** The suggestions with `k` days left, in the order they come. */
  function WithDays(s: seq<Suggestion>, k: int): (r: seq<Suggestion>)
    ensures forall x :: x in r <==> x in s && x.daysUntilEmpty == k
  {
    if s == [] then []
    else if s[0].daysUntilEmpty == k then [s[0]] + WithDays(s[1..], k)
    else WithDays(s[1..], k)
  }

  lemma WithDaysCons(a: Suggestion, t: seq<Suggestion>, k: int)
    ensures WithDays([a] + t, k) == (if a.daysUntilEmpty == k then [a] else []) + WithDays(t, k)
  {
    assert ([a] + t)[0] == a && ([a] + t)[1..] == t;
  }

  /** Inserting puts the new suggestion in front of every one with the same
      days left. */
  lemma {:induction false} InsertStable(x: Suggestion, s: seq<Suggestion>, k: int)
    ensures WithDays(Insert(x, s), k) == (if x.daysUntilEmpty == k then [x] else []) + WithDays(s, k)
  {
    if s == [] || x.daysUntilEmpty <= s[0].daysUntilEmpty {
      WithDaysCons(x, s, k);
    } else {
      InsertStable(x, s[1..], k);
      WithDaysCons(s[0], Insert(x, s[1..]), k);
      WithDaysCons(s[0], s[1..], k);
      assert s == [s[0]] + s[1..];
    }
  }

  /** The sort orders by days left, only reorders, and keeps suggestions
      with equal days left in the order they came. */
  lemma {:induction false} SortByDaysSorts(s: seq<Suggestion>)
    ensures SortedByDays(SortByDays(s))
    ensures multiset(SortByDays(s)) == multiset(s)
    ensures |SortByDays(s)| == |s|
    ensures forall k :: WithDays(SortByDays(s), k) == WithDays(s, k)
  {
    if s != [] {
      SortByDaysSorts(s[1..]);
      InsertSorted(s[0], SortByDays(s[1..]));
      InsertPermutes(s[0], SortByDays(s[1..]));
      assert s == [s[0]] + s[1..];
      forall k ensures WithDays(SortByDays(s), k) == WithDays(s, k) {
        InsertStable(s[0], SortByDays(s[1..]), k);
        WithDaysCons(s[0], s[1..], k);
      }
    }
  }

  /** `calculateSuggestions`. */
  function CalculateSuggestions(h: seq<Purchase>, filter: string, today: Date): seq<Suggestion>
    requires HistoryDated(h) && ValidDate(today)
  {
    SortByDays(FilterBy(filter, Annotate(h, today)))
  }

  /** The suggestions are the annotated purchases the filter keeps, each
      once, soonest to run out first, those with equal days left in history
      order, and each with its days left being its buying interval less the
      days since it was bought. */
  lemma SuggestionsSpec(h: seq<Purchase>, filter: string, today: Date)
    requires HistoryDated(h) && ValidDate(today)
    ensures var r := CalculateSuggestions(h, filter, today);
      && SortedByDays(r)
      && multiset(r) == multiset(FilterBy(filter, Annotate(h, today)))
      && (forall k :: WithDays(r, k) == WithDays(FilterBy(filter, Annotate(h, today)), k))
      && (forall x :: x in r <==> x in Annotate(h, today) && Keep(filter, x))
      && (forall x :: x in r ==> x.item in h && x.daysUntilEmpty == x.item.frequency - x.daysSinceLastPurchase)
  {
    var f := FilterBy(filter, Annotate(h, today));
    SortByDaysSorts(f);
    var a := Annotate(h, today);
    forall x | x in SortByDays(f) ensures x in f {
      assert x in multiset(SortByDays(f));
    }
    forall x | x in f ensures x in SortByDays(f) {
      assert x in multiset(f);
    }
    forall x | x in a ensures x.item in h && x.daysUntilEmpty == x.item.frequency - x.daysSinceLastPurchase {
      var i :| 0 <= i < |a| && a[i] == x;
    }
  }

  /** The "all" filter keeps every suggestion in place. */
  lemma {:induction false} FilterAllKeepsAll(s: seq<Suggestion>)
    ensures FilterBy("all", s) == s
  {
    if s != [] {
      FilterAllKeepsAll(s[1..]);
      assert s == [s[0]] + s[1..];
    }
  }

  /** In the listed history the detergent (bought 03-01, every 14 days) and
      the milk (bought 03-10, every 5 days) run out on the same day, whatever
      the day; no other purchase does, and the sort keeps the detergent, which
      comes first in the history, in front of the milk. */
  lemma {:induction false} TiedItemsKeepHistoryOrder(today: Date)
    requires ValidDate(today)
    ensures var a := Annotate(History, today);
      WithDays(CalculateSuggestions(History, "all", today), a[0].daysUntilEmpty) == [a[0], a[2]]
  {
    assert HistoryDated(History);
    var a := Annotate(History, today);
    var k := a[0].daysUntilEmpty;
    SuggestionsSpec(History, "all", today);
    FilterAllKeepsAll(a);
    HistoryDaysLeft(today);
    FirstAndThirdTie(a, k);
  }

  lemma FirstAndThirdTie(a: seq<Suggestion>, k: int)
    requires |a| == 5 && a[0].daysUntilEmpty == k && a[2].daysUntilEmpty == k
    requires a[1].daysUntilEmpty != k && a[3].daysUntilEmpty != k && a[4].daysUntilEmpty != k
    ensures WithDays(a, k) == [a[0], a[2]]
  {
    assert a == [a[0]] + [a[1], a[2], a[3], a[4]];
    assert [a[1], a[2], a[3], a[4]] == [a[1]] + [a[2], a[3], a[4]];
    assert [a[2], a[3], a[4]] == [a[2]] + [a[3], a[4]];
    assert [a[3], a[4]] == [a[3]] + [a[4]];
    assert [a[4]] == [a[4]] + [];
    WithDaysCons(a[4], [], k);
    WithDaysCons(a[3], [a[4]], k);
    WithDaysCons(a[2], [a[3], a[4]], k);
    WithDaysCons(a[1], [a[2], a[3], a[4]], k);
    WithDaysCons(a[0], [a[1], a[2], a[3], a[4]], k);
  }

  /** The days left of every listed purchase, measured from the detergent's. */
  lemma HistoryDaysLeft(today: Date)
    requires ValidDate(today)
    ensures HistoryDated(History)
    ensures var a := Annotate(History, today); var k := a[0].daysUntilEmpty;
      && a[1].daysUntilEmpty == k + 11 && a[2].daysUntilEmpty == k
      && a[3].daysUntilEmpty == k + 7 && a[4].daysUntilEmpty == k + 16
  {
    HistoryIsDated();
    HistoryDayOffsets();
    var a := Annotate(History, today);
    var t := DayNumber(today);
    var m1 := DayNumber(Date(2025, 3, 1));
    assert a[0].daysUntilEmpty == 14 - (t - m1);
    assert a[1].daysUntilEmpty == 21 - (t - (m1 + 4));
    assert a[2].daysUntilEmpty == 5 - (t - (m1 + 9));
    assert a[3].daysUntilEmpty == 30 - (t - (m1 - 9));
    assert a[4].daysUntilEmpty == 30 - (t - m1);
  }

  lemma HistoryIsDated()
    ensures HistoryDated(History)
  {
    forall i | 0 <= i < |History| ensures ValidDate(History[i].lastPurchased) {
      if i == 0 {} else if i == 1 {} else if i == 2 {} else if i == 3 {} else {}
    }
  }

  /** The purchase dates of the history, counted from 2025-03-01. */
  lemma HistoryDayOffsets()
    ensures var m1 := DayNumber(Date(2025, 3, 1));
      && DayNumber(Date(2025, 3, 5)) == m1 + 4
      && DayNumber(Date(2025, 3, 10)) == m1 + 9
      && DayNumber(Date(2025, 2, 20)) == m1 - 9
  {
    SameMonthOffset(2025, 3, 1, 5);
    SameMonthOffset(2025, 3, 1, 10);
    SameMonthOffset(2025, 2, 20, 28);
    CommonFebruaryEnd(2025);
  }

  /** A day past the month's end counts on into the next month: 2025-02-31
      is counted as 2025-03-03. */
  lemma PastMonthEndRollsOver()
    ensures DayNumber(Date(2025, 2, 31)) == DayNumber(Date(2025, 3, 3))
  {
    SameMonthOffset(2025, 2, 28, 31);
    CommonFebruaryEnd(2025);
    SameMonthOffset(2025, 3, 1, 3);
  }

  /** Within a month, days are counted one apart. */
  lemma SameMonthOffset(y: int, m: int, d1: int, d2: int)
    requires 1 <= m <= 12 && 1 <= d1 <= 31 && 1 <= d2 <= 31
    ensures DayNumber(Date(y, m, d2)) == DayNumber(Date(y, m, d1)) + (d2 - d1)
  {
  }

  /** Ids of a list of suggestions. */
  predicate HasId(list: seq<Suggestion>, id: int)
  {
    exists i :: 0 <= i < |list| && list[i].item.id == id
  }

  predicate UniqueIds(list: seq<Suggestion>)
  {
    forall i, j :: 0 <= i < j < |list| ==> list[i].item.id != list[j].item.id
  }

  /** `suggestedItems.filter(i => i.id !== id)`. */
  function RemoveId(s: seq<Suggestion>, id: int): (r: seq<Suggestion>)
    ensures forall x :: x in r <==> x in s && x.item.id != id
    ensures |r| <= |s|
  {
    if s == [] then []
    else if s[0].item.id != id then [s[0]] + RemoveId(s[1..], id)
    else RemoveId(s[1..], id)
  }

  /** The detail message read out for a suggestion. */
  function DetailMessage(s: Suggestion): (m: string)
    ensures s.daysUntilEmpty <= 0 ==> m == s.item.name + "はそろそろ切れている可能性があります。買い物リストに追加しますか？"
    ensures s.daysUntilEmpty > 0 ==>
      m == s.item.name + "はあと約" + NatToString(s.daysUntilEmpty) + "日で切れる可能性があります。前回は"
           + FormatDate(s.item.lastPurchased) + "に購入しました。"
  {
    if s.daysUntilEmpty <= 0 then s.item.name + "はそろそろ切れている可能性があります。買い物リストに追加しますか？"
    else s.item.name + "はあと約" + IntToString(s.daysUntilEmpty) + "日で切れる可能性があります。前回は"
         + FormatDate(s.item.lastPurchased) + "に購入しました。"
  }

  /** How a card shows its urgency: the colour of its frame and badge, the
      badge text and the status line. */
  datatype UrgencyLook = UrgencyLook(colour: string, badge: string, status: string)

  function UrgencyStyle(urgency: string): (l: UrgencyLook)
    ensures l.colour == "red" <==> urgency == "high"
    ensures l.colour == "yellow" <==> urgency == "medium"
    ensures l.colour == "blue" <==> urgency != "high" && urgency != "medium"
    ensures l.colour == "red" ==> l.badge == "急ぎ" && l.status == "もうすぐ切れます！"
    ensures l.colour == "yellow" ==> l.badge == "そろそろ" && l.status == "そろそろ買い替え時"
    ensures l.colour == "blue" ==> l.badge == "まだ大丈夫" && l.status == "まだ大丈夫です"
  {
    if urgency == "high" then UrgencyLook("red", "急ぎ", "もうすぐ切れます！")
    else if urgency == "medium" then UrgencyLook("yellow", "そろそろ", "そろそろ買い替え時")
    else UrgencyLook("blue", "まだ大丈夫", "まだ大丈夫です")
  }

  const Filters: seq<string> := ["all", "urgent", "food", "daily"]

  class RestockPage {
    const purchaseHistory: seq<Purchase>
    var shoppingList: seq<Suggestion>
    var suggestedItems: seq<Suggestion>
    var filter: string
    var isHelpVisible: bool

    ghost predicate Valid()
      reads this
    {
      HistoryDated(purchaseHistory) && UniqueIds(shoppingList)
    }

    /** The page as it mounts, `today` standing for the clock. */
    constructor (today: Date)
      requires ValidDate(today)
      ensures purchaseHistory == History && shoppingList == [] && filter == "all" && !isHelpVisible
      ensures suggestedItems == CalculateSuggestions(History, "all", today)
      ensures Valid()
    {
      purchaseHistory := History;
      shoppingList := [];
      filter := "all";
      isHelpVisible := false;
      suggestedItems := CalculateSuggestions(History, "all", today);
    }

    /** A filter button. A different filter runs the effect on `filter`
      again, which computes the suggestions from the whole history; the
      filter already chosen changes nothing, so items added to the list stay
      out of the suggestions. */
    method SetFilter(f: string, today: Date)
      requires Valid() && f in Filters && ValidDate(today)
      modifies this`filter, this`suggestedItems
      ensures filter == f
      ensures f != old(filter) ==> suggestedItems == CalculateSuggestions(purchaseHistory, f, today)
      ensures f == old(filter) ==> suggestedItems == old(suggestedItems)
      ensures Valid()
    {
      if f != filter {
        filter := f;
        suggestedItems := CalculateSuggestions(purchaseHistory, f, today);
      }
    }

    /** "Add" on a suggestion: an item whose id is already listed changes
      nothing; otherwise it goes to the end of the list and every
      suggestion with its id is removed. */
    method AddToShoppingList(item: Suggestion)
      requires Valid()
      modifies this`shoppingList, this`suggestedItems
      ensures HasId(old(shoppingList), item.item.id) ==>
        shoppingList == old(shoppingList) && suggestedItems == old(suggestedItems)
      ensures !HasId(old(shoppingList), item.item.id) ==>
        && shoppingList == old(shoppingList) + [item]
        && suggestedItems == RemoveId(old(suggestedItems), item.item.id)
      ensures Valid()
    {
      if !HasId(shoppingList, item.item.id) {
        shoppingList := shoppingList + [item];
        suggestedItems := RemoveId(suggestedItems, item.item.id);
      }
    }

    /** The help button. */
    method ToggleHelp()
      modifies this`isHelpVisible
      ensures isHelpVisible == !old(isHelpVisible)
    {
      isHelpVisible := !isHelpVisible;
    }
  }

  /** An added item leaves the suggestions only until the filter changes to
      a different one: recomputing from the history brings back every kept
      item, listed or not. */
  lemma FilterChangeBringsBack(today: Date, f: string, x: Suggestion)
    requires ValidDate(today) && HistoryDated(History)
    requires x in Annotate(History, today) && Keep(f, x)
    ensures x in CalculateSuggestions(History, f, today)
  {
    SuggestionsSpec(History, f, today);
  }
}
