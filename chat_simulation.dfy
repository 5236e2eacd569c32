/** The guided shopping chat: a grandchild ('孫') walks grandpa ('おじいちゃん')
    through the store in five steps, arrival, inquiry, findItem, checkout and
    done. The transcript only ever grows; every scripted line is followed by a
    pause of `ComputeDelay` milliseconds, long enough for the typing renderer
    to reveal it in full.

    `Apply` is the reference behaviour of one button press on a `Session`
    value; the class `ChatSession` holds the component's state and its
    handlers are proved to do what `Apply` says. */
module ChatSimulation {

  datatype Speaker = Grandchild | Grandpa

  datatype Message = Message(speaker: Speaker, text: string)

  datatype Item = Item(id: int, name: string, location: string, scanned: bool)

  datatype Step = Arrival | Inquiry | FindItem | Checkout | Done

  /** The item list. The component never replaces it, so it is this constant
      for the whole session. */
  const InitialItems: seq<Item> := [
    Item(1, "ワンカップの誘惑", "酒売り場", false),
    Item(2, "ついつい買っちまうな", "雑誌売り場", false)
  ]

  const Greeting: Message := Message(Grandchild, "おじいちゃん、店に着いた？")

  /** The renderer reveals one character per tick of this many milliseconds. */
  const TickMs: nat := 50

  /** The slack the dispatcher leaves after a message is fully revealed. */
  const SlackMs: nat := 500

  /** The fixed pause after grandpa's "arrived" line. */
  const ArrivalPauseMs: nat := 1000

  /** How long the dispatcher waits after appending `m`. */
  function ComputeDelay(m: Message): nat
  {
    |m.text| * TickMs + SlackMs
  }

  /** The pauses the dispatcher takes after each of `msgs`, in order. */
  function Delays(msgs: seq<Message>): (ds: seq<nat>)
    ensures |ds| == |msgs|
    ensures forall i :: 0 <= i < |msgs| ==> ds[i] == ComputeDelay(msgs[i])
  {
    seq(|msgs|, i requires 0 <= i < |msgs| => ComputeDelay(msgs[i]))
  }

  // ---------------------------------------------------------------------
  // The typing renderer

  /** What the renderer shows after `ticks` ticks of its interval. */
  function Revealed(text: string, ticks: nat): (r: string)
    ensures r <= text
  {
    if ticks <= |text| then text[..ticks] else text
  }

  /** The time the renderer needs to show the whole text. */
  function RevealTime(text: string): nat
  {
    |text| * TickMs
  }

  /** The dispatcher's pause is the full reveal time plus exactly the slack,
      and by the end of it the message is on screen in full. */
  lemma DelayCoversReveal(m: Message)
    ensures ComputeDelay(m) == RevealTime(m.text) + SlackMs
    ensures ComputeDelay(m) / TickMs == |m.text| + SlackMs / TickMs
    ensures Revealed(m.text, ComputeDelay(m) / TickMs) == m.text
    ensures Revealed(m.text, RevealTime(m.text) / TickMs) == m.text
    ensures forall k :: 0 <= k < |m.text| ==> Revealed(m.text, k) != m.text
  {
    var n := |m.text|;
    assert ComputeDelay(m) == (n + 10) * 50;
    assert RevealTime(m.text) == n * 50;
  }

  /** One message on screen: `displayedText` grows by one character per tick
      until it is the whole text, then the interval is cleared. */
  class TypingMessage {
    const message: Message
    var displayedText: string
    var index: nat
    var active: bool

    ghost predicate Valid()
      reads this
    {
      index <= |message.text| && displayedText == message.text[..index]
    }

    constructor (m: Message)
      ensures Valid()
      ensures message == m && displayedText == "" && index == 0 && active
    {
      message := m;
      displayedText := "";
      index := 0;
      active := true;
    }

    /** One firing of the 50 ms interval, its updater taking the character
        at the index of the moment it is queued. */
    method Tick()
      requires Valid() && active
      modifies this`displayedText, this`index, this`active
      ensures Valid()
      ensures old(index) < |message.text| ==>
        index == old(index) + 1 && displayedText == old(displayedText) + [message.text[old(index)]] && active
      ensures old(index) == |message.text| ==>
        index == old(index) && displayedText == old(displayedText) && !active
    {
      if index < |message.text| {
        displayedText := displayedText + [message.text[index]];
        index := index + 1;
      } else {
        active := false;
      }
    }

    /** The cleanup that runs when the message is unmounted. */
    method Cancel()
      requires Valid()
      modifies this`active
      ensures Valid() && !active
    {
      active := false;
    }

    /** Lets the interval run until it clears itself: after `|text|` ticks the
        whole text is shown and one more tick stops the interval. */
    method RunToEnd() returns (ticks: nat)
      requires Valid() && active && index == 0
      modifies this`displayedText, this`index, this`active
      ensures Valid() && !active
      ensures displayedText == message.text
      ensures ticks == |message.text| + 1
      ensures ticks * TickMs == RevealTime(message.text) + TickMs
    {
      ticks := 0;
      while active
        invariant Valid()
        invariant active ==> ticks == index
        invariant !active ==> ticks == |message.text| + 1 && index == |message.text|
        invariant displayedText == Revealed(message.text, ticks)
        decreases |message.text| + 1 - ticks
      {
        Tick();
        ticks := ticks + 1;
      }
    }
  }

  /** The interval's callback as written, under a React 18 concurrent root.
      The first firing of a freshly mounted message finds no update pending,
      so React runs `prev => prev + message.text[index]` at once and it
      appends the first character. Every later updater is queued and runs at
      the next render, after the callback has already done `index++`: firing
      number `j >= 1` appends the character at `j + 1`, and past the end `+`
      appends the text of `undefined`. */
  function DeferredReveal(text: string, ticks: nat): (r: string)
    requires ticks <= |text|
    ensures ticks == 0 ==> r == ""
    ensures ticks == 1 ==> r == text[..1]
  {
    if ticks == 0 then ""
    else if ticks == 1 then [text[0]]
    else DeferredReveal(text, ticks - 1) + DeferredChar(text, ticks)
  }

  function DeferredChar(text: string, i: nat): string
  {
    if i < |text| then [text[i]] else "undefined"
  }

  /** With the later updaters deferred, a text of two or more characters
      loses its second character and ends in "undefined", so it is never
      shown as written; a one-character text is shown as it is. */
  lemma {:induction false} DeferredRevealGarbles(text: string)
    requires text != []
    ensures |text| == 1 ==> DeferredReveal(text, |text|) == text
    ensures |text| >= 2 ==> DeferredReveal(text, |text|) == text[..1] + text[2..] + "undefined"
    ensures |text| >= 2 ==> DeferredReveal(text, |text|) != text
  {
    if |text| >= 2 {
      DeferredRevealPrefix(text, |text| - 1);
      assert |text[..1] + text[2..] + "undefined"| == |text| + 8;
    } else {
      assert text[..1] == text;
    }
  }

  /** Before the last firing, the first `k` firings show the first character
      and then the characters 2 to `k`. */
  lemma {:induction false} DeferredRevealPrefix(text: string, k: nat)
    requires 1 <= k < |text|
    ensures DeferredReveal(text, k) == text[..1] + text[2..k + 1]
  {
    if k > 1 {
      DeferredRevealPrefix(text, k - 1);
      assert text[2..k + 1] == text[2..k] + [text[k]];
    }
  }

  /** The two-character reply "はい" comes out as "は" followed by "undefined". */
  lemma DeferredRevealExample()
    ensures DeferredReveal("はい", 2) == "はundefined"
  {
    DeferredRevealGarbles("はい");
  }

  // ---------------------------------------------------------------------
  // The script

  /** The eleven lines the grandchild sends after grandpa arrives. */
  const ArrivalScript: seq<Message> := [
    Message(Grandchild, "ほな、買物リストを表示するわ！"),
    Message(Grandchild, "【買物リスト】"),
    Message(Grandchild, "[1] ワンカップの誘惑 － 酒売り場"),
    Message(Grandchild, "[2] ついつい買っちまうな － 雑誌売り場"),
    Message(Grandchild, "【店内マップ】"),
    Message(Grandchild, "┌────────────┐"),
    Message(Grandchild, "│ [①] 酒売り場 │"),
    Message(Grandchild, "├────────────┤"),
    Message(Grandchild, "│ [②] 雑誌売り場 │"),
    Message(Grandchild, "└────────────┘"),
    Message(Grandchild, "店員さんに「お買い得情報」問い合わせする？")
  ]

  const Arrived: Message := Message(Grandpa, "着いたよ")

  function InquiryReply(answer: bool): Message
  {
    Message(Grandpa, if answer then "問い合わせするで" else "問い合わせせんわ")
  }

  function InquiryLines(answer: bool): seq<Message>
  {
    if answer then
      [Message(Grandchild, "ええ情報あるで！"),
       Message(Grandchild, "酒売り場はセール中やし、雑誌売り場も今なら特典付きやで！")]
    else
      [Message(Grandchild, "了解や、先に進もうや！")]
  }

  /** "Did you find «item»?" */
  function AskAbout(item: Item): Message
  {
    Message(Grandchild, "「" + item.name + "」見つけた？")
  }

  function PickedUp(item: Item): Message
  {
    Message(Grandchild, "グッジョブ！「" + item.name + "」をピックアップしたで！")
  }

  const NotYet: Message := Message(Grandchild, "まだか？もうちょい探してな、じいちゃん！")

  const CheckoutLines: seq<Message> := [
    Message(Grandchild, "全部の商品ピックアップできたな！ほな、レジ行こか～"),
    Message(Grandchild, "レジでボンタンとQRコードが表示されるから、スキャンしてもらってな！"),
    Message(Grandchild, "おじいちゃん、レジでスキャンしたら「スキャン完了」ボタン押してな！")
  ]

  const ClosingLines: seq<Message> := [
    Message(Grandchild, "かいけい終了！リワードとポイントもゲットやで！"),
    Message(Grandchild, "無事におうちに帰るまでがクエストや。気ぃつけて帰ってな、じいちゃん！")
  ]

  // ---------------------------------------------------------------------
  // Reference behaviour on values

  datatype Session = Session(messages: seq<Message>, step: Step, index: nat, items: seq<Item>)

  /** The buttons: 着いたよ, 問い合わせする/しない, 見つけた！/まだ…, スキャン完了. */
  datatype Click = ArrivedClick | InquiryClick(interested: bool) | FindItemClick(found: bool) | CheckoutClick

  function Initial(): Session
  {
    Session([Greeting], Arrival, 0, InitialItems)
  }

  /** The current item is always one of the items. */
  ghost predicate Inv(s: Session)
  {
    s.index < |s.items|
  }

  /** Exactly one group of buttons is on screen, chosen by the step; none at done. */
  predicate OnScreen(s: Session, c: Click)
  {
    match c
    case ArrivedClick => s.step == Arrival
    case InquiryClick(_) => s.step == Inquiry
    case FindItemClick(_) => s.step == FindItem
    case CheckoutClick => s.step == Checkout
  }

  function StepRank(st: Step): nat
  {
    match st
    case Arrival => 0
    case Inquiry => 1
    case FindItem => 2
    case Checkout => 3
    case Done => 4
  }

  /** The effect of one press. A button that is not on screen cannot be
      pressed, so pressing it changes nothing. */
  function Apply(s: Session, c: Click): (r: Session)
    requires Inv(s)
    ensures Inv(r) && r.items == s.items
  {
    if !OnScreen(s, c) then s
    else match c
      case ArrivedClick =>
        s.(messages := s.messages + [Arrived] + ArrivalScript, step := Inquiry)
      case InquiryClick(b) =>
        s.(messages := s.messages + [InquiryReply(b)] + InquiryLines(b) + [AskAbout(s.items[s.index])],
           step := FindItem)
      case FindItemClick(found) =>
        if !found then
          s.(messages := s.messages + [NotYet, AskAbout(s.items[s.index])])
        else if s.index + 1 < |s.items| then
          s.(messages := s.messages + [PickedUp(s.items[s.index]), AskAbout(s.items[s.index + 1])],
             index := s.index + 1)
        else
          s.(messages := s.messages + [PickedUp(s.items[s.index])] + CheckoutLines, step := Checkout)
      case CheckoutClick =>
        s.(messages := s.messages + ClosingLines, step := Done)
  }

  /** A sequence of presses from `s`. */
  function Run(s: Session, clicks: seq<Click>): (r: Session)
    requires Inv(s)
    decreases |clicks|
  {
    if clicks == [] then s else Run(Apply(s, clicks[0]), clicks[1..])
  }

  function NextStep(st: Step): Step
  {
    match st
    case Arrival => Inquiry
    case Inquiry => FindItem
    case FindItem => Checkout
    case Checkout => Done
    case Done => Done
  }

  /** One press either keeps the step (the findItem self-loop, or a button
      that is not there) or moves to the next step; earlier messages stay
      as they were; the index never decreases and moves by at most one. */
  lemma ApplyMovesForward(s: Session, c: Click)
    requires Inv(s)
    ensures var r := Apply(s, c);
      && s.messages <= r.messages
      && (r.step == s.step || r.step == NextStep(s.step))
      && StepRank(s.step) <= StepRank(r.step)
      && (r.index == s.index || r.index == s.index + 1)
      && (r.index == s.index + 1 ==> r.step == FindItem && s.step == FindItem)
  {
  }

  /** A pressed button always says something: the transcript grows. */
  lemma ApplyAppends(s: Session, c: Click)
    requires Inv(s) && OnScreen(s, c)
    ensures |Apply(s, c).messages| > |s.messages|
  {
  }

  /** Over any run, the transcript at the start is a prefix of the transcript
      at the end, the step has not gone back, the index has not gone back and
      stays on an item, and the items are unchanged. */
  lemma {:induction false} RunMovesForward(s: Session, clicks: seq<Click>)
    requires Inv(s)
    ensures var r := Run(s, clicks);
      && s.messages <= r.messages
      && StepRank(s.step) <= StepRank(r.step)
      && s.index <= r.index < |s.items|
      && r.items == s.items
    decreases |clicks|
  {
    if clicks != [] {
      var s' := Apply(s, clicks[0]);
      ApplyMovesForward(s, clicks[0]);
      RunMovesForward(s', clicks[1..]);
    }
  }

  /** Splitting a run at any point. */
  lemma {:induction false} RunConcat(s: Session, a: seq<Click>, b: seq<Click>)
    requires Inv(s)
    ensures Inv(Run(s, a))
    ensures Run(s, a + b) == Run(Run(s, a), b)
    decreases |a|
  {
    if a == [] {
      assert a + b == b;
    } else {
      assert (a + b)[0] == a[0];
      assert (a + b)[1..] == a[1..] + b;
      RunConcat(Apply(s, a[0]), a[1..], b);
    }
  }

  /** The transcript at any point of a run is a prefix of the transcript at
      any later point. */
  lemma TranscriptPrefixOverRun(s: Session, a: seq<Click>, b: seq<Click>)
    requires Inv(s)
    ensures Inv(Run(s, a))
    ensures Run(s, a).messages <= Run(s, a + b).messages
  {
    RunConcat(s, a, b);
    RunMovesForward(Run(s, a), b);
  }

  /** "Found it" moves to checkout exactly on the last item. */
  lemma CheckoutExactlyAfterLastItem(s: Session)
    requires Inv(s) && s.step == FindItem
    ensures Apply(s, FindItemClick(true)).step == Checkout <==> s.index == |s.items| - 1
    ensures s.index < |s.items| - 1 ==> Apply(s, FindItemClick(true)).index == s.index + 1
    ensures Apply(s, FindItemClick(true)).messages[|s.messages|] == PickedUp(s.items[s.index])
  {
  }

  /** "Not yet" changes neither step nor index, and re-asks about the same item. */
  lemma NotFoundIsSelfLoop(s: Session)
    requires Inv(s) && s.step == FindItem
    ensures var r := Apply(s, FindItemClick(false));
      && r.step == FindItem && r.index == s.index
      && r.messages == s.messages + [NotYet, AskAbout(s.items[s.index])]
  {
  }

  /** The scenario of a whole visit: arrive, decline the inquiry, say "not
      yet" once, find both items, then finish at the register. */
  lemma WholeVisit()
    ensures var r := Run(Initial(), [ArrivedClick, InquiryClick(false), FindItemClick(false),
                                    FindItemClick(true), FindItemClick(true), CheckoutClick]);
      && r.step == Done && r.index == 1
      && r.messages == [Greeting, Arrived] + ArrivalScript
           + [InquiryReply(false)] + InquiryLines(false) + [AskAbout(InitialItems[0])]
           + [NotYet, AskAbout(InitialItems[0])]
           + [PickedUp(InitialItems[0]), AskAbout(InitialItems[1])]
           + [PickedUp(InitialItems[1])] + CheckoutLines
           + ClosingLines
  {
    VisitRunUnfolds();
    VisitEndsDone();
  }

  function VisitEnd(): Session
  {
    var s1 := Apply(Initial(), ArrivedClick);
    var s2 := Apply(s1, InquiryClick(false));
    var s3 := Apply(s2, FindItemClick(false));
    var s4 := Apply(s3, FindItemClick(true));
    var s5 := Apply(s4, FindItemClick(true));
    Apply(s5, CheckoutClick)
  }

  lemma VisitRunUnfolds()
    ensures Run(Initial(), [ArrivedClick, InquiryClick(false), FindItemClick(false),
                            FindItemClick(true), FindItemClick(true), CheckoutClick]) == VisitEnd()
  {
    var s0 := Initial();
    var s1 := Apply(s0, ArrivedClick);
    var s2 := Apply(s1, InquiryClick(false));
    var s3 := Apply(s2, FindItemClick(false));
    var s4 := Apply(s3, FindItemClick(true));
    var s5 := Apply(s4, FindItemClick(true));
    var s6 := Apply(s5, CheckoutClick);
    var clicks := [ArrivedClick, InquiryClick(false), FindItemClick(false),
                   FindItemClick(true), FindItemClick(true), CheckoutClick];
    assert Run(s6, clicks[6..]) == s6;
    assert Run(s5, clicks[5..]) == s6;
    assert Run(s4, clicks[4..]) == s6;
    assert Run(s3, clicks[3..]) == s6;
    assert Run(s2, clicks[2..]) == s6;
    assert Run(s1, clicks[1..]) == s6;
  }

  lemma VisitEndsDone()
    ensures var r := VisitEnd();
      && r.step == Done && r.index == 1
      && r.messages == [Greeting, Arrived] + ArrivalScript
           + [InquiryReply(false)] + InquiryLines(false) + [AskAbout(InitialItems[0])]
           + [NotYet, AskAbout(InitialItems[0])]
           + [PickedUp(InitialItems[0]), AskAbout(InitialItems[1])]
           + [PickedUp(InitialItems[1])] + CheckoutLines
           + ClosingLines
  {
  }

  // ---------------------------------------------------------------------
  // The component

  class ChatSession {
    var messages: seq<Message>
    var step: Step
    var currentItemIndex: nat
    const items: seq<Item>

    ghost predicate Valid()
      reads this
    {
      currentItemIndex < |items|
    }

    function Snapshot(): Session
      reads this
    {
      Session(messages, step, currentItemIndex, items)
    }

    constructor ()
      ensures Valid() && Snapshot() == Initial()
    {
      messages := [Greeting];
      step := Arrival;
      currentItemIndex := 0;
      items := InitialItems;
    }

    /** `addSequentialMessages`: appends each message in order and waits
        `ComputeDelay` after each; the pauses are returned in order. */
    method AddSequentialMessages(msgs: seq<Message>) returns (waits: seq<nat>)
      modifies this`messages
      ensures messages == old(messages) + msgs
      ensures waits == Delays(msgs)
    {
      waits := [];
      for i := 0 to |msgs|
        invariant messages == old(messages) + msgs[..i]
        invariant waits == Delays(msgs[..i])
      {
        messages := messages + [msgs[i]];
        waits := waits + [ComputeDelay(msgs[i])];
        assert msgs[..i + 1] == msgs[..i] + [msgs[i]];
      }
      assert msgs[..|msgs|] == msgs;
    }

    /** The 着いたよ button. */
    method HandleArrival() returns (waits: seq<nat>)
      requires Valid() && step == Arrival
      modifies this
      ensures Valid() && Snapshot() == Apply(old(Snapshot()), ArrivedClick)
      ensures messages == old(messages) + [Arrived] + ArrivalScript
      ensures step == Inquiry && currentItemIndex == old(currentItemIndex)
      ensures waits == [ArrivalPauseMs] + Delays(ArrivalScript)
    {
      messages := messages + [Arrived];
      var rest := AddSequentialMessages(ArrivalScript);
      waits := [ArrivalPauseMs] + rest;
      step := Inquiry;
    }

    /** The 問い合わせする / 問い合わせしない buttons. */
    method HandleInquiryAnswer(answer: bool) returns (waits: seq<nat>)
      requires Valid() && step == Inquiry
      modifies this
      ensures Valid() && Snapshot() == Apply(old(Snapshot()), InquiryClick(answer))
      ensures messages == old(messages) + [InquiryReply(answer)] + InquiryLines(answer)
                          + [AskAbout(items[currentItemIndex])]
      ensures |InquiryLines(answer)| == if answer then 2 else 1
      ensures step == FindItem && currentItemIndex == old(currentItemIndex)
      ensures waits == [ComputeDelay(InquiryReply(answer))] + Delays(InquiryLines(answer))
    {
      var msg1 := InquiryReply(answer);
      messages := messages + [msg1];
      var rest := AddSequentialMessages(InquiryLines(answer));
      waits := [ComputeDelay(msg1)] + rest;
      step := FindItem;
      messages := messages + [AskAbout(items[currentItemIndex])];
    }

    /** The 見つけた！ / まだ… buttons. */
    method HandleFindItemAnswer(answer: bool) returns (waits: seq<nat>)
      requires Valid() && step == FindItem
      modifies this
      ensures Valid() && Snapshot() == Apply(old(Snapshot()), FindItemClick(answer))
      ensures answer && old(currentItemIndex) + 1 < |items| ==>
        && currentItemIndex == old(currentItemIndex) + 1 && step == FindItem
        && messages == old(messages) + [PickedUp(items[old(currentItemIndex)]), AskAbout(items[currentItemIndex])]
        && waits == [ComputeDelay(PickedUp(items[old(currentItemIndex)]))]
      ensures answer && old(currentItemIndex) + 1 == |items| ==>
        && currentItemIndex == old(currentItemIndex) && step == Checkout
        && messages == old(messages) + [PickedUp(items[currentItemIndex])] + CheckoutLines
        && waits == [ComputeDelay(PickedUp(items[currentItemIndex]))] + Delays(CheckoutLines)
      ensures !answer ==>
        && currentItemIndex == old(currentItemIndex) && step == FindItem
        && messages == old(messages) + [NotYet, AskAbout(items[currentItemIndex])]
        && waits == [ComputeDelay(NotYet)]
    {
      if answer {
        var msg := PickedUp(items[currentItemIndex]);
        messages := messages + [msg];
        waits := [ComputeDelay(msg)];
        if currentItemIndex + 1 < |items| {
          var nextIndex := currentItemIndex + 1;
          currentItemIndex := nextIndex;
          messages := messages + [AskAbout(items[nextIndex])];
        } else {
          step := Checkout;
          var rest := AddSequentialMessages(CheckoutLines);
          waits := waits + rest;
        }
      } else {
        messages := messages + [NotYet];
        waits := [ComputeDelay(NotYet)];
        messages := messages + [AskAbout(items[currentItemIndex])];
      }
    }

    /** The スキャン完了 button. */
    method HandleCheckout() returns (waits: seq<nat>)
      requires Valid() && step == Checkout
      modifies this
      ensures Valid() && Snapshot() == Apply(old(Snapshot()), CheckoutClick)
      ensures messages == old(messages) + ClosingLines
      ensures step == Done && currentItemIndex == old(currentItemIndex)
      ensures waits == Delays(ClosingLines)
    {
      waits := AddSequentialMessages(ClosingLines);
      step := Done;
    }
  }
}
