/** The order loop: a bounded number of market orders against a broker that may answer
    anything, with widened stops, one volume cut, and an emergency close. */
module OrderManager {
  import opened Sums
  import opened Sizing

  const REQUOTE := 10004
  const REJECT := 10006
  const CANCEL := 10007
  const INVALID_STOPS := 10016
  const MARKET_CLOSED := 10018
  const NO_MONEY := 10019

  predicate Retryable(retcode: int)
  {
    retcode in {REQUOTE, REJECT, CANCEL, INVALID_STOPS, MARKET_CLOSED}
  }

  /** Unclear: the call fails without a return code (nothing returned, placed but not
      filled, fill not confirmed); live says whether a position exists all the same. */
  datatype Reply = Refused(retcode: int) | Unclear(live: bool) | Filled(ticket: int, price: real, volume: real)

  /** What the broker shows and answers at one attempt. */
  datatype Attempt = Attempt(tick: Option<real>, reply: Reply)

  datatype Order = Order(volume: real, price: real, sl: real, tp: real)

  datatype Config = Config(retryCount: nat, maxSlip: real, closeOnExceed: bool)

  datatype Result = Done(ticket: int, price: real, volume: real) | NoTick | Failed | SlippageClosed | CloseFailed

  function Widen(d: Direction, entry: real, sl: real, tp: real, minDist: real): (real, real)
  {
    if d == Long then (Min(sl, entry - minDist), Max(tp, entry + minDist))
    else (Max(sl, entry + minDist), Min(tp, entry - minDist))
  }

  /** b is no closer to the market than a, on both levels. */
  ghost predicate Outward(d: Direction, a: Order, b: Order)
  {
    if d == Long then b.sl <= a.sl && a.tp <= b.tp else a.sl <= b.sl && b.tp <= a.tp
  }

  function StopDistance(plan: Plan): real { Abs(plan.entry - plan.stop) }

  function SlippageShare(plan: Plan, price: real): real
  {
    if StopDistance(plan) > 0.0 then Abs(price - plan.entry) / StopDistance(plan) else 0.0
  }

  predicate Worse(plan: Plan, price: real)
  {
    !(if plan.direction == Long then price < plan.entry else price > plan.entry)
  }

  predicate Exceeds(c: Config, plan: Plan, price: real)
  {
    Abs(price - plan.entry) > 0.0 && Worse(plan, price) && SlippageShare(plan, price) > c.maxSlip
  }

  function Halved(volume: real, si: SymbolInfo): real
    requires si.lotStep > 0.0
  {
    NormaliseLots(volume / 2.0, si.lotStep, si.lotMin, si.lotMax)
  }

  /** The level and volume the next order will carry. */
  datatype Working = Working(volume: real, sl: real, tp: real, halved: bool)

  function Sent(w: Working, price: real): Order { Order(w.volume, price, w.sl, w.tp) }

  /** What one refusal does to the working order; None gives up. */
  function AfterRefusal(d: Direction, si: SymbolInfo, w: Working, price: real, retcode: int,
                        last: bool): Option<Working>
    requires si.lotStep > 0.0
  {
    if retcode == NO_MONEY then
      if w.halved || Halved(w.volume, si) < si.lotMin then None
      else Some(w.(volume := Halved(w.volume, si), halved := true))
    else if !Retryable(retcode) || last then None
    else if retcode == INVALID_STOPS then
      var levels := Widen(d, price, w.sl, w.tp, si.stopsLevel as real * si.point);
      Some(w.(sl := levels.0, tp := levels.1))
    else Some(w)
  }

  /** The planned volume goes first and changes at most once, to half. */
  ghost predicate CutOnce(plan: Plan, si: SymbolInfo, sent: seq<Order>, cut: nat)
    requires si.lotStep > 0.0
  {
    && cut <= |sent| && (cut == 0 ==> sent == [])
    && (forall k :: 0 <= k < cut ==> sent[k].volume == plan.lots)
    && (forall k :: cut <= k < |sent| ==> sent[k].volume == Halved(plan.lots, si))
  }

  ghost predicate OnlyOutward(d: Direction, sent: seq<Order>)
  {
    forall j, k :: 0 <= j <= k < |sent| ==> Outward(d, sent[j], sent[k])
  }

  ghost predicate InvalidBefore(broker: nat -> Attempt, k: nat)
  {
    exists j: nat :: j < k && broker(j).reply == Refused(INVALID_STOPS)
  }

  /** Levels other than the first follow an answer that called the stops invalid. */
  ghost predicate WidenedOnlyWhenInvalid(broker: nat -> Attempt, sent: seq<Order>)
  {
    forall k :: 0 <= k < |sent| && (sent[k].sl != sent[0].sl || sent[k].tp != sent[0].tp) ==> InvalidBefore(broker, k)
  }

  /** A requote, a rejection, a cancellation, invalid stops or a closed market. */
  ghost predicate WorthRepeating(retcode: int)
  {
    retcode == 10004 || retcode == 10006 || retcode == 10007 || retcode == 10016 || retcode == 10018
  }

  ghost predicate OutOfMargin(reply: Reply) { reply == Refused(10019) }

  ghost predicate Repeatable(reply: Reply)
  {
    reply.Refused? && (WorthRepeating(reply.retcode) || OutOfMargin(reply))
  }

  /** How far a target lies beyond a price. */
  function Gain(d: Direction, price: real, tp: real): real { if d == Long then tp - price else price - tp }

  /** The broker's least distance of a level from the market. */
  function StopsRoom(si: SymbolInfo): real { si.stopsLevel as real * si.point }

  /** b goes out after a was answered so: levels called invalid get the broker's distance
      from the market if they had less, want of margin halves the volume, and nothing else
      changes. */
  ghost predicate Succeeds(d: Direction, si: SymbolInfo, a: Order, reply: Reply, b: Order)
    requires si.lotStep > 0.0
  {
    && Repeatable(reply)
    && (if reply == Refused(10016) then
          && Loss(d, a.price, b.sl) == Max(Loss(d, a.price, a.sl), StopsRoom(si))
          && Gain(d, a.price, b.tp) == Max(Gain(d, a.price, a.tp), StopsRoom(si))
        else b.sl == a.sl && b.tp == a.tp)
    && b.volume == if OutOfMargin(reply) then Halved(a.volume, si) else a.volume
  }

  ghost predicate Chained(d: Direction, si: SymbolInfo, broker: nat -> Attempt, sent: seq<Order>)
    requires si.lotStep > 0.0
  {
    forall k :: 0 < k < |sent| ==> Succeeds(d, si, sent[k - 1], broker(k - 1).reply, sent[k])
  }

  /** Some order before the last one was refused for want of margin. */
  ghost predicate CutBefore(broker: nat -> Attempt, n: nat) { exists j: nat :: j < n && OutOfMargin(broker(j).reply) }

  /** The only refusals after which the loop gives up: one not worth repeating, the last
      attempt's, or a second want of margin, unless half the volume is below the minimum. */
  ghost predicate GivesUp(c: Config, plan: Plan, si: SymbolInfo, broker: nat -> Attempt, sent: seq<Order>)
    requires si.lotStep > 0.0 && sent != []
  {
    var reply := broker(|sent| - 1).reply;
    || !Repeatable(reply)
    || |sent| == 1 + c.retryCount
    || (OutOfMargin(reply) && (CutBefore(broker, |sent| - 1) || Halved(plan.lots, si) < si.lotMin))
  }

  ghost predicate RefusedUpTo(broker: nat -> Attempt, n: nat)
  {
    forall k: nat :: k < n ==> Repeatable(broker(k).reply)
  }

  ghost predicate AtTheTick(broker: nat -> Attempt, sent: seq<Order>)
  {
    forall k :: 0 <= k < |sent| ==> broker(k).tick == Some(sent[k].price)
  }

  ghost predicate CutForMargin(broker: nat -> Attempt, cut: nat)
  {
    cut > 0 && broker(cut - 1).reply == Refused(NO_MONEY)
  }

  /** w is what would go out after the orders already sent. */
  ghost predicate Underway(plan: Plan, si: SymbolInfo, broker: nat -> Attempt, tp: real, sent: seq<Order>, w: Working,
                           cut: nat)
    requires si.lotStep > 0.0
  {
    && (w.volume == if w.halved then Halved(plan.lots, si) else plan.lots)
    && (if w.halved then CutForMargin(broker, cut) else cut == |sent|)
    && CutOnce(plan, si, sent, cut)
    && OnlyOutward(plan.direction, sent + [Sent(w, 0.0)])
    && (w.sl != plan.stop || w.tp != tp ==> InvalidBefore(broker, |sent|))
    && (sent + [Sent(w, 0.0)])[0].sl == plan.stop && (sent + [Sent(w, 0.0)])[0].tp == tp
    && WidenedOnlyWhenInvalid(broker, sent)
  }

  lemma SendingStays(plan: Plan, si: SymbolInfo, broker: nat -> Attempt, tp: real, sent: seq<Order>, w: Working,
                     cut: nat, price: real)
    requires si.lotStep > 0.0 && Underway(plan, si, broker, tp, sent, w, cut)
    ensures
      var more := sent + [Sent(w, price)];
      && CutOnce(plan, si, more, if w.halved then cut else |more|)
      && OnlyOutward(plan.direction, more)
      && more[0].sl == plan.stop && more[0].tp == tp
      && WidenedOnlyWhenInvalid(broker, more)
  {
    var more, was := sent + [Sent(w, price)], sent + [Sent(w, 0.0)];
    forall j, k | 0 <= j <= k < |more| ensures Outward(plan.direction, more[j], more[k]) {
      assert Outward(plan.direction, was[j], was[k]);
    }
    forall k | 0 <= k < |more| && (more[k].sl != more[0].sl || more[k].tp != more[0].tp)
      ensures InvalidBefore(broker, k)
    {
      if k < |sent| {
        assert sent[0] == more[0] && sent[k] == more[k];
      }
    }
  }

  lemma RefusalStays(plan: Plan, si: SymbolInfo, broker: nat -> Attempt, tp: real, sent: seq<Order>, w: Working,
                     cut: nat, price: real, retcode: int, last: bool)
    requires si.lotStep > 0.0 && si.stopsLevel >= 0 && si.point >= 0.0
    requires Underway(plan, si, broker, tp, sent, w, cut)
    requires broker(|sent|).reply == Refused(retcode)
    requires AfterRefusal(plan.direction, si, w, price, retcode, last).Some?
    ensures
      var next := AfterRefusal(plan.direction, si, w, price, retcode, last).value;
      && Underway(plan, si, broker, tp, sent + [Sent(w, price)], next, if w.halved then cut else |sent| + 1)
      && Repeatable(Refused(retcode))
  {
    var next := AfterRefusal(plan.direction, si, w, price, retcode, last).value;
    var more, was := sent + [Sent(w, price)], sent + [Sent(w, 0.0)];
    SendingStays(plan, si, broker, tp, sent, w, cut, price);
    var after := more + [Sent(next, 0.0)];
    assert Outward(plan.direction, Sent(w, 0.0), Sent(next, 0.0));
    forall j, k | 0 <= j <= k < |after| ensures Outward(plan.direction, after[j], after[k]) {
      if k < |more| {
        assert Outward(plan.direction, more[j], more[k]);
      } else if j < |more| {
        assert Outward(plan.direction, was[j], was[|sent|]);
      }
    }
    if next.sl != plan.stop || next.tp != tp {
      if retcode == INVALID_STOPS {
        assert InvalidBefore(broker, |more|);
      } else {
        var j: nat :| j < |sent| && broker(j).reply == Refused(INVALID_STOPS);
        assert j < |more|;
      }
    }
  }

  /** What is sent next is what the answer to the last order makes of it. */
  lemma RefusalFollows(plan: Plan, si: SymbolInfo, broker: nat -> Attempt, tp: real, sent: seq<Order>, w: Working,
                       cut: nat, price: real, retcode: int, last: bool)
    requires si.lotStep > 0.0 && Underway(plan, si, broker, tp, sent, w, cut)
    requires NextUp(plan.direction, si, broker, sent, w) && broker(|sent|).reply == Refused(retcode)
    requires AfterRefusal(plan.direction, si, w, price, retcode, last).Some?
    ensures
      var next := AfterRefusal(plan.direction, si, w, price, retcode, last).value;
      NextUp(plan.direction, si, broker, sent + [Sent(w, price)], next)
  {
    var next := AfterRefusal(plan.direction, si, w, price, retcode, last).value;
    assert (sent + [Sent(w, price)])[|sent|] == Sent(w, price);
    assert Succeeds(plan.direction, si, Sent(w, price), Refused(retcode), Sent(next, 0.0));
    CutSoFar(broker, |sent|);
  }

  lemma CutSoFar(broker: nat -> Attempt, n: nat)
    ensures CutBefore(broker, n + 1) <==> CutBefore(broker, n) || OutOfMargin(broker(n).reply)
  {
    if CutBefore(broker, n) {
      var j: nat :| j < n && OutOfMargin(broker(j).reply);
      assert j < n + 1;
    }
  }

  lemma RefusalGivesUp(c: Config, plan: Plan, si: SymbolInfo, broker: nat -> Attempt, tp: real, sent: seq<Order>,
                       w: Working, cut: nat, price: real, retcode: int)
    requires si.lotStep > 0.0 && |sent| <= c.retryCount && Underway(plan, si, broker, tp, sent, w, cut)
    requires NextUp(plan.direction, si, broker, sent, w) && broker(|sent|).reply == Refused(retcode)
    requires AfterRefusal(plan.direction, si, w, price, retcode, |sent| + 1 >= 1 + c.retryCount).None?
    ensures GivesUp(c, plan, si, broker, sent + [Sent(w, price)])
  {
  }

  /** What the sent orders satisfy: levels start where asked and move outward only, after
      an invalid-stops answer; the volume is cut at most once, for want of margin; each
      order follows from the last one and its answer, and carries the fresh price; all but
      the last were refused with a code worth repeating, so at most one was filled. */
  ghost predicate Disciplined(c: Config, plan: Plan, si: SymbolInfo, tp: real, broker: nat -> Attempt,
                              sent: seq<Order>, cut: nat)
    requires si.lotStep > 0.0
  {
    && |sent| <= 1 + c.retryCount
    && (|sent| > 0 ==> sent[0].sl == plan.stop && sent[0].tp == tp)
    && OnlyOutward(plan.direction, sent) && WidenedOnlyWhenInvalid(broker, sent)
    && Chained(plan.direction, si, broker, sent)
    && CutOnce(plan, si, sent, cut) && (cut < |sent| ==> CutForMargin(broker, cut))
    && AtTheTick(broker, sent)
    && RefusedUpTo(broker, if |sent| == 0 then 0 else |sent| - 1)
  }

  /** How the last answer ends the call, and whether a position is left at the broker. */
  function Ending(c: Config, plan: Plan, reply: Reply, closeSucceeds: bool): (Result, bool)
  {
    match reply
    case Unclear(live) => (Failed, live)
    case Refused(_) => (Failed, false)
    case Filled(ticket, price, volume) =>
      if c.closeOnExceed && Exceeds(c, plan, price) then
        if closeSucceeds then (SlippageClosed, false) else (CloseFailed, true)
      else (Done(ticket, price, volume), true)
  }

  /** How a call may end: without a fresh price, or as the last answer says. */
  ghost predicate EndsWell(c: Config, plan: Plan, broker: nat -> Attempt, closeSucceeds: bool,
                           result: Result, sent: seq<Order>, open: bool)
  {
    if result.NoTick? then
      !open && |sent| < 1 + c.retryCount && broker(|sent|).tick.None? && RefusedUpTo(broker, |sent|)
    else |sent| > 0 && (result, open) == Ending(c, plan, broker(|sent| - 1).reply, closeSucceeds)
  }

  /** w is what the last answer makes of the last order, and was cut if any was. */
  ghost predicate NextUp(d: Direction, si: SymbolInfo, broker: nat -> Attempt, sent: seq<Order>, w: Working)
    requires si.lotStep > 0.0
  {
    && (sent != [] ==> Succeeds(d, si, sent[|sent| - 1], broker(|sent| - 1).reply, Sent(w, 0.0)))
    && (w.halved <==> CutBefore(broker, |sent|))
  }

  /** Between two attempts: everything sent so far was refused, and w goes out next. */
  ghost predicate Running(c: Config, plan: Plan, si: SymbolInfo, tp: real, broker: nat -> Attempt, sent: seq<Order>,
                          w: Working, cut: nat)
    requires si.lotStep > 0.0
  {
    && Underway(plan, si, broker, tp, sent, w, cut) && RefusedUpTo(broker, |sent|) && AtTheTick(broker, sent)
    && NextUp(plan.direction, si, broker, sent, w) && Disciplined(c, plan, si, tp, broker, sent, cut)
  }

  /** One attempt: None ends the call. */
  method Send(c: Config, plan: Plan, si: SymbolInfo, ghost tp: real, broker: nat -> Attempt, closeSucceeds: bool,
              sent: seq<Order>, w: Working, ghost cut: nat)
    returns (next: Option<Working>, result: Result, open: bool, order: Option<Order>)
    requires si.lotStep > 0.0 && si.stopsLevel >= 0 && si.point >= 0.0
    requires |sent| <= c.retryCount && Running(c, plan, si, tp, broker, sent, w, cut)
    ensures order.None? ==> next.None? && result.NoTick? && EndsWell(c, plan, broker, closeSucceeds, result, sent, open)
    ensures order.Some? ==>
      var more := sent + [order.value];
      var cutNow := if w.halved then cut else |more|;
      && Disciplined(c, plan, si, tp, broker, more, cutNow)
      && (next.None? ==> EndsWell(c, plan, broker, closeSucceeds, result, more, open)
                         && (broker(|sent|).reply.Refused? ==> GivesUp(c, plan, si, broker, more)))
      && (next.Some? ==> Running(c, plan, si, tp, broker, more, next.value, cutNow)
                         && (result, open) == (Failed, false) && broker(|sent|).reply.Refused?)
  {
    next, result, open, order := None, Failed, false, None;
    var now := broker(|sent|);
    if now.tick.None? {
      result := NoTick;
      return;
    }
    var price := now.tick.value;
    order := Some(Sent(w, price));
    SentIsDisciplined(c, plan, si, broker, tp, sent, w, cut, price);
    match now.reply {
      case Unclear(live) =>
        open := live;
      case Refused(retcode) =>
        next := AfterRefusal(plan.direction, si, w, price, retcode, |sent| + 1 >= 1 + c.retryCount);
        if next.Some? {
          RefusalStays(plan, si, broker, tp, sent, w, cut, price, retcode, |sent| + 1 >= 1 + c.retryCount);
          RefusalFollows(plan, si, broker, tp, sent, w, cut, price, retcode, |sent| + 1 >= 1 + c.retryCount);
        } else {
          RefusalGivesUp(c, plan, si, broker, tp, sent, w, cut, price, retcode);
        }
      case Filled(_, _, _) =>
        var (outcome, left) := Ending(c, plan, now.reply, closeSucceeds);
        result, open := outcome, left;
    }
  }

  /** open: whether the broker holds a position for this plan at the end. */
  method ExecuteMarketOrder(c: Config, plan: Plan, si: SymbolInfo, tpOverride: Option<real>,
                            broker: nat -> Attempt, closeSucceeds: bool)
    returns (result: Result, sent: seq<Order>, open: bool, ghost cut: nat)
    requires si.lotStep > 0.0 && si.stopsLevel >= 0 && si.point >= 0.0
    ensures Disciplined(c, plan, si, FirstTp(plan, tpOverride), broker, sent, cut)
    ensures EndsWell(c, plan, broker, closeSucceeds, result, sent, open)
    ensures !result.NoTick? && broker(|sent| - 1).reply.Refused? ==> GivesUp(c, plan, si, broker, sent)
  {
    ghost var tp := FirstTp(plan, tpOverride);
    var w := Working(plan.lots, plan.stop, if tpOverride.Some? then tpOverride.value else plan.tp2, false);
    sent, open, cut, result := [], false, 0, Failed;
    for attempt := 0 to 1 + c.retryCount
      invariant |sent| == attempt && Running(c, plan, si, tp, broker, sent, w, cut)
      invariant attempt > 0 ==> (result, open) == (Failed, false) && broker(attempt - 1).reply.Refused?
    {
      var next, outcome, left, order := Send(c, plan, si, tp, broker, closeSucceeds, sent, w, cut);
      result, open := outcome, left;
      if order.Some? {
        sent := sent + [order.value];
        cut := if w.halved then cut else |sent|;
      }
      if next.None? {
        return;
      }
      w := next.value;
    }
  }

  lemma SentIsDisciplined(c: Config, plan: Plan, si: SymbolInfo, broker: nat -> Attempt, tp: real, sent: seq<Order>,
                          w: Working, cut: nat, price: real)
    requires si.lotStep > 0.0 && |sent| <= c.retryCount && Underway(plan, si, broker, tp, sent, w, cut)
    requires RefusedUpTo(broker, |sent|) && AtTheTick(broker, sent) && broker(|sent|).tick == Some(price)
    requires NextUp(plan.direction, si, broker, sent, w) && Chained(plan.direction, si, broker, sent)
    ensures
      var more := sent + [Sent(w, price)];
      Disciplined(c, plan, si, tp, broker, more, if w.halved then cut else |more|)
  {
    SendingStays(plan, si, broker, tp, sent, w, cut, price);
  }

  /** Whoever fails leaves no position behind, unless the emergency close itself failed or
      the broker filled an order it did not confirm; whoever succeeds reports the fill. */
  lemma FailuresLeaveNothing(c: Config, plan: Plan, reply: Reply, closeSucceeds: bool)
    ensures
      var (result, open) := Ending(c, plan, reply, closeSucceeds);
      && (!result.Done? ==> (open <==> result.CloseFailed? || reply == Unclear(true)))
      && (result.CloseFailed? ==> !closeSucceeds)
      && (result.Done? <==> reply.Filled? && !(c.closeOnExceed && Exceeds(c, plan, reply.price)))
      && (result.Done? ==> open && reply == Filled(result.ticket, result.price, result.volume))
  {
  }

  /** At most one order of a disciplined sequence was filled, and only the last can be. */
  lemma AtMostOneFill(c: Config, plan: Plan, si: SymbolInfo, tp: real, broker: nat -> Attempt, sent: seq<Order>,
                      cut: nat, k: nat)
    requires si.lotStep > 0.0 && Disciplined(c, plan, si, tp, broker, sent, cut)
    requires k < |sent| && !broker(k).reply.Refused?
    ensures k == |sent| - 1
  {
    assert k < |sent| - 1 ==> Repeatable(broker(k).reply);
  }

  /** Only answers that are worth another order, each with a price at hand, lie before k. */
  ghost predicate Passable(broker: nat -> Attempt, k: nat)
  {
    && (forall j: nat :: j < k ==> broker(j).tick.Some? && Repeatable(broker(j).reply))
    && (forall i: nat, j: nat :: i < j < k ==> !(OutOfMargin(broker(i).reply) && OutOfMargin(broker(j).reply)))
  }

  /** A fill within reach of the retries is always obtained: whatever repeatable answers come
      before it, want of margin once at most, the call ends as that fill says. */
  lemma FillsWithinReachAreObtained(c: Config, plan: Plan, si: SymbolInfo, tp: real, broker: nat -> Attempt,
                                    closeSucceeds: bool, result: Result, sent: seq<Order>, open: bool, cut: nat, k: nat)
    requires si.lotStep > 0.0 && si.lotMin <= Halved(plan.lots, si)
    requires Disciplined(c, plan, si, tp, broker, sent, cut)
    requires EndsWell(c, plan, broker, closeSucceeds, result, sent, open)
    requires !result.NoTick? && broker(|sent| - 1).reply.Refused? ==> GivesUp(c, plan, si, broker, sent)
    requires k <= c.retryCount && Passable(broker, k) && broker(k).tick.Some? && !broker(k).reply.Refused?
    ensures |sent| == k + 1 && (result, open) == Ending(c, plan, broker(k).reply, closeSucceeds)
  {
    assert |sent| > k + 1 ==> Repeatable(broker(k).reply);
    NothingPassableGivesUp(c, plan, si, broker, sent, k);
  }

  lemma NothingPassableGivesUp(c: Config, plan: Plan, si: SymbolInfo, broker: nat -> Attempt, sent: seq<Order>, k: nat)
    requires si.lotStep > 0.0 && si.lotMin <= Halved(plan.lots, si) && k <= c.retryCount && Passable(broker, k)
    ensures 0 < |sent| <= k ==> broker(|sent| - 1).reply.Refused? && !GivesUp(c, plan, si, broker, sent)
  {
    if 0 < |sent| <= k {
      assert Repeatable(broker(|sent| - 1).reply);
    }
  }

  function FirstTp(plan: Plan, tpOverride: Option<real>): real
  {
    if tpOverride.Some? then tpOverride.value else plan.tp2
  }

  // -------------------------------------------------------------------- laws

  /** Halving never raises the volume as long as the plan meets the broker's minimum. */
  lemma HalvingNeverRaises(plan: Plan, si: SymbolInfo, sent: seq<Order>, cut: nat)
    requires si.lotStep > 0.0 && Cents(si.lotStep) && Cents(si.lotMin) && Cents(si.lotMax)
    requires 0.0 <= si.lotMin <= plan.lots && CutOnce(plan, si, sent, cut)
    ensures forall k :: 0 <= k < |sent| ==> sent[k].volume <= plan.lots
    ensures Halved(plan.lots, si) >= si.lotMin
  {
    NormalisedLots(plan.lots / 2.0, si.lotStep, si.lotMin, si.lotMax);
    SteppedIsBelow(plan.lots / 2.0, si.lotStep);
    CentsAreKept(plan.lots / 2.0, si);
  }

  lemma CentsAreKept(lots: real, si: SymbolInfo)
    requires si.lotStep > 0.0 && Cents(si.lotStep) && Cents(si.lotMin) && Cents(si.lotMax)
    ensures NormaliseLots(lots, si.lotStep, si.lotMin, si.lotMax)
        == Max(si.lotMin, Min(Stepped(lots, si.lotStep), si.lotMax))
  {
    SteppedIsCents(lots, si.lotStep);
    CentsRoundToThemselves(Max(si.lotMin, Min(Stepped(lots, si.lotStep), si.lotMax)));
  }

  lemma WithinLimitIsInTheBand(c: Config, plan: Plan, price: real)
    requires !Exceeds(c, plan, price) && StopDistance(plan) > 0.0 && c.maxSlip >= 0.0
    ensures Slip(plan.direction, price, plan.entry) <= c.maxSlip * StopDistance(plan)
  {
    var d, raw, band := StopDistance(plan), Abs(price - plan.entry), c.maxSlip * StopDistance(plan);
    var share := raw / d;
    assert raw == share * d;
    Scaled(share, c.maxSlip, d, raw, band);
    Scaled(0.0, d, if c.maxSlip > 0.0 then c.maxSlip else 1.0, 0.0, if c.maxSlip > 0.0 then band else d);
  }

  /** A fill is closed again exactly when that is configured and it lies beyond the band on
      the worse side. */
  lemma ClosedExactlyBeyondTheBand(c: Config, plan: Plan, ticket: int, price: real, volume: real, closeSucceeds: bool)
    ensures
      var result := Ending(c, plan, Filled(ticket, price, volume), closeSucceeds).0;
      var slip := Slip(plan.direction, price, plan.entry);
      && (result.SlippageClosed? || result.CloseFailed? <==>
            c.closeOnExceed && slip > 0.0
            && (if plan.entry == plan.stop then c.maxSlip < 0.0 else slip > c.maxSlip * Abs(plan.entry - plan.stop)))
      && (result.Done? <==> !result.SlippageClosed? && !result.CloseFailed?)
      && (result.SlippageClosed? ==> closeSucceeds)
  {
    var d, slip := StopDistance(plan), Slip(plan.direction, price, plan.entry);
    if d > 0.0 {
      var share := Abs(price - plan.entry) / d;
      assert Abs(price - plan.entry) == share * d;
      Scaled(c.maxSlip, share, d, c.maxSlip * d, Abs(price - plan.entry));
    }
  }

  /** What the loop reports as done lies in the band. */
  ghost predicate InTheBand(c: Config, plan: Plan, reply: Reply, closeSucceeds: bool)
  {
    var result := Ending(c, plan, reply, closeSucceeds).0;
    result.Done? ==> Slip(plan.direction, result.price, plan.entry) <= c.maxSlip * StopDistance(plan)
  }

  /** Every fill that is kept lies inside the slippage band exactly when fills beyond it are
      closed again. */
  lemma KeptFillsAreInTheBand(c: Config, plan: Plan)
    requires StopDistance(plan) > 0.0 && c.maxSlip >= 0.0
    ensures (forall reply, closeSucceeds :: InTheBand(c, plan, reply, closeSucceeds)) <==> c.closeOnExceed
  {
    if c.closeOnExceed {
      forall reply, closeSucceeds ensures InTheBand(c, plan, reply, closeSucceeds) {
        if reply.Filled? && !Exceeds(c, plan, reply.price) {
          WithinLimitIsInTheBand(c, plan, reply.price);
        }
      }
    } else {
      var band := c.maxSlip * StopDistance(plan);
      var price := if plan.direction == Long then plan.entry + Abs(band) + 1.0 else plan.entry - Abs(band) - 1.0;
      assert !InTheBand(c, plan, Filled(0, price, plan.lots), true);
    }
  }

  /** A planner's configuration, a signal and a symbol: one money unit a lot and point. */
  const SIZING := Sizing.Config(0.0, 0.2, 50.0, 50.0, 100.0, 0.01)
  const SIGNAL := Signal(Long, 100.0, 99.0, 103.0)
  const SYMBOL := SymbolInfo(0, 1.0, 1.0, 1.0, 100.0, 100.0, 0.01, 0.01, 100.0, 0.01, 0.01, 100.0, 0, 0)

  lemma ExampleDistance()
    ensures Sane(SIZING, SIGNAL, SYMBOL) && Surcharge(SIZING, SYMBOL) == 0.0
    ensures SizingStop(SIZING, SIGNAL, SYMBOL) == 98.8
  {
    assert SlipBand(SIZING, SIGNAL) == 0.2;
    assert SizingDistance(SIZING, SIGNAL, SYMBOL) == 1.2;
  }

  lemma ExampleLots()
    ensures LotMoney(1.2, SYMBOL) == 1.2 && NormaliseLots(10.0, 0.01, 0.01, 100.0) == 10.0
  {
    assert 10.0 / 0.01 == 1000.0;
    assert Stepped(10.0, 0.01) == 10.0;
  }

  lemma ExamplePlan()
    ensures Sane(SIZING, SIGNAL, SYMBOL) && MakePlan(SIZING, SIGNAL, SYMBOL, 12.0, 1.0).Some?
    ensures
      var plan := MakePlan(SIZING, SIGNAL, SYMBOL, 12.0, 1.0).value;
      && plan.direction == Long && plan.entry == 100.0 && plan.stop == 99.0
      && plan.lots == 10.0 && plan.riskAmount == 12.0
  {
    ExampleDistance();
    ExampleLots();
    LotsFromDistance(12.0, 100.0, 98.8, SYMBOL, 100.0, 0.01);
    assert Quotient(12.0, 1.2) == 10.0;
    assert FromUnit(12.0, 1.2, SYMBOL, 100.0, 0.01) == LotCalc(10.0, 12.0);
    assert Amount(12.0, 1.0) == 12.0;
  }

  /** With closing switched off, a fill three stop distances beyond the entry of a plan the
      planner makes is kept; within the band it would lose at most the planned 12, and
      stopped out it loses 40. */
  lemma FillsBeyondTheBandAreKept()
    ensures MakePlan(SIZING, SIGNAL, SYMBOL, 12.0, 1.0).Some?
    ensures
      var c := Config.Config(2, SIZING.maxSlip, false);
      var plan := MakePlan(SIZING, SIGNAL, SYMBOL, 12.0, 1.0).value;
      && Ending(c, plan, Filled(1, 103.0, plan.lots), true) == (Done(1, 103.0, plan.lots), true)
      && Cost(plan.lots, Loss(Long, 100.2, plan.stop), SYMBOL) == plan.riskAmount == 12.0
      && Cost(plan.lots, Loss(Long, 103.0, plan.stop), SYMBOL) == 40.0
  {
    ExamplePlan();
    assert LotMoney(1.2, SYMBOL) == 1.2 && LotMoney(4.0, SYMBOL) == 4.0;
  }

  /** So for every long plan and every multiple of its risk some fill is kept that loses more. */
  lemma KeptFillsLoseAnyAmount(c: Config, plan: Plan, si: SymbolInfo, amount: real)
    requires !c.closeOnExceed && plan.direction == Long && plan.lots > 0.0 && si.tickSize > 0.0 && si.tickValue > 0.0
    ensures exists price: real ::
              && Ending(c, plan, Filled(0, price, plan.lots), true) == (Done(0, price, plan.lots), true)
              && Cost(plan.lots, Loss(Long, price, plan.stop), si) > amount
  {
    var distance := DistanceCosting(plan.lots, si, Abs(amount) + 1.0);
    var price := plan.stop + distance;
    assert Loss(Long, price, plan.stop) == distance;
  }

  lemma DistanceCosting(lots: real, si: SymbolInfo, amount: real) returns (distance: real)
    requires lots > 0.0 && si.tickSize > 0.0 && si.tickValue > 0.0
    ensures Cost(lots, distance, si) == amount
  {
    var k := si.tickValue / si.tickSize;
    var perLot := amount / lots;
    distance := perLot / k;
    assert distance * k == perLot && perLot * lots == amount;
  }

  /** How far a fill lies beyond the band sizing assumed. */
  function Beyond(sc: Sizing.Config, s: Signal, price: real): real
  {
    Max(0.0, Slip(s.direction, price, s.entry) - SlipBand(sc, s))
  }

  /** Exactly what a fill loses at its stop, spread included: what was sized for, plus its
      distance from the edge of the band, which is negative inside it. */
  lemma FillLosesExactly(sc: Sizing.Config, s: Signal, si: SymbolInfo, price: real, volume: real)
    requires Sane(sc, s, si)
    ensures Cost(volume, Loss(s.direction, price, s.stop) + Surcharge(sc, si), si)
         == Cost(volume, SizingDistance(sc, s, si), si)
            + Cost(volume, Slip(s.direction, price, s.entry) - SlipBand(sc, s), si)
  {
    BandIsNotNegative(sc, s);
    var excess := Slip(s.direction, price, s.entry) - SlipBand(sc, s);
    assert Loss(s.direction, price, s.stop) + Surcharge(sc, si) == SizingDistance(sc, s, si) + excess;
    CostAdds(volume, SizingDistance(sc, s, si), excess, si);
  }

  lemma BandIsNotNegative(sc: Sizing.Config, s: Signal)
    requires sc.maxSlip >= 0.0
    ensures SlipBand(sc, s) >= 0.0
  {
  }

  /** A fill of at most the planned volume loses at most the planned risk and the money value
      of its distance beyond the band. */
  lemma FillsCostAtMost(sc: Sizing.Config, s: Signal, si: SymbolInfo, p: Plan, price: real, volume: real)
    requires Sane(sc, s, si) && 0.0 <= volume <= p.lots && p.riskAmount >= 0.0
    requires Cost(p.lots, SizingDistance(sc, s, si), si) <= p.riskAmount
    ensures Cost(volume, Loss(s.direction, price, s.stop) + Surcharge(sc, si), si)
         <= p.riskAmount + Cost(volume, Beyond(sc, s, price), si)
  {
    FillLosesExactly(sc, s, si, price, volume);
    FewerLotsCostLess(volume, p.lots, SizingDistance(sc, s, si), si, p.riskAmount);
    CostGrows(volume, Slip(s.direction, price, s.entry) - SlipBand(sc, s), Beyond(sc, s, price), si);
  }

  lemma PlanKeepsLevels(sc: Sizing.Config, s: Signal, si: SymbolInfo, baseRisk: real, multiplier: real)
    requires si.volumeStep >= 0.0 && MakePlan(sc, s, si, baseRisk, multiplier).Some?
    ensures
      var p := MakePlan(sc, s, si, baseRisk, multiplier).value;
      p.direction == s.direction && p.entry == s.entry && p.stop == s.stop
  {
  }

  /** End to end, for whatever the loop reports as done at up to the planned volume: stopped
      out it loses, spread included, at most the planned risk and the money value of its
      distance beyond the band; which is nothing when such fills are closed again. */
  lemma KeptFillsAreCovered(sc: Sizing.Config, s: Signal, si: SymbolInfo, baseRisk: real, multiplier: real,
                            c: Config, reply: Reply, closeSucceeds: bool)
    requires Sane(sc, s, si) && c.maxSlip == sc.maxSlip && baseRisk >= 0.0
    requires sc.minLot <= RawLots(Amount(baseRisk, multiplier), SizingDistance(sc, s, si), si)
    requires MakePlan(sc, s, si, baseRisk, multiplier).Some?
    requires
      var p := MakePlan(sc, s, si, baseRisk, multiplier).value;
      Ending(c, p, reply, closeSucceeds).0.Done? && 0.0 <= reply.volume <= p.lots
    ensures
      var p := MakePlan(sc, s, si, baseRisk, multiplier).value;
      && Cost(reply.volume, Loss(s.direction, reply.price, s.stop) + Surcharge(sc, si), si)
         <= p.riskAmount + Cost(reply.volume, Beyond(sc, s, reply.price), si)
      && (c.closeOnExceed ==>
            Cost(reply.volume, Loss(s.direction, reply.price, s.stop) + Surcharge(sc, si), si) <= p.riskAmount)
  {
    var p := MakePlan(sc, s, si, baseRisk, multiplier).value;
    PlanKeepsLevels(sc, s, si, baseRisk, multiplier);
    SizedRiskIsBounded(sc, s, si, baseRisk, multiplier);
    AmountIsNonNegative(baseRisk, multiplier);
    FillsCostAtMost(sc, s, si, p, reply.price, reply.volume);
    if c.closeOnExceed {
      NothingBeyond(sc, s, c, p, reply.price);
      ZeroCostsNothing(reply.volume, si);
    }
  }

  lemma NothingBeyond(sc: Sizing.Config, s: Signal, c: Config, p: Plan, price: real)
    requires !Exceeds(c, p, price) && c.maxSlip == sc.maxSlip >= 0.0 && s.entry != s.stop
    requires p.direction == s.direction && p.entry == s.entry && p.stop == s.stop
    ensures Beyond(sc, s, price) == 0.0
  {
    WithinLimitIsInTheBand(c, p, price);
    assert StopDistance(p) == Abs(s.entry - s.stop);
  }

  lemma ZeroCostsNothing(volume: real, si: SymbolInfo)
    requires si.tickSize > 0.0
    ensures Cost(volume, 0.0, si) == 0.0
  {
    assert LotMoney(0.0, si) == 0.0;
  }

  lemma AmountIsNonNegative(baseRisk: real, multiplier: real)
    requires baseRisk >= 0.0
    ensures Amount(baseRisk, multiplier) >= 0.0
  {
  }

  lemma FewerLotsCostLess(few: real, many: real, distance: real, si: SymbolInfo, limit: real)
    requires 0.0 <= few <= many && si.tickSize > 0.0 && limit >= 0.0 && Cost(many, distance, si) <= limit
    ensures Cost(few, distance, si) <= limit
  {
    var m := LotMoney(distance, si);
    if m > 0.0 {
      Scaled(few, many, m, Cost(few, distance, si), Cost(many, distance, si));
    } else if m < 0.0 {
      Scaled(0.0, few, -m, 0.0, -Cost(few, distance, si));
    }
  }

  /** The cut volume is the largest step multiple up to half, between the broker's limits. */
  lemma HalvedIsHalf(volume: real, si: SymbolInfo)
    requires si.lotStep > 0.0 && Cents(si.lotStep) && Cents(si.lotMin) && Cents(si.lotMax)
    requires si.lotMin <= volume / 2.0 <= si.lotMax
    ensures volume / 2.0 - si.lotStep < Halved(volume, si) <= volume / 2.0
  {
    NormalisedLots(volume / 2.0, si.lotStep, si.lotMin, si.lotMax);
  }

  /** The stop actually sent may be wider than the planned one, and then the covered
      amount falls short by exactly the money value of the widening. */
  lemma WideningCostsItsDistance(lots: real, d: Direction, fill: real, stop: real, tp: real, minDist: real,
                                 si: SymbolInfo)
    requires si.tickSize > 0.0
    ensures
      var wide := Widen(d, fill, stop, tp, minDist).0;
      && Cost(lots, Loss(d, fill, wide), si) == Cost(lots, Loss(d, fill, stop), si) + Cost(lots, Abs(wide - stop), si)
      && Abs(wide - stop) == Max(0.0, minDist - Loss(d, fill, stop))
  {
    var wide := Widen(d, fill, stop, tp, minDist).0;
    CostAdds(lots, Loss(d, fill, stop), Abs(wide - stop), si);
  }

  /** The stop the filled order carried: never inside the planned one, and the planned one
      unless an earlier answer called the stops invalid. */
  lemma SentStopIsOutward(c: Config, plan: Plan, si: SymbolInfo, tp: real, broker: nat -> Attempt, sent: seq<Order>,
                          cut: nat)
    requires si.lotStep > 0.0 && Disciplined(c, plan, si, tp, broker, sent, cut) && sent != []
    ensures Widened(plan, sent[|sent| - 1].sl) >= 0.0
    ensures !InvalidBefore(broker, |sent| - 1) ==> sent[|sent| - 1].sl == plan.stop
  {
    assert Outward(plan.direction, sent[0], sent[|sent| - 1]);
  }

  /** How far beyond the planned stop a stop lies. */
  function Widened(plan: Plan, stop: real): real { Loss(plan.direction, plan.stop, stop) }

  /** A position loses at another stop what it loses at the planned one and the money value
      of the distance between the two. */
  lemma LossAtAnotherStop(plan: Plan, si: SymbolInfo, volume: real, price: real, surcharge: real, stop: real)
    requires si.tickSize > 0.0
    ensures Cost(volume, Loss(plan.direction, price, stop) + surcharge, si)
         == Cost(volume, Loss(plan.direction, price, plan.stop) + surcharge, si) + Cost(volume, Widened(plan, stop), si)
  {
    CostAdds(volume, Loss(plan.direction, price, plan.stop) + surcharge, Widened(plan, stop), si);
    assert Loss(plan.direction, price, stop) + surcharge
        == (Loss(plan.direction, price, plan.stop) + surcharge) + Widened(plan, stop);
  }

  lemma CostAdds(lots: real, a: real, b: real, si: SymbolInfo)
    requires si.tickSize > 0.0
    ensures Cost(lots, a + b, si) == Cost(lots, a, si) + Cost(lots, b, si)
  {
    MoneyAdds(a, b, si);
    ScaledSum(LotMoney(a, si), LotMoney(b, si), lots, LotMoney(a, si) * lots, LotMoney(b, si) * lots,
              (LotMoney(a, si) + LotMoney(b, si)) * lots);
  }

  lemma MoneyAdds(a: real, b: real, si: SymbolInfo)
    requires si.tickSize > 0.0
    ensures LotMoney(a + b, si) == LotMoney(a, si) + LotMoney(b, si)
  {
  }
}
