/** What one poll does to a trade, in terms of its profit: nothing before TP1 is reached, the
    three steps from then on; at which prices closes, stops and reasons come out. */
module PollLaws {
  import opened Sums
  import opened Sizing
  import opened PositionManager
  import opened PositionLaws

  /** What a price is worth to a trade, per unit, measured from its fill. */
  function Profit(t: Trade, price: real): real
  {
    match t.direction
    case Long => price - t.entry
    case Short => t.entry - price
  }

  /** Whether polls look out for this trade's TP1. */
  predicate Awaits(t: Trade) { t.tp1 != 0.0 && !(t.tp1Hit || t.stub) }

  // ------------------------------------------------------------------- when TP1 is reached

  /** A poll changes a trade, long or short, only if it awaits its TP1 and its profit is at
      least that at TP1; then it takes the three steps. */
  lemma PollActsFromTp1On(c: Settings, w: World, price: real, luck: Luck)
    ensures Awaits(w.trade) && Profit(w.trade, price) >= Profit(w.trade, w.trade.tp1) ==>
              Polled(c, w, price, luck) == Tp1Reached(c, w, luck)
    ensures !Awaits(w.trade) || Profit(w.trade, price) < Profit(w.trade, w.trade.tp1) ==> Polled(c, w, price, luck) == w
  {
  }

  /** No poll of the run saw TP1, which lies between entry and target. */
  ghost predicate StaysBeforeTp1(t: Trade, run: seq<Happening>)
  {
    forall k :: 0 <= k < |run| && run[k].Poll? ==> Profit(t, run[k].price) < Profit(t, t.tp1)
  }

  ghost predicate SameLevels(t: Trade, origin: Trade)
  {
    t.stub || (t.direction == origin.direction && t.entry == origin.entry && t.tp1 == origin.tp1)
  }

  ghost predicate Untouched(w: World, origin: World)
  {
    && w.ledger.closes == 0 && w.ledger.moves == 0 && w.ledger.hits == 0
    && w.stop == origin.stop && w.volume == origin.volume
    && SameLevels(w.trade, origin.trade) && (w.saved.Some? ==> SameLevels(w.saved.value, origin.trade))
  }

  lemma RestartStaysUntouched(w: World, recordSaved: bool, origin: World)
    requires Untouched(w, origin)
    ensures Untouched(Restarted(w, recordSaved), origin)
  {
  }

  /** Over every run, restarts included: until some poll finds the profit at TP1 or beyond, no
      part of the position is closed, its stop does not move and no hit is recorded. */
  lemma {:induction false} NothingHappensBeforeTp1(c: Settings, w: World, run: seq<Happening>)
    requires JustOpened(w) && StaysBeforeTp1(w.trade, run)
    ensures Untouched(Run(c, w, run), w)
  {
    if run != [] {
      var init, h := run[..|run| - 1], run[|run| - 1];
      NothingHappensBeforeTp1(c, w, init);
      var before := Run(c, w, init);
      if h.Poll? {
        assert run[|run| - 1].Poll? && Profit(w.trade, h.price) < Profit(w.trade, w.trade.tp1);
        PollActsFromTp1On(c, before, h.price, h.luck);
      } else {
        RestartStaysUntouched(before, h.recordSaved, w);
      }
    }
  }

  // ------------------------------------------------------------------- the three steps

  /** The price a position is closed at: a long is sold at the bid, a short bought back at
      the ask. */
  function ClosingPrice(t: Trade, tick: Tick): real
  {
    match t.direction
    case Long => tick.bid
    case Short => tick.ask
  }

  /** Step 1, exactly: the broker closes part when one is planned and not on record, symbol and
      tick were seen and the order was not refused; it is on record when it was confirmed. */
  lemma CloseIsExact(w: World, luck: Luck)
    ensures
      var v := AfterClose(w, luck);
      var sent := w.trade.tp1Lots > 0.0 && w.trade.tp1ClosePrice == None
                  && luck.info.Some? && luck.tick.Some? && luck.close != Refused;
      && (v.ledger.closes == w.ledger.closes + 1 <==> sent) && (!sent ==> v == w)
      && (sent ==> v.volume == w.volume - CloseVolume(w.trade, luck.info.value) && v.stop == w.stop)
      && (sent && luck.close == Unconfirmed ==> v.trade == w.trade && v.saved == w.saved)
      && (sent && luck.close == Done ==>
            && v.trade.tp1ClosePrice == Some(ClosingPrice(w.trade, luck.tick.value))
            && v.trade.lots == Round2(w.trade.lots - w.trade.tp1Lots) && v.trade.status == PartiallyClosed
            && (v.saved == Some(v.trade) || !luck.closeSaved) && (!luck.closeSaved ==> v.saved == w.saved))
  {
  }

  /** The volume closed: within what is open and what the broker takes, and the most whole
      steps of the planned one, unless one of these limits or the broker's minimum decides. */
  lemma CloseVolumeIsExact(t: Trade, i: BrokerInfo)
    requires Cents(i.volumeStep) && Cents(i.volumeMin) && Cents(i.volumeMax) && Cents(t.lots)
    ensures
      var v := CloseVolume(t, i);
      && (v == i.volumeMin || (v <= t.lots && v <= i.volumeMax && v > i.volumeMin))
      && (v <= t.tp1Lots <==> i.volumeMin <= t.tp1Lots)
      && (v < t.lots && v < i.volumeMax ==> t.tp1Lots < v + i.volumeStep)
  {
    NormalisedLots(t.tp1Lots, i.volumeStep, i.volumeMin, Min(i.volumeMax, t.lots));
  }

  /** The buffer laid beyond the anchor: none when switched off; else the spread by its
      multiple, as far as the share of the risk allows, and never less than the spread. */
  ghost predicate IsBuffer(c: Settings, b: Basis, tick: Tick, buffer: real)
  {
    var spread := if tick.ask > tick.bid then tick.ask - tick.bid else 0.0;
    var risk := if b.anchor > b.planStop then b.anchor - b.planStop else b.planStop - b.anchor;
    var share := if c.maxBufferPct > 0.0 then risk * c.maxBufferPct / 100.0 else 0.0;
    if c.spreadMultiplier <= 0.0 then buffer == 0.0
    else
      && buffer >= spread && (buffer <= share || buffer == spread)
      && (buffer == spread || buffer == share || buffer == spread * c.spreadMultiplier)
      && (buffer < spread * c.spreadMultiplier ==> buffer >= share)
      && (buffer > spread ==> buffer <= spread * c.spreadMultiplier)
  }

  lemma BufferIsTheBuffer(c: Settings, b: Basis, tick: Tick)
    ensures IsBuffer(c, b, tick, Buffer(c, b, tick))
  {
  }

  /** The broker's room: one point more than the larger of its two levels. */
  ghost predicate IsRoom(i: Info, room: real)
  {
    && (room == (i.stopsLevel + 1) as real * i.point || room == (i.freezeLevel + 1) as real * i.point)
    && room >= (i.stopsLevel + 1) as real * i.point && room >= (i.freezeLevel + 1) as real * i.point
  }

  lemma RoomIsTheRoom(i: BrokerInfo)
    ensures IsRoom(i, MinDistance(i))
  {
    var s, f := (i.stopsLevel + 1) as real, (i.freezeLevel + 1) as real;
    Scaled(s, f, i.point, s * i.point, f * i.point);
    Scaled(f, s, i.point, f * i.point, s * i.point);
  }

  lemma LevelIsFound(c: Settings, b: Basis, i: BrokerInfo, tick: Tick, level: real, room: real)
    requires level == Protected(c, b, tick) && room == MinDistance(i)
    ensures
      var stop := ValidBreakevenSl(c, b, i, tick);
      && (stop.Some? <==> if b.direction == Long then tick.bid > 0.0 && level + room <= tick.bid
                          else tick.ask > 0.0 && tick.ask + room <= level)
      && (stop.Some? ==> stop.value == ToGrid(level, i.grid))
  {
  }

  /** The level nearest to x of a whole number of digits. */
  ghost predicate IsNearest(x: real, grid: real, stop: real) { OnGrid(stop, grid) && -0.5 <= (stop - x) * grid <= 0.5 }

  /** Step 2, exactly: a level is found when the anchor and its buffer leave the broker's room
      to a market that has a price, and it is that level to the nearest whole digit. */
  lemma BreakevenIsExact(c: Settings, b: Basis, i: BrokerInfo, tick: Tick) returns (buffer: real, room: real)
    ensures IsBuffer(c, b, tick, buffer) && IsRoom(i, room)
    ensures
      var level := if b.direction == Long then b.anchor + buffer else b.anchor - buffer;
      var stop := ValidBreakevenSl(c, b, i, tick);
      && (stop.Some? <==> if b.direction == Long then tick.bid > 0.0 && level + room <= tick.bid
                          else tick.ask > 0.0 && tick.ask + room <= level)
      && (stop.Some? ==> IsNearest(level, i.grid, stop.value))
  {
    buffer, room := Buffer(c, b, tick), MinDistance(i);
    BufferIsTheBuffer(c, b, tick);
    RoomIsTheRoom(i);
    var level := if b.direction == Long then b.anchor + buffer else b.anchor - buffer;
    LevelIsFound(c, b, i, tick, level, room);
    NearestDigit(level, i.grid);
  }

  lemma NearestDigit(x: real, grid: real)
    requires grid > 0.0
    ensures IsNearest(x, grid, ToGrid(x, grid))
  {
    NearestOf(x, grid, ToGrid(x, grid), HalfEven(x * grid), x * grid);
  }

  lemma NearestOf(x: real, grid: real, r: real, n: int, y: real)
    requires grid > 0.0 && y == x * grid && n == HalfEven(y) && r == n as real / grid
    ensures IsNearest(x, grid, r)
  {
    var rg := r * grid;
    assert rg == n as real;
    WholeIsOnGrid(r, grid, n);
    HalfEvenIsOrdered(y, y);
    Difference(r, x, grid, rg, y);
    assert -0.5 <= rg - y <= 0.5;
  }

  lemma WholeIsOnGrid(r: real, grid: real, n: int)
    requires r * grid == n as real
    ensures OnGrid(r, grid)
  {
    assert (n as real).Floor == n;
  }

  lemma Difference(r: real, x: real, grid: real, rg: real, xg: real)
    requires rg == r * grid && xg == x * grid
    ensures (r - x) * grid == rg - xg
  {
  }

  /** Which market step 2 looks at: the one the close saw, as far as it saw one; only what it
      did not see is looked up again. */
  lemma MoveSeesTheMarketOfTheClose(t: Trade, luck: Luck)
    ensures
      var info := if t.tp1Lots > 0.0 && t.tp1ClosePrice == None && luck.info.Some? then luck.info else luck.laterInfo;
      var tick := if t.tp1Lots > 0.0 && t.tp1ClosePrice == None && luck.info.Some? && luck.tick.Some? then luck.tick
                  else luck.laterTick;
      && (MoveOf(t, luck).Some? <==> info.Some? && tick.Some?)
      && (MoveOf(t, luck).Some? ==> MoveOf(t, luck) == Some(Move(t.Levels(), info.value, tick.value)))
  {
  }

  /** Step 3, exactly: the hit is recorded when the planned close is on record or none was
      planned, and the stop moved and was confirmed or is not to move. Then the stop on record
      is the moved one, and an event goes out when the record was saved. */
  lemma HitIsExact(c: Settings, w: World, luck: Luck)
    requires Awaits(w.trade)
    ensures
      var v, asked := Tp1Reached(c, w, luck), StopAsked(c, MoveOf(w.trade, luck));
      var closed := AfterClose(w, luck).trade;
      && (v.trade.tp1Hit <==> (w.trade.tp1Lots <= 0.0 || closed.tp1ClosePrice.Some?)
                              && (c.moveSl ==> asked.Some? && luck.moved == Done))
      && (v.ledger.hits == w.ledger.hits + 1 <==> v.trade.tp1Hit)
      && (v.trade.tp1Hit ==>
            && v.trade.sl == (if c.moveSl then asked.value else w.trade.sl)
            && v.trade.status == (if closed.tp1ClosePrice.Some? then PartiallyClosed else w.trade.status)
            && v.trade.lots == closed.lots && v.trade.tp1ClosePrice == closed.tp1ClosePrice
            && (if luck.hitSaved then v.saved == Some(v.trade) && v.ledger.events == w.ledger.events + 1
                else v.saved == AfterClose(w, luck).saved && v.ledger.events == w.ledger.events))
      && (!v.trade.tp1Hit ==> v.trade == closed && v.saved == AfterClose(w, luck).saved)
      && (v.stop != w.stop ==> c.moveSl && asked == Some(v.stop) && luck.moved != Refused)
      && (c.moveSl && asked.Some? && luck.moved != Refused ==> v.stop == asked.value)
      && (!c.moveSl ==> asked.None? && v.stop == w.stop)
      && v.ledger.moves == w.ledger.moves + (if asked.Some? && luck.moved != Refused then 1 else 0)
      && v.ledger.move == (if asked.Some? && luck.moved != Refused then MoveOf(w.trade, luck) else w.ledger.move)
  {
  }

  // ------------------------------------------------------------------- the close

  /** Why a trade is said to have closed: by its profit at the last price, whatever stop it
      has by then; without a price or a target always as a stop loss. */
  lemma ReasonIsByProfit(t: Trade, price: real)
    requires !t.stub
    ensures t.tp2 == 0.0 ==> CloseReason(t, Some(price)) == SlHit
    ensures t.tp2 != 0.0 ==>
      && (CloseReason(t, Some(price)) == Tp2Hit <==> Profit(t, price) >= Profit(t, t.tp2))
      && (CloseReason(t, Some(price)) == SlHit <==>
            Profit(t, price) < Profit(t, t.tp2) && Profit(t, price) <= Profit(t, t.sl))
    ensures CloseReason(t, None) == SlHit
    ensures CloseReason(t.(stub := true), Some(price)) == WhileDown == CloseReason(t.(stub := true), None)
  {
  }

  /** The ratio of a close: its profit in units of the distance to the stop then on record,
      and zero when that stop is not on the losing side. */
  lemma RatioIsProfitOverRisk(t: Trade, price: real)
    requires !t.stub && price != 0.0
    ensures
      var record := ClosedRecord(t, Some(price));
      && record.status == Closed && record.closePrice == Some(price) && record.ratio.Some?
      && (t.entry != 0.0 && Profit(t, t.sl) < 0.0 ==> record.ratio.value * -Profit(t, t.sl) == Profit(t, price))
      && (t.entry == 0.0 || Profit(t, t.sl) >= 0.0 ==> record.ratio.value == 0.0)
  {
  }

  /** A close at price zero is booked like one without any: at the target, or without one at
      the entry. */
  lemma UnpricedClosesAreBookedAtTheTarget(t: Trade)
    requires !t.stub
    ensures ClosedRecord(t, Some(0.0)) == ClosedRecord(t, None)
    ensures ClosedRecord(t, None).closePrice == Some(if t.tp2 == 0.0 then t.entry else t.tp2)
    ensures t.tp2 != 0.0 ==> ClosedRecord(t, None) == ClosedRecord(t, Some(t.tp2))
  {
  }

  /** A close is announced once and last, after the target or stop hit it was, if any. */
  lemma CloseIsAnnouncedOnce(key: Key, t: Trade, price: Option<real>)
    ensures
      var told, reason := Announced(key, t, price), CloseReason(t, price);
      && told != [] && told[|told| - 1] == TradeClosed(key, ClosedRecord(t, price))
      && |told| == (if reason == Tp2Hit || reason == SlHit then 2 else 1)
      && (reason == Tp2Hit ==> told[0] == Tp2Reached(key)) && (reason == SlHit ==> told[0] == SlReached(key))
  {
  }

  // ------------------------------------------------------------------- adoption

  /** What a poll takes an unknown position over as: its own record, measured from the fill,
      unless a stub's record is read first; then that stub; and without any open record a new
      stub with the position's levels, of which nothing is to be closed and no history is
      known. */
  lemma AdoptionIsFaithful(v: View, luck: Luck)
    requires v.own.None? && v.stub.None? && v.position.Some?
    ensures
      var w, p := AdoptView(v, luck), v.position.value;
      var own := v.ownSaved.Some? && v.ownSaved.value.status != Closed;
      var stub := v.stubSaved.Some? && v.stubSaved.value.status != Closed;
      && (own && !(stub && luck.stubFirst) ==>
            w == v.(own := Some(v.ownSaved.value.(anchor := v.ownSaved.value.entry))))
      && (stub && (!own || luck.stubFirst) ==>
            w == v.(stub := Some(v.stubSaved.value.(anchor := v.stubSaved.value.entry))))
      && (!own && !stub ==>
            && w.own.None? && w.stub.Some? && w.stubSaved == (if luck.recordSaved then w.stub else v.stubSaved)
            && var t := w.stub.value;
               && t.stub && t.direction == p.direction && t.entry == p.openPrice == t.anchor
               && t.sl == p.stop == t.planStop && t.tp1 == p.takeProfit == t.tp2 && t.lots == p.volume
               && t.tp1Lots == 0.0 && t.tp1ClosePrice.None? && !t.tp1Hit && t.status == Open
               && t.closePrice.None? && t.ratio.None?)
  {
  }

  /** What a restart makes of a position: an open record is taken up measured from the fill,
      with the lots and the stop the broker has; without one a stub is made up, and saved if
      that works; the broker's side stays as it is. */
  lemma RestartTakesTheBrokersSide(w: World, recordSaved: bool)
    ensures
      var v, known := Restarted(w, recordSaved), w.saved.Some? && w.saved.value.status != Closed;
      && v.volume == w.volume == v.trade.lots && v.stop == w.stop == v.trade.sl
      && (known ==> v.saved == w.saved
                    && v.trade == w.saved.value.(anchor := w.saved.value.entry, lots := w.volume, sl := w.stop))
      && (!known ==> v.trade.stub && v.trade.entry == w.trade.entry && v.trade.tp2 == w.trade.tp2
                     && v.trade.direction == w.trade.direction)
      && (!known ==> v.saved == if recordSaved then Some(v.trade) else w.saved)
  {
  }

  /** The engine's own trade is stored beside whatever else the ticket has, and on record if
      that went well. */
  lemma OwnTradeIsStored(v: View, t: Trade, saved: bool)
    ensures
      var w := WithOwn(v, t, saved);
      && w.own == Some(t) && (saved ==> w.ownSaved == Some(t)) && (!saved ==> w.ownSaved == v.ownSaved)
      && w.stub == v.stub && w.stubSaved == v.stubSaved && w.position == v.position && w.ledger == v.ledger
      && w.misses == v.misses && w.last == v.last
  {
  }

  /** While the position is there every poll of a tracked ticket remembers its price, and gives
      a stub its whole grace again. */
  lemma PollRemembersThePrice(c: Settings, missLimit: nat, v: View, luck: Luck)
    requires v.position.Some? && (v.own.Some? || v.stub.Some?)
    ensures
      var w := PollView(c, missLimit, v, luck);
      && w.last == Some(v.position.value.price) && (v.stub.Some? ==> w.misses == 0)
      && w.position.Some? && w.position.value.price == v.position.value.price
  {
  }

  /** Once the position is gone the own trade leaves, closed at the last price remembered or,
      failing that, at the deal's, and on record if that went well. */
  lemma GoneTradesAreClosed(c: Settings, v: View, luck: Luck)
    requires v.own.Some? && v.position.None?
    ensures
      var w, price := PollOwn(c, v, luck), if v.last.Some? then v.last else luck.deal;
      && w.own.None? && w.last.None? && w.stub == v.stub && w.ledger == v.ledger
      && (luck.recordSaved ==> w.ownSaved == Some(ClosedRecord(v.own.value, price)))
      && (!luck.recordSaved ==> w.ownSaved == v.ownSaved)
      && PriceAtClose(v, luck) == price
  {
  }

  /** A stub without its position is closed by the poll that makes its misses too many, without
      price or ratio, and otherwise only counted. */
  lemma GoneStubsGetTheirGrace(missLimit: nat, v: View, luck: Luck)
    requires v.stub.Some? && v.stub.value.stub && v.position.None?
    ensures
      var w := PollStub(missLimit, v, luck);
      && w.own == v.own && w.last == v.last
      && (v.misses + 1 < missLimit ==> w == v.(misses := v.misses + 1))
      && (v.misses + 1 >= missLimit ==>
            && w.stub.None? && w.misses == 0
            && (luck.recordSaved ==>
                  w.stubSaved == Some(v.stub.value.(status := Closed, closePrice := None, ratio := None)))
            && (!luck.recordSaved ==> w.stubSaved == v.stubSaved))
  {
  }
}
