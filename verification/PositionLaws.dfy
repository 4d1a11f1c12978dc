/** What holds of a trade over any run of polls, prices, broker failures and restarts. */
module PositionLaws {
  import opened Sums
  import opened Sizing
  import opened PositionManager

  /** A restart reads the saved record and takes lots and stop from the broker; without an
      open record it makes up a stub, whose own record may fail. */
  datatype Happening = Poll(price: real, luck: Luck) | Restart(recordSaved: bool)

  function PositionOf(w: World): Position
  {
    Position(w.trade.direction, w.trade.entry, w.trade.tp2, w.volume, w.stop, w.stop)
  }

  function Rehydrated(w: World): Trade
  {
    if HasOpenRecord(w.saved) then Reloaded(w.saved.value).(lots := w.volume, sl := w.stop) else Stub(PositionOf(w))
  }

  function Bit(b: bool): nat { if b then 1 else 0 }

  function Restarted(w: World, recordSaved: bool): World
  {
    var t := Rehydrated(w);
    World(t, if HasOpenRecord(w.saved) || !recordSaved then w.saved else Some(t), w.volume, w.stop,
          w.ledger.(forgotten := w.ledger.forgotten + Bit(w.trade.tp1ClosePrice.Some? && t.tp1ClosePrice.None?),
                    unhits := w.ledger.unhits + Bit(w.trade.tp1Hit && !t.tp1Hit)))
  }

  function Next(c: Settings, w: World, h: Happening): World
  {
    match h
    case Poll(price, luck) => Polled(c, w, price, luck)
    case Restart(recordSaved) => Restarted(w, recordSaved)
  }

  function Run(c: Settings, w: World, run: seq<Happening>): World
  {
    if run == [] then w else Next(c, Run(c, w, run[..|run| - 1]), run[|run| - 1])
  }

  /** A trade just opened; its first record may have failed. */
  ghost predicate JustOpened(w: World)
  {
    && w.trade.tp1ClosePrice.None? && !w.trade.tp1Hit && w.trade.status == Open
    && w.stop == w.trade.sl && w.volume == w.trade.lots && w.ledger == CLEAN
    && (w.saved.Some? ==> w.saved.value == w.trade)
  }

  // ------------------------------------------------ how often the partial close happens

  /** The record is open as the trade is, and never knows more than the store. */
  ghost predicate RecordTrails(w: World)
  {
    && w.trade.status != Closed
    && (w.saved.Some? ==>
      && w.saved.value.status != Closed
      && (w.saved.value.tp1ClosePrice.Some? ==> w.trade.tp1ClosePrice.Some?)
      && (w.saved.value.tp1Hit ==> w.trade.tp1Hit))
  }

  /** Every partial close at the broker is the one on record in the store, one the broker
      did not confirm, or one a restart forgot; every hit is the flag or one forgotten. */
  ghost predicate Conserved(w: World)
  {
    && w.ledger.closes == Bit(w.trade.tp1ClosePrice.Some?) + w.ledger.unconfirmed + w.ledger.forgotten
    && w.ledger.hits == Bit(w.trade.tp1Hit) + w.ledger.unhits
    && w.ledger.events <= w.ledger.hits
    && RecordTrails(w)
  }

  lemma CloseConserves(w: World, luck: Luck)
    requires Conserved(w) && !w.trade.tp1Hit
    ensures Conserved(AfterClose(w, luck)) && !AfterClose(w, luck).trade.tp1Hit
  {
  }

  lemma HitConserves(w: World, asked: Option<real>, saved: bool)
    requires Conserved(w) && !w.trade.tp1Hit
    ensures Conserved(AfterHit(w, asked, saved))
  {
  }

  lemma PollConserves(c: Settings, w: World, price: real, luck: Luck)
    requires Conserved(w)
    ensures Conserved(Polled(c, w, price, luck))
  {
    if Watched(w.trade) && Crossed(w.trade, price) {
      CloseConserves(w, luck);
      var move := MoveOf(w.trade, luck);
      var asked := StopAsked(c, move);
      var moved := AfterMove(AfterClose(w, luck), move, asked, luck.moved);
      HitConserves(moved, asked, luck.hitSaved);
    }
  }

  lemma RestartConserves(w: World, recordSaved: bool)
    requires Conserved(w)
    ensures Conserved(Restarted(w, recordSaved))
  {
  }

  /** Conservation over every run. So while every close is confirmed and every record of it
      saved, the partial close happens at most once, and exactly once when on record. */
  lemma {:induction false} ClosesAreConserved(c: Settings, w: World, run: seq<Happening>)
    requires JustOpened(w)
    ensures Conserved(Run(c, w, run))
    ensures
      var l := Run(c, w, run).ledger;
      && (l.unconfirmed == 0 == l.forgotten ==> l.closes == Bit(Run(c, w, run).trade.tp1ClosePrice.Some?))
      && (l.unhits == 0 ==> l.hits == Bit(Run(c, w, run).trade.tp1Hit) && l.events <= 1)
  {
    if run != [] {
      var before, h := Run(c, w, run[..|run| - 1]), run[|run| - 1];
      ClosesAreConserved(c, w, run[..|run| - 1]);
      if h.Poll? {
        PollConserves(c, before, h.price, h.luck);
      } else {
        RestartConserves(before, h.recordSaved);
      }
    }
  }

  // ------------------------------------------------------- what the TP1 flag means

  /** A basis that trade can have had: measured from the signal's entry, or from the fill
      once it was reloaded. */
  ghost predicate BasisOf(b: Basis, origin: Trade, reloaded: bool)
  {
    && b.direction == origin.direction && b.planStop == origin.planStop
    && (b.anchor == origin.anchor || (reloaded && b.anchor == origin.entry))
  }

  ghost predicate Kin(t: Trade, origin: Trade, reloaded: bool)
  {
    if t.stub then !t.tp1Hit
    else t.entry == origin.entry && t.tp1Lots == origin.tp1Lots && BasisOf(t.Levels(), origin, reloaded)
  }

  /** The broker's stop is the one asked for in the last move. */
  ghost predicate StopIsOfMove(c: Settings, w: World, origin: Trade, reloaded: bool)
  {
    w.ledger.move.Some? ==>
      var m := w.ledger.move.value;
      BasisOf(m.basis, origin, reloaded) && ValidBreakevenSl(c, m.basis, m.info, m.tick) == Some(w.stop)
  }

  ghost predicate HitIsEarned(c: Settings, t: Trade, w: World)
  {
    t.tp1Hit ==>
      && (t.tp1Lots <= 0.0 || t.tp1ClosePrice.Some?)
      && (c.moveSl ==> t.sl == w.stop && w.ledger.move.Some?)
  }

  ghost predicate Earned(c: Settings, w: World, origin: Trade, reloaded: bool)
  {
    && Kin(w.trade, origin, reloaded) && (w.saved.Some? ==> Kin(w.saved.value, origin, reloaded))
    && HitIsEarned(c, w.trade, w) && (w.saved.Some? ==> HitIsEarned(c, w.saved.value, w))
    && StopIsOfMove(c, w, origin, reloaded) && RecordTrails(w)
  }

  lemma CloseStaysEarned(c: Settings, w: World, luck: Luck, origin: Trade, reloaded: bool)
    requires Earned(c, w, origin, reloaded) && !w.trade.tp1Hit
    ensures Earned(c, AfterClose(w, luck), origin, reloaded) && !AfterClose(w, luck).trade.tp1Hit
    ensures AfterClose(w, luck).trade.Levels() == w.trade.Levels() && AfterClose(w, luck).trade.stub == w.trade.stub
  {
  }

  lemma MoveStaysEarned(c: Settings, w: World, move: Option<Move>, reply: Reply, origin: Trade, reloaded: bool)
    requires Earned(c, w, origin, reloaded) && !w.trade.tp1Hit
    requires move.Some? ==> BasisOf(move.value.basis, origin, reloaded)
    ensures Earned(c, AfterMove(w, move, StopAsked(c, move), reply), origin, reloaded)
  {
  }

  lemma HitStaysEarned(c: Settings, w: World, asked: Option<real>, reply: Reply, saved: bool, origin: Trade,
                       reloaded: bool)
    requires Earned(c, w, origin, reloaded) && !w.trade.tp1Hit && !w.trade.stub && Completes(c, w.trade, asked, reply)
    requires asked.Some? ==> w.stop == asked.value && w.ledger.move.Some?
    ensures Earned(c, AfterHit(w, asked, saved), origin, reloaded)
  {
  }

  lemma CompletionIsEarned(c: Settings, w: World, luck: Luck, origin: Trade, reloaded: bool)
    requires Earned(c, w, origin, reloaded) && Watched(w.trade)
    ensures Earned(c, Tp1Reached(c, w, luck), origin, reloaded)
  {
    var move := MoveOf(w.trade, luck);
    var closed := AfterClose(w, luck);
    CloseStaysEarned(c, w, luck, origin, reloaded);
    MoveStaysEarned(c, closed, move, luck.moved, origin, reloaded);
    var asked := StopAsked(c, move);
    var moved := AfterMove(closed, move, asked, luck.moved);
    if Completes(c, moved.trade, asked, luck.moved) {
      HitStaysEarned(c, moved, asked, luck.moved, luck.hitSaved, origin, reloaded);
    }
  }

  lemma RestartStaysEarned(c: Settings, w: World, recordSaved: bool, origin: Trade, reloaded: bool)
    requires Earned(c, w, origin, reloaded)
    ensures Earned(c, Restarted(w, recordSaved), origin, true)
  {
  }

  ghost predicate Reloads(run: seq<Happening>)
  {
    exists k :: 0 <= k < |run| && run[k].Restart?
  }

  lemma {:induction false} AlwaysEarned(c: Settings, w: World, run: seq<Happening>)
    requires JustOpened(w)
    ensures Earned(c, Run(c, w, run), w.trade, Reloads(run))
  {
    if run != [] {
      var init, h := run[..|run| - 1], run[|run| - 1];
      var before := Run(c, w, init);
      AlwaysEarned(c, w, init);
      assert forall k :: 0 <= k < |init| ==> init[k] == run[k];
      assert Reloads(init) ==> Reloads(run);
      if h.Restart? {
        RestartStaysEarned(c, before, h.recordSaved, w.trade, Reloads(init));
      } else if Watched(before.trade) && Crossed(before.trade, h.price) {
        CompletionIsEarned(c, before, h.luck, w.trade, Reloads(init));
      }
    }
  }

  /** On every run, a trade marked TP1-hit has had its partial close (if one was planned),
      and, when the stop is to move, the broker's stop is the one computed in the market of
      the last move, from the anchor then in force: it secures that anchor. */
  lemma {:induction false} HitIsAlwaysEarned(c: Settings, w: World, run: seq<Happening>)
    requires JustOpened(w) && Run(c, w, run).trade.tp1Hit
    ensures
      var v := Run(c, w, run);
      && (v.trade.tp1Lots <= 0.0 || v.trade.tp1ClosePrice.Some?)
      && (c.moveSl ==>
            && v.trade.sl == v.stop && v.ledger.move.Some?
            && BasisOf(v.ledger.move.value.basis, w.trade, Reloads(run)) && Secures(c, v.ledger.move.value, v.stop))
  {
    AlwaysEarned(c, w, run);
    if c.moveSl {
      var m := Run(c, w, run).ledger.move.value;
      BreakevenProtects(c, m, Run(c, w, run).stop);
    }
  }

  ghost predicate OnlyPolls(run: seq<Happening>)
  {
    forall k :: 0 <= k < |run| ==> run[k].Poll?
  }

  /** A completion whose record fails is not taken up again by any later poll, so its event
      stays out until a restart. */
  lemma {:induction false} HitTradesAreLeftAlone(c: Settings, w: World, run: seq<Happening>)
    requires w.trade.tp1Hit && OnlyPolls(run)
    ensures Run(c, w, run) == w
  {
    if run != [] {
      HitTradesAreLeftAlone(c, w, run[..|run| - 1]);
    }
  }

  // -------------------------------------------------------------------------- lots

  /** Within one process the store's lots are the filled lots, less the TP1 lots once. */
  lemma {:induction false} LotsFollowTheClose(c: Settings, w: World, run: seq<Happening>)
    requires JustOpened(w) && OnlyPolls(run)
    ensures
      var t := Run(c, w, run).trade;
      && t.lots == (if t.tp1ClosePrice.Some? then Round2(w.trade.lots - w.trade.tp1Lots) else w.trade.lots)
      && t.tp1Lots == w.trade.tp1Lots
  {
    if run != [] {
      LotsFollowTheClose(c, w, run[..|run| - 1]);
    }
  }

  /** The volume sent for the partial close is the planned one when the broker trades it. */
  lemma CloseVolumeIsPlanned(t: Trade, i: BrokerInfo, n: nat)
    requires t.tp1Lots == Steps(n, i.volumeStep) && Cents(i.volumeStep)
    requires i.volumeMin <= t.tp1Lots <= i.volumeMax && t.tp1Lots <= t.lots
    ensures CloseVolume(t, i) == t.tp1Lots
  {
    var q := t.tp1Lots / i.volumeStep;
    assert t.tp1Lots == q * i.volumeStep;
    assert q == n as real by {
      if q < n as real {
        Scaled(q, n as real, i.volumeStep, t.tp1Lots, t.tp1Lots);
      } else if n as real < q {
        Scaled(n as real, q, i.volumeStep, t.tp1Lots, t.tp1Lots);
      }
    }
    assert StepsIn(t.tp1Lots, i.volumeStep) == n;
    WholeTimesCents(n, i.volumeStep);
    CentsRoundToThemselves(t.tp1Lots);
  }

  // --------------------------------------------------------------- breakeven level

  lemma HalfEvenKeepsSide(y: real, n: int)
    ensures n as real <= y ==> n <= HalfEven(y)
    ensures y <= n as real ==> HalfEven(y) <= n
  {
  }

  /** A whole number of price digits. */
  ghost predicate OnGrid(x: real, grid: real) { (x * grid).Floor as real == x * grid }

  lemma GridKeepsSide(anchor: real, level: real, grid: real)
    requires grid > 0.0 && OnGrid(anchor, grid)
    ensures level >= anchor ==> ToGrid(level, grid) >= anchor
    ensures level <= anchor ==> ToGrid(level, grid) <= anchor
  {
    var a, l, r := anchor * grid, level * grid, ToGrid(level, grid);
    Scaled(anchor, level, grid, a, l);
    Scaled(level, anchor, grid, l, a);
    HalfEvenKeepsSide(l, a.Floor);
    assert a.Floor as real == a;
    assert r * grid == HalfEven(l) as real;
    Scaled(anchor, r, grid, a, HalfEven(l) as real);
    Scaled(r, anchor, grid, HalfEven(l) as real, a);
  }

  lemma BufferIsBounded(c: Settings, b: Basis, tick: Tick)
    ensures 0.0 <= Buffer(c, b, tick) <= Max(TickSpread(tick), RiskCap(c, b))
    ensures c.spreadMultiplier > 0.0 ==> Buffer(c, b, tick) >= TickSpread(tick)
  {
  }

  lemma DistanceIsPositive(i: BrokerInfo)
    ensures MinDistance(i) >= i.point > 0.0
  {
    var n := (if i.stopsLevel > i.freezeLevel then i.stopsLevel else i.freezeLevel) + 1;
    Scaled(1.0, n as real, i.point, i.point, MinDistance(i));
  }

  /** The stop is not on the losing side of its anchor and keeps the broker's distance from
      the market (each as far as that price is a whole number of digits); before rounding
      it keeps the distance in any case, and once a buffer is configured covers a spread
      without exceeding the larger of spread and risk cap. */
  ghost predicate Secures(c: Settings, m: Move, stop: real)
  {
    var anchor, level := m.basis.anchor, Protected(c, m.basis, m.tick);
    var spread, most := TickSpread(m.tick), Max(TickSpread(m.tick), RiskCap(c, m.basis));
    && stop == ToGrid(level, m.info.grid)
    && if m.basis.direction == Long then
         var limit := m.tick.bid - MinDistance(m.info);
         && level <= limit < m.tick.bid
         && (OnGrid(anchor, m.info.grid) ==> anchor <= stop) && (OnGrid(limit, m.info.grid) ==> stop <= limit)
         && (c.spreadMultiplier > 0.0 ==> anchor + spread <= level <= anchor + most)
       else
         var limit := m.tick.ask + MinDistance(m.info);
         && level >= limit > m.tick.ask
         && (OnGrid(anchor, m.info.grid) ==> stop <= anchor) && (OnGrid(limit, m.info.grid) ==> limit <= stop)
         && (c.spreadMultiplier > 0.0 ==> anchor - spread >= level >= anchor - most)
  }

  lemma BreakevenProtects(c: Settings, m: Move, stop: real)
    requires ValidBreakevenSl(c, m.basis, m.info, m.tick) == Some(stop)
    ensures Secures(c, m, stop)
  {
    var level, grid := Protected(c, m.basis, m.tick), m.info.grid;
    var distance := MinDistance(m.info);
    var limit := if m.basis.direction == Long then m.tick.bid - distance else m.tick.ask + distance;
    BufferIsBounded(c, m.basis, m.tick);
    DistanceIsPositive(m.info);
    if OnGrid(m.basis.anchor, grid) {
      GridKeepsSide(m.basis.anchor, level, grid);
    }
    if OnGrid(limit, grid) {
      GridKeepsSide(limit, level, grid);
    }
  }

  // ----------------------------------------------------------- after a reload

  /** Some market makes this stop the breakeven stop of that basis. */
  ghost predicate CanBeBreakeven(c: Settings, b: Basis, i: BrokerInfo, stop: real)
  {
    exists tick :: ValidBreakevenSl(c, b, i, tick) == Some(stop)
  }

  /** Without a buffer the stop must be the rounded anchor; with one it may lie anywhere on
      the profitable side of it. A short one also needs a positive price beyond the broker's
      distance. */
  predicate OnProfitSide(c: Settings, b: Basis, i: BrokerInfo, stop: real)
    requires i.grid > 0.0
  {
    var own, room := ToGrid(b.anchor, i.grid), MinDistance(i);
    if b.direction == Long then
      if c.spreadMultiplier > 0.0 then stop >= own else stop == own
    else if stop == own then b.anchor > room
    else c.spreadMultiplier > 0.0 && stop < own && stop + 0.5 / i.grid > room
  }

  lemma HalfEvenIsOrdered(y: real, z: real)
    ensures -0.5 <= HalfEven(y) as real - y <= 0.5
    ensures y <= z ==> HalfEven(y) <= HalfEven(z)
  {
  }

  lemma HalfEvenHits(y: real, n: int)
    requires -0.5 < y - n as real < 0.5
    ensures HalfEven(y) == n
  {
  }

  /** Rounding to a whole number of digits, in units of a digit. */
  lemma GridUnits(x: real, stop: real, grid: real) returns (y: real, n: int)
    requires grid > 0.0 && OnGrid(stop, grid)
    ensures y == x * grid && n as real == stop * grid
    ensures ToGrid(x, grid) == stop <==> HalfEven(y) == n
    ensures ToGrid(x, grid) < stop <==> HalfEven(y) < n
    ensures x < stop <==> y < n as real
  {
    y, n := x * grid, (stop * grid).Floor;
    var r := ToGrid(x, grid);
    assert r * grid == HalfEven(y) as real;
    Scaled(r, stop, grid, HalfEven(y) as real, n as real);
    Scaled(stop, r, grid, n as real, HalfEven(y) as real);
    Scaled(x, stop, grid, y, n as real);
  }

  lemma BufferOf(c: Settings, b: Basis, tick: Tick, spread: real, widened: real, cap: real)
    requires c.spreadMultiplier > 0.0 && tick.ask - tick.bid == spread >= 0.0
    requires widened == spread * c.spreadMultiplier && cap == RiskCap(c, b)
    ensures Buffer(c, b, tick) == Max(spread, Min(widened, cap))
  {
    assert TickSpread(tick) == spread;
  }

  lemma Unscaled(x: real, m: real) returns (y: real)
    requires x >= 0.0 && m > 1.0
    ensures y * m == x && 0.0 <= y <= x
  {
    y := x / m;
    assert y * m == x;
    Scaled(0.0, y, m, 0.0, x);
    ProductAgainst(y, m);
  }

  /** Every distance from the anchor is the buffer of some spread, once buffers are on. */
  lemma SpreadFor(c: Settings, b: Basis, distance: real) returns (spread: real)
    requires distance >= 0.0 && c.spreadMultiplier > 0.0
    ensures spread >= 0.0
    ensures forall tick: Tick :: tick.ask - tick.bid == spread ==> Buffer(c, b, tick) == distance
  {
    var cap := RiskCap(c, b);
    var widened;
    spread, widened := SpreadAndWidened(distance, c.spreadMultiplier, cap);
    forall tick: Tick | tick.ask - tick.bid == spread ensures Buffer(c, b, tick) == distance {
      BufferOf(c, b, tick, spread, widened, cap);
    }
  }

  lemma SpreadAndWidened(distance: real, m: real, cap: real) returns (spread: real, widened: real)
    requires distance >= 0.0 && m > 0.0
    ensures spread >= 0.0 && widened == spread * m && Max(spread, Min(widened, cap)) == distance
  {
    if distance > cap || m <= 1.0 {
      spread, widened := distance, distance * m;
      ProductAgainst(distance, m);
    } else {
      spread := Unscaled(distance, m);
      widened := distance;
    }
  }

  lemma ProductAgainst(x: real, m: real)
    requires x >= 0.0 && m > 0.0
    ensures if m <= 1.0 then 0.0 <= x * m <= x else x <= x * m
  {
    if x > 0.0 {
      assert x * m == m * x;
      Scaled(m, 1.0, x, x * m, x);
      Scaled(1.0, m, x, x, x * m);
      Scaled(0.0, m, x, 0.0, x * m);
    }
  }

  /** A level on the profitable side, with room for the market, gives its rounding. */
  lemma LevelIsReached(c: Settings, b: Basis, i: BrokerInfo, level: real, stop: real)
    requires ToGrid(level, i.grid) == stop
    requires if b.direction == Long then level >= b.anchor else b.anchor >= level > MinDistance(i)
    requires c.spreadMultiplier > 0.0 || level == b.anchor
    ensures CanBeBreakeven(c, b, i, stop)
  {
    var spread := 0.0;
    if c.spreadMultiplier > 0.0 {
      spread := SpreadFor(c, b, Abs(level - b.anchor));
    }
    DistanceIsPositive(i);
    var bid := if b.direction == Long then Max(level + MinDistance(i), 1.0) else level - MinDistance(i) - spread;
    var tick := Tick(bid, bid + spread);
    assert tick.ask - tick.bid == spread;
    assert Protected(c, b, tick) == level;
    assert ValidBreakevenSl(c, b, i, tick) == Some(stop);
  }

  /** When the stop of a trade is also a breakeven stop of another basis, such as the one
      that trade has after a reload. */
  lemma BreakevenOfAnotherBasis(c: Settings, b: Basis, i: BrokerInfo, stop: real)
    requires OnGrid(stop, i.grid)
    ensures CanBeBreakeven(c, b, i, stop) <==> OnProfitSide(c, b, i, stop)
  {
    if CanBeBreakeven(c, b, i, stop) {
      var tick :| ValidBreakevenSl(c, b, i, tick) == Some(stop);
      BreakevenIsOnProfitSide(c, b, i, tick, stop);
    }
    if OnProfitSide(c, b, i, stop) {
      ProfitSideIsReached(c, b, i, stop);
    }
  }

  lemma BreakevenIsOnProfitSide(c: Settings, b: Basis, i: BrokerInfo, tick: Tick, stop: real)
    requires OnGrid(stop, i.grid) && ValidBreakevenSl(c, b, i, tick) == Some(stop)
    ensures OnProfitSide(c, b, i, stop)
  {
    BufferIsBounded(c, b, tick);
    DistanceIsPositive(i);
    RoundedLevelIsOnProfitSide(c, b, i, Protected(c, b, tick), stop);
  }

  lemma RoundedLevelIsOnProfitSide(c: Settings, b: Basis, i: BrokerInfo, level: real, stop: real)
    requires OnGrid(stop, i.grid) && ToGrid(level, i.grid) == stop
    requires if b.direction == Long then level >= b.anchor else b.anchor >= level > MinDistance(i)
    requires c.spreadMultiplier > 0.0 || level == b.anchor
    ensures OnProfitSide(c, b, i, stop)
  {
    RoundingKeepsOrder(level, b.anchor, i.grid);
    RoundingIsNear(level, stop, i.grid);
  }

  lemma RoundingKeepsOrder(x: real, y: real, grid: real)
    requires grid > 0.0
    ensures x <= y ==> ToGrid(x, grid) <= ToGrid(y, grid)
    ensures y <= x ==> ToGrid(y, grid) <= ToGrid(x, grid)
  {
    Scaled(x, y, grid, x * grid, y * grid);
    Scaled(y, x, grid, y * grid, x * grid);
    HalfEvenIsOrdered(x * grid, y * grid);
    HalfEvenIsOrdered(y * grid, x * grid);
    UnitsKeepOrder(HalfEven(x * grid), HalfEven(y * grid), grid);
  }

  lemma UnitsKeepOrder(m: int, n: int, grid: real)
    requires grid > 0.0
    ensures m <= n ==> m as real / grid <= n as real / grid
    ensures n <= m ==> n as real / grid <= m as real / grid
  {
    var p, q := m as real / grid, n as real / grid;
    assert p * grid == m as real && q * grid == n as real;
    Scaled(p, q, grid, m as real, n as real);
    Scaled(q, p, grid, n as real, m as real);
  }

  /** A price rounds to at most half a digit away, and whatever is nearer rounds there. */
  lemma RoundingIsNear(x: real, stop: real, grid: real)
    requires grid > 0.0 && OnGrid(stop, grid)
    ensures ToGrid(x, grid) == stop ==> x <= stop + 0.5 / grid
    ensures ToGrid(x, grid) > stop ==> x >= stop + 0.5 / grid
    ensures stop <= x < stop + 0.5 / grid ==> ToGrid(x, grid) == stop
    ensures ToGrid(x, grid) < stop ==> x <= stop
  {
    var y, n := GridUnits(x, stop, grid);
    HalfEvenIsOrdered(y, y);
    HalfUnit(x, stop, grid, y, n);
    if stop <= x < stop + 0.5 / grid {
      HalfEvenHits(y, n);
    }
  }

  /** Half a digit, in price and in units. */
  lemma HalfUnit(x: real, stop: real, grid: real, y: real, n: int)
    requires grid > 0.0 && y == x * grid && n as real == stop * grid
    ensures x < stop + 0.5 / grid <==> y < n as real + 0.5
    ensures x <= stop + 0.5 / grid <==> y <= n as real + 0.5
  {
    var edge, h := stop + 0.5 / grid, 0.5 / grid;
    assert h * grid == 0.5;
    assert edge * grid == stop * grid + h * grid;
    Scaled(x, edge, grid, y, n as real + 0.5);
  }

  lemma ProfitSideIsReached(c: Settings, b: Basis, i: BrokerInfo, stop: real)
    requires OnGrid(stop, i.grid) && OnProfitSide(c, b, i, stop)
    ensures CanBeBreakeven(c, b, i, stop)
  {
    RoundingIsNear(b.anchor, stop, i.grid);
    if ToGrid(b.anchor, i.grid) == stop {
      LevelIsReached(c, b, i, b.anchor, stop);
    } else if b.direction == Long {
      GridKeepsItself(stop, i.grid);
      LevelIsReached(c, b, i, stop, stop);
    } else {
      var half := 0.5 / i.grid;
      assert half > 0.0;
      var level := (Max(MinDistance(i), stop) + stop + half) / 2.0;
      RoundingIsNear(level, stop, i.grid);
      LevelIsReached(c, b, i, level, stop);
    }
  }

  lemma GridKeepsItself(x: real, grid: real)
    requires grid > 0.0 && OnGrid(x, grid)
    ensures ToGrid(x, grid) == x
  {
    assert 0.5 / grid > 0.0;
    RoundingIsNear(x, x, grid);
  }

  // ------------------------------------------------------------------ realized ratio

  ghost predicate SoundLevels(t: Trade)
  {
    t.entry != 0.0 && t.tp2 != 0.0 && if t.direction == Long then t.sl < t.entry < t.tp2 else t.tp2 < t.entry < t.sl
  }

  function Planned(t: Trade): real
    requires SoundLevels(t)
  {
    Abs(t.tp2 - t.entry) / Abs(t.entry - t.sl)
  }

  /** While the stop is on the losing side, the reason given for a close says exactly in
      which of the three ranges its ratio fell. */
  lemma ReasonMatchesRatio(t: Trade, price: real)
    requires SoundLevels(t) && !t.stub
    ensures price != 0.0 ==> ClosedRecord(t, Some(price)).ratio == Some(RealizedRr(t, price))
    ensures CloseReason(t, Some(price)) == Tp2Hit <==> RealizedRr(t, price) >= Planned(t)
    ensures CloseReason(t, Some(price)) == SlHit <==> RealizedRr(t, price) <= -1.0
    ensures CloseReason(t, Some(price)) == Manual <==> -1.0 < RealizedRr(t, price) < Planned(t)
    ensures Planned(t) > 0.0
  {
    var risk, target := Abs(t.entry - t.sl), Abs(t.tp2 - t.entry);
    var reward := if t.direction == Long then price - t.entry else t.entry - price;
    var rr, plan := reward / risk, target / risk;
    assert rr * risk == reward && plan * risk == target;
    assert RealizedRr(t, price) == rr && Planned(t) == plan;
    Scaled(plan, rr, risk, target, reward);
    Scaled(rr, -1.0, risk, reward, -risk);
    Scaled(0.0, plan, risk, 0.0, target);
  }

  /** After the stop has moved to breakeven the ratio says nothing: filled at the signal's
      entry, the trade closes at ratio zero whatever the price. */
  lemma BreakevenTradesCloseAtZero(c: Settings, t: Trade, i: BrokerInfo, tick: Tick, price: real)
    requires ValidBreakevenSl(c, t.Levels(), i, tick) == Some(t.sl) && OnGrid(t.anchor, i.grid) && t.anchor == t.entry
    ensures RealizedRr(t, price) == 0.0
  {
    BreakevenProtects(c, Move(t.Levels(), i, tick), t.sl);
  }

  /** A close without any known price is called a stop loss and booked at the target, as a
      win of the planned ratio. */
  lemma UnpricedStopsLookLikeWins(t: Trade)
    requires SoundLevels(t) && !t.stub
    ensures CloseReason(t, None) == SlHit && ClosedRecord(t, None).ratio == Some(Planned(t)) && Planned(t) > 0.0
  {
    ReasonMatchesRatio(t, t.tp2);
    assert RealizedRr(t, t.tp2) == Planned(t);
  }

  // ------------------------------------------------------ what the code does not promise

  const BROKER: BrokerInfo := Info(0, 0, 1.0, 1.0, 1.0, 1.0, 100.0)
  const MOVES := Settings(true, 0.0, 0.0)

  function Example(): World
  {
    World(Trade(Long, 100.0, 101.0, 90.0, 90.0, 110.0, 130.0, 1.0, 2.0, None, false, Open, false, None, None), None,
          2.0, 90.0, CLEAN)
  }

  function Luckily(close: Reply, closeSaved: bool, moved: Reply): Luck
  {
    var tick := Some(Tick(111.0, 111.0));
    Luck(Some(BROKER), tick, close, closeSaved, Some(BROKER), tick, moved, true, None, true, false)
  }

  /** A close the broker does without confirming is done again by the next poll. */
  lemma UnconfirmedClosesRepeat()
    ensures JustOpened(Example())
    ensures
      var a, b := Poll(111.0, Luckily(Unconfirmed, true, Refused)), Poll(111.0, Luckily(Done, true, Refused));
      Run(MOVES, Example(), [a, b]).ledger.closes == 2
  {
    var a, b := Poll(111.0, Luckily(Unconfirmed, true, Refused)), Poll(111.0, Luckily(Done, true, Refused));
    RunOfTwo(MOVES, Example(), a, b);
  }

  lemma {:induction false} RunOfTwo(c: Settings, w: World, a: Happening, b: Happening)
    ensures Run(c, w, [a, b]) == Next(c, Next(c, w, a), b)
  {
    assert [a, b][..1] == [a] && [a][..0] == [];
    assert Run(c, w, [a]) == Next(c, w, a);
  }

  lemma {:induction false} RunOfThree(c: Settings, w: World, a: Happening, b: Happening, d: Happening)
    ensures Run(c, w, [a, b, d]) == Next(c, Next(c, Next(c, w, a), b), d)
  {
    assert [a, b, d][..2] == [a, b];
    RunOfTwo(c, w, a, b);
  }

  /** A close whose record was not saved is done again after a restart. */
  lemma UnsavedClosesRepeat()
    ensures
      var w := Example().(saved := Some(Example().trade));
      var a, b := Poll(111.0, Luckily(Done, false, Refused)), Poll(111.0, Luckily(Done, true, Refused));
      JustOpened(w) && Run(MOVES, w, [a, Restart(true), b]).ledger.closes == 2
  {
    var w := Example().(saved := Some(Example().trade));
    var a, b := Poll(111.0, Luckily(Done, false, Refused)), Poll(111.0, Luckily(Done, true, Refused));
    RunOfThree(MOVES, w, a, Restart(true), b);
    var back := Restarted(Next(MOVES, w, a), true);
    assert back.trade.tp1ClosePrice.None? && back.trade.lots == back.volume && back.ledger.closes == 1;
  }

  /** Bought at 101 on a signal at 100, hit and stopped at 100, the trade comes back from a
      restart measured from 101: its stop is below the new anchor and no market would make
      it a breakeven stop again. */
  lemma ReloadLosesTheAnchor()
    ensures
      var v := Run(MOVES, Example(), [Poll(111.0, Luckily(Done, true, Done)), Restart(true)]);
      && JustOpened(Example()) && v.trade.tp1Hit && v.stop == 100.0 && v.ledger.move.Some?
      && v.ledger.move.value.basis.anchor == 100.0 && v.trade.anchor == 101.0
      && !CanBeBreakeven(MOVES, v.trade.Levels(), v.ledger.move.value.info, v.stop)
  {
    var a := Poll(111.0, Luckily(Done, true, Done));
    RunOfTwo(MOVES, Example(), a, Restart(true));
    HitAtEntry();
    assert ToGrid(101.0, 1.0) == 101.0 && OnGrid(100.0, 1.0);
    BreakevenOfAnotherBasis(MOVES, Basis(Long, 101.0, 90.0), BROKER, 100.0);
  }

  lemma HitAtEntry()
    ensures
      var w := Polled(MOVES, Example(), 111.0, Luckily(Done, true, Done));
      && w.trade.tp1Hit && w.stop == 100.0 && w.saved == Some(w.trade) && w.trade.status != Closed
      && w.trade.Levels() == Basis(Long, 100.0, 90.0) && w.trade.entry == 101.0
      && w.ledger.move == Some(Move(Basis(Long, 100.0, 90.0), BROKER, Tick(111.0, 111.0)))
  {
    assert MinDistance(BROKER) == 1.0;
    assert ToGrid(100.0, 1.0) == 100.0;
  }

  /** The partial close is on record, or none was planned. */
  predicate CloseOnRecord(t: Trade) { t.tp1Lots <= 0.0 || t.tp1ClosePrice.Some? }

  predicate Confirmed(luck: Luck) { luck.info.Some? && luck.tick.Some? && luck.close.Done? }

  /** Exactly when the stop moves at the broker although the planned partial close is not on
      record: one was wanted and not confirmed, a level was found, and the move was not
      refused. The store then keeps the old stop. */
  lemma StopMovesWithoutClose(c: Settings, w: World, luck: Luck)
    ensures
      var v, asked := Tp1Reached(c, w, luck), StopAsked(c, MoveOf(w.trade, luck));
      && (v.ledger.moves > w.ledger.moves && !CloseOnRecord(v.trade)
          <==> WantsClose(w.trade) && !Confirmed(luck) && asked.Some? && !luck.moved.Refused?)
      && (v.ledger.moves > w.ledger.moves && !CloseOnRecord(v.trade) ==> v.stop == asked.value && v.trade == w.trade)
  {
  }
}
