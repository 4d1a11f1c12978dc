/** The life of an open trade under polling: the partial close at TP1, the stop moved to
    breakeven, and the close, against a broker and a repository that may fail at any call. */
module PositionManager {
  import opened Sums
  import opened Sizing

  datatype Status = Open | PartiallyClosed | Closed

  datatype Reason = Tp2Hit | SlHit | Manual | WhileDown

  /** anchor is the price breakeven is measured from: the signal's entry while the signal is
      at hand, the fill after a reload. entry is the fill, planStop the stop sizing used. */
  datatype Trade = Trade(direction: Direction, anchor: real, entry: real, planStop: real, sl: real, tp1: real,
                         tp2: real, tp1Lots: real, lots: real, tp1ClosePrice: Option<real>, tp1Hit: bool,
                         status: Status, stub: bool, closePrice: Option<real>, ratio: Option<real>)
  {
    function Levels(): Basis { Basis(direction, anchor, planStop) }
  }

  /** What a breakeven stop is computed from. */
  datatype Basis = Basis(direction: Direction, anchor: real, planStop: real)

  datatype Tick = Tick(bid: real, ask: real)

  /** grid is ten to the number of price digits. */
  datatype Info = Info(stopsLevel: nat, freezeLevel: nat, point: real, grid: real,
                       volumeStep: real, volumeMin: real, volumeMax: real)

  ghost predicate GoodInfo(i: Info) { i.point > 0.0 && i.grid > 0.0 && i.volumeStep > 0.0 }

  type BrokerInfo = i: Info | GoodInfo(i) witness Info(0, 0, 1.0, 1.0, 1.0, 1.0, 1.0)

  datatype Settings = Settings(moveSl: bool, spreadMultiplier: real, maxBufferPct: real)

  /** Unconfirmed: the broker did it and the call fails all the same. */
  datatype Reply = Done | Refused | Unconfirmed

  /** Everything outside that one poll of one trade meets. A second look at symbol and tick
      is taken only if the first did not come about; deal is the price found in the deal
      history, recordSaved tells of the record written on adoption or close, and stubFirst says which
      of two open records of one ticket the database lists first. */
  datatype Luck = Luck(info: Option<BrokerInfo>, tick: Option<Tick>, close: Reply, closeSaved: bool,
                       laterInfo: Option<BrokerInfo>, laterTick: Option<Tick>, moved: Reply, hitSaved: bool,
                       deal: Option<real>, recordSaved: bool, stubFirst: bool)

  /** The market a breakeven stop was computed in. */
  datatype Move = Move(basis: Basis, info: BrokerInfo, tick: Tick)

  /** What happened to one trade over the whole run; move tells of the last of its moves. */
  datatype Ledger = Ledger(closes: nat, unconfirmed: nat, forgotten: nat, hits: nat, unhits: nat, events: nat,
                           moves: nat, move: Option<Move>)

  /** The trade in the store, its saved record, and the broker's position. */
  datatype World = World(trade: Trade, saved: Option<Trade>, volume: real, stop: real, ledger: Ledger)

  // -------------------------------------------------------------- breakeven level

  function TickSpread(t: Tick): real { Max(t.ask - t.bid, 0.0) }

  function RiskCap(c: Settings, b: Basis): real { Abs(b.anchor - b.planStop) * Max(c.maxBufferPct, 0.0) / 100.0 }

  function Buffer(c: Settings, b: Basis, tick: Tick): real
  {
    var multiplier := Max(c.spreadMultiplier, 0.0);
    if multiplier == 0.0 then 0.0 else Max(TickSpread(tick), Min(TickSpread(tick) * multiplier, RiskCap(c, b)))
  }

  function MinDistance(i: Info): real
  {
    ((if i.stopsLevel > i.freezeLevel then i.stopsLevel else i.freezeLevel) + 1) as real * i.point
  }

  function ToGrid(x: real, grid: real): real
    requires grid > 0.0
  {
    HalfEven(x * grid) as real / grid
  }

  /** The anchor moved to the profitable side by the buffer. */
  function Protected(c: Settings, b: Basis, tick: Tick): real
  {
    if b.direction == Long then b.anchor + Buffer(c, b, tick) else b.anchor - Buffer(c, b, tick)
  }

  function ValidBreakevenSl(c: Settings, b: Basis, i: BrokerInfo, tick: Tick): Option<real>
  {
    var level := Protected(c, b, tick);
    if b.direction == Long then
      if tick.bid > 0.0 && level <= tick.bid - MinDistance(i) then Some(ToGrid(level, i.grid)) else None
    else
      if tick.ask > 0.0 && level >= tick.ask + MinDistance(i) then Some(ToGrid(level, i.grid)) else None
  }

  // ------------------------------------------------------------------ TP1 handling

  predicate WantsClose(t: Trade) { t.tp1Lots > 0.0 && t.tp1ClosePrice.None? }

  function CloseVolume(t: Trade, i: BrokerInfo): real
  {
    NormaliseLots(t.tp1Lots, i.volumeStep, i.volumeMin, Min(i.volumeMax, t.lots))
  }

  function Reduced(t: Trade, tick: Tick): Trade
  {
    t.(tp1ClosePrice := Some(if t.direction == Long then tick.bid else tick.ask),
       lots := Round2(t.lots - t.tp1Lots), status := PartiallyClosed)
  }

  predicate Reaches(t: Trade, luck: Luck)
  {
    WantsClose(t) && luck.info.Some? && luck.tick.Some? && !luck.close.Refused?
  }

  /** Step 1: the partial close and its record. */
  function AfterClose(w: World, luck: Luck): World
  {
    if !Reaches(w.trade, luck) then w
    else
      var volume, ledger := w.volume - CloseVolume(w.trade, luck.info.value), w.ledger.(closes := w.ledger.closes + 1);
      if luck.close.Unconfirmed? then
        w.(volume := volume, ledger := ledger.(unconfirmed := ledger.unconfirmed + 1))
      else
        var t := Reduced(w.trade, luck.tick.value);
        w.(trade := t, saved := if luck.closeSaved then Some(t) else w.saved, volume := volume, ledger := ledger)
  }

  function InfoForStop(t: Trade, luck: Luck): Option<BrokerInfo>
  {
    if WantsClose(t) && luck.info.Some? then luck.info else luck.laterInfo
  }

  function TickForStop(t: Trade, luck: Luck): Option<Tick>
  {
    if WantsClose(t) && luck.info.Some? && luck.tick.Some? then luck.tick else luck.laterTick
  }

  /** The market step 2 looks at, if it gets to see one. */
  function MoveOf(t: Trade, luck: Luck): Option<Move>
  {
    if InfoForStop(t, luck).Some? && TickForStop(t, luck).Some?
    then Some(Move(t.Levels(), InfoForStop(t, luck).value, TickForStop(t, luck).value))
    else None
  }

  /** Step 2: the level the broker is asked for, if it comes to that. */
  function StopAsked(c: Settings, move: Option<Move>): Option<real>
  {
    if c.moveSl && move.Some? then ValidBreakevenSl(c, move.value.basis, move.value.info, move.value.tick) else None
  }

  function AfterMove(w: World, move: Option<Move>, asked: Option<real>, reply: Reply): World
  {
    if asked.Some? && !reply.Refused?
    then w.(stop := asked.value, ledger := w.ledger.(moves := w.ledger.moves + 1, move := move))
    else w
  }

  /** Step 3 runs when the close is done or not planned, and the stop moved or not wanted. */
  predicate Completes(c: Settings, t: Trade, asked: Option<real>, reply: Reply)
  {
    (t.tp1Lots <= 0.0 || t.tp1ClosePrice.Some?) && (c.moveSl ==> asked.Some? && reply.Done?)
  }

  function AfterHit(w: World, asked: Option<real>, saved: bool): World
  {
    var t := w.trade.(tp1Hit := true, sl := if asked.Some? then asked.value else w.trade.sl,
                      status := if w.trade.tp1ClosePrice.Some? then PartiallyClosed else w.trade.status);
    w.(trade := t, saved := if saved then Some(t) else w.saved,
       ledger := w.ledger.(hits := w.ledger.hits + 1, events := w.ledger.events + if saved then 1 else 0))
  }

  function Tp1Reached(c: Settings, w: World, luck: Luck): World
  {
    var move := MoveOf(w.trade, luck);
    var asked := StopAsked(c, move);
    var moved := AfterMove(AfterClose(w, luck), move, asked, luck.moved);
    if Completes(c, moved.trade, asked, luck.moved) then AfterHit(moved, asked, luck.hitSaved) else moved
  }

  predicate Watched(t: Trade) { !t.tp1Hit && !t.stub && t.tp1 != 0.0 }

  predicate Crossed(t: Trade, price: real) { if t.direction == Long then price >= t.tp1 else price <= t.tp1 }

  /** One poll of a trade whose position is still there. */
  function Polled(c: Settings, w: World, price: real, luck: Luck): World
  {
    if Watched(w.trade) && Crossed(w.trade, price) then Tp1Reached(c, w, luck) else w
  }

  // ------------------------------------------------------------------------ close

  function RealizedRr(t: Trade, price: real): real
  {
    var risk := if t.direction == Long then t.entry - t.sl else t.sl - t.entry;
    var reward := if t.direction == Long then price - t.entry else t.entry - price;
    if t.entry == 0.0 || risk <= 0.0 then 0.0 else reward / risk
  }

  function CloseReason(t: Trade, price: Option<real>): Reason
  {
    if t.stub then WhileDown
    else if price.None? || t.tp2 == 0.0 then SlHit
    else if (if t.direction == Long then price.value >= t.tp2 else price.value <= t.tp2) then Tp2Hit
    else if (if t.direction == Long then price.value <= t.sl else price.value >= t.sl) then SlHit
    else Manual
  }

  /** Without any known price a trade is booked at its target. */
  function BookedPrice(t: Trade, price: Option<real>): real
  {
    if price.Some? && price.value != 0.0 then price.value else if t.tp2 != 0.0 then t.tp2 else t.entry
  }

  /** The closed trade as it goes to the repository. */
  function ClosedRecord(t: Trade, price: Option<real>): Trade
  {
    t.(status := Closed, closePrice := if t.stub then None else Some(BookedPrice(t, price)),
       ratio := if t.stub then None else Some(RealizedRr(t, BookedPrice(t, price))))
  }

  /** A trade's id: the engine's own trade on a ticket, or the stub made up for the ticket. */
  datatype Key = Own(ticket: string) | StubOf(ticket: string)

  datatype Announcement = Tp2Reached(key: Key) | SlReached(key: Key) | TradeClosed(key: Key, record: Trade)

  /** A target or stop hit is announced first, the close always and last. */
  function Announced(key: Key, t: Trade, price: Option<real>): seq<Announcement>
  {
    var reason := CloseReason(t, price);
    (if reason.Tp2Hit? then [Tp2Reached(key)] else if reason.SlHit? then [SlReached(key)] else [])
    + [TradeClosed(key, ClosedRecord(t, price))]
  }

  // --------------------------------------------------------- reloads and adoption

  datatype Position = Position(direction: Direction, openPrice: real, takeProfit: real, volume: real, stop: real,
                               price: real)

  /** A record is read back without its signal, so breakeven is measured from the fill. */
  function Reloaded(t: Trade): Trade { t.(anchor := t.entry) }

  /** The trade made up for a position without an open record. */
  function Stub(p: Position): Trade
  {
    Trade(p.direction, p.openPrice, p.openPrice, p.stop, p.stop, p.takeProfit, p.takeProfit, 0.0, p.volume, None, false,
          Open, true, None, None)
  }

  predicate HasOpenRecord(saved: Option<Trade>) { saved.Some? && saved.value.status != Closed }

  /** All the manager, the repository and the broker hold about one ticket: the engine's own
      trade on it and the stub made up for it, either of which may be missing. */
  datatype View = View(own: Option<Trade>, ownSaved: Option<Trade>, stub: Option<Trade>, stubSaved: Option<Trade>,
                       position: Option<Position>, misses: nat, last: Option<real>, ledger: Ledger)

  const CLEAN := Ledger(0, 0, 0, 0, 0, 0, 0, None)

  function Lookup<K, V>(m: map<K, V>, k: K): Option<V> { if k in m then Some(m[k]) else None }

  function Misses(m: map<string, nat>, ticket: string): nat { if ticket in m then m[ticket] else 0 }

  function Counts(m: map<string, Ledger>, ticket: string): Ledger { if ticket in m then m[ticket] else CLEAN }

  /** The engine's own trade of a ticket stored, whatever else the store knows of it. */
  function WithOwn(v: View, t: Trade, saved: bool): View
  {
    v.(own := Some(t), ownSaved := if saved then Some(t) else v.ownSaved)
  }

  /** A position on a ticket the store does not know is taken over from its first open
      record, or as a stub. */
  function AdoptView(v: View, luck: Luck): View
  {
    if v.own.Some? || v.stub.Some? || v.position.None? then v
    else if HasOpenRecord(v.ownSaved) && (!HasOpenRecord(v.stubSaved) || !luck.stubFirst) then
      v.(own := Some(Reloaded(v.ownSaved.value)))
    else if HasOpenRecord(v.stubSaved) then
      v.(stub := Some(Reloaded(v.stubSaved.value)))
    else
      var stub := Stub(v.position.value);
      v.(stub := Some(stub), stubSaved := if luck.recordSaved then Some(stub) else v.stubSaved)
  }

  function WorldOf(v: View): World
    requires v.own.Some? && v.position.Some?
  {
    World(v.own.value, v.ownSaved, v.position.value.volume, v.position.value.stop, v.ledger)
  }

  function WithWorld(v: View, w: World): View
    requires v.position.Some?
  {
    v.(own := Some(w.trade), ownSaved := w.saved, ledger := w.ledger,
       position := Some(v.position.value.(volume := w.volume, stop := w.stop)))
  }

  function PriceAtClose(v: View, luck: Luck): Option<real> { if v.last.Some? then v.last else luck.deal }

  /** One of a ticket's trades closed and gone. */
  function Removed(v: View, own: bool, price: Option<real>, saved: bool): View
    requires if own then v.own.Some? else v.stub.Some?
  {
    if own then v.(own := None, ownSaved := if saved then Some(ClosedRecord(v.own.value, price)) else v.ownSaved)
    else v.(stub := None, stubSaved := if saved then Some(ClosedRecord(v.stub.value, price)) else v.stubSaved)
  }

  /** The own trade of a ticket in one poll: managed while its position is there, else closed. */
  function PollOwn(c: Settings, v: View, luck: Luck): View
  {
    if v.own.None? then v
    else if v.position.None? then
      Removed(v, true, PriceAtClose(v, luck), luck.recordSaved).(last := None)
    else
      var price := v.position.value.price;
      WithWorld(v, Polled(c, WorldOf(v), price, luck)).(last := Some(price))
  }

  /** The stub of a ticket: left alone while its position is there, and closed only after
      some polls' grace. */
  function PollStub(missLimit: nat, v: View, luck: Luck): View
  {
    if v.stub.None? then v
    else if v.position.Some? then v.(misses := 0, last := Some(v.position.value.price))
    else if v.misses + 1 < missLimit then v.(misses := v.misses + 1)
    else Removed(v, false, PriceAtClose(v, luck), luck.recordSaved).(misses := 0)
  }

  function PollView(c: Settings, missLimit: nat, v: View, luck: Luck): View
  {
    PollStub(missLimit, PollOwn(c, v, luck), luck)
  }

  predicate Honest(m: map<Key, Trade>) { forall k :: k in m ==> (m[k].stub <==> k.StubOf?) }

  class PositionManager {
    const config: Settings
    const missLimit: nat
    var store: map<Key, Trade>
    var repo: map<Key, Trade>
    var broker: map<string, Position>
    var stubMisses: map<string, nat>
    var lastPrice: map<string, real>
    ghost var ledger: map<string, Ledger>

    var announced: seq<Announcement>

    constructor (c: Settings, missLimit: nat)
      ensures Valid() && config == c && this.missLimit == missLimit
      ensures store == map[] && repo == map[] && broker == map[] && stubMisses == map[] && lastPrice == map[]
      ensures ledger == map[] && announced == []
    {
      config, this.missLimit := c, missLimit;
      store, repo, broker, stubMisses, lastPrice := map[], map[], map[], map[], map[];
      ledger, announced := map[], [];
    }

    /** A trade is marked a stub exactly when its id is a stub's. */
    ghost predicate Valid()
      reads this
    {
      Honest(store) && Honest(repo)
    }

    ghost predicate Tracks(ticket: string)
      reads this
    {
      Own(ticket) in store && ticket in broker
    }

    ghost function Of(ticket: string): World
      requires Tracks(ticket)
      reads this
    {
      WorldOf(ViewOf(ticket))
    }

    ghost function ViewOf(ticket: string): View
      reads this
    {
      View(Lookup(store, Own(ticket)), Lookup(repo, Own(ticket)), Lookup(store, StubOf(ticket)),
           Lookup(repo, StubOf(ticket)), Lookup(broker, ticket), Misses(stubMisses, ticket), Lookup(lastPrice, ticket),
           Counts(ledger, ticket))
    }

    /** Step 1, then step 2 even when step 1 failed, then the completion. */
    method HandleTp1PriceReached(ticket: string, luck: Luck)
      requires Valid() && Tracks(ticket)
      modifies this`store, this`repo, this`broker, this`ledger
      ensures Valid() && ViewOf(ticket) == WithWorld(old(ViewOf(ticket)), Tp1Reached(config, old(Of(ticket)), luck))
      ensures forall t :: t != ticket ==> ViewOf(t) == old(ViewOf(t))
    {
      var trade := store[Own(ticket)];
      PartialClose(ticket, luck);
      var move := MoveOf(trade, luck);
      var asked := StopAsked(config, move);
      MoveStop(ticket, move, asked, luck.moved);
      var latest := store[Own(ticket)];
      if latest.tp1Lots > 0.0 && latest.tp1ClosePrice.None? {
        return;
      }
      if config.moveSl && !(asked.Some? && luck.moved.Done?) {
        return;
      }
      CompleteTp1(ticket, asked, luck.hitSaved);
    }

    method PartialClose(ticket: string, luck: Luck)
      requires Valid() && Tracks(ticket)
      modifies this`store, this`repo, this`broker, this`ledger
      ensures Valid() && ViewOf(ticket) == WithWorld(old(ViewOf(ticket)), AfterClose(old(Of(ticket)), luck))
      ensures forall t :: t != ticket ==> ViewOf(t) == old(ViewOf(t))
    {
      var trade := store[Own(ticket)];
      if trade.tp1Lots > 0.0 && trade.tp1ClosePrice.None? {
        if luck.info.None? || luck.tick.None? || luck.close.Refused? {
          return;
        }
        CloseAtBroker(ticket, CloseVolume(trade, luck.info.value), luck.close.Unconfirmed?);
        if luck.close.Unconfirmed? {
          return;
        }
        var price := if trade.direction == Long then luck.tick.value.bid else luck.tick.value.ask;
        PutOwn(ticket, trade.(tp1ClosePrice := Some(price), lots := Round2(trade.lots - trade.tp1Lots),
                              status := PartiallyClosed), luck.closeSaved);
      }
    }

    method CloseAtBroker(ticket: string, volume: real, unconfirmed: bool)
      requires ticket in broker
      modifies this`broker, this`ledger
      ensures
        var v := old(ViewOf(ticket));
        ViewOf(ticket) == v.(
          position := Some(v.position.value.(volume := v.position.value.volume - volume)),
          ledger := v.ledger.(closes := v.ledger.closes + 1,
                              unconfirmed := v.ledger.unconfirmed + if unconfirmed then 1 else 0))
      ensures forall t :: t != ticket ==> ViewOf(t) == old(ViewOf(t))
    {
      broker := broker[ticket := broker[ticket].(volume := broker[ticket].volume - volume)];
      var counts := Counts(ledger, ticket);
      ledger := ledger[ticket := counts.(closes := counts.closes + 1,
                                         unconfirmed := counts.unconfirmed + if unconfirmed then 1 else 0)];
    }

    /** A trade in the store, and in the repository if the save goes well. */
    method Put(key: Key, trade: Trade, saved: bool)
      requires Valid() && (trade.stub <==> key.StubOf?)
      modifies this`store, this`repo
      ensures Valid() && store == old(store)[key := trade]
      ensures repo == if saved then old(repo)[key := trade] else old(repo)
    {
      store := store[key := trade];
      if saved {
        repo := repo[key := trade];
      }
    }

    /** How the engine stores the trade it has placed, and the manager what became of it. */
    method PutOwn(ticket: string, trade: Trade, saved: bool)
      requires Valid() && !trade.stub
      modifies this`store, this`repo
      ensures Valid() && ViewOf(ticket) == WithOwn(old(ViewOf(ticket)), trade, saved)
      ensures forall t :: t != ticket ==> ViewOf(t) == old(ViewOf(t))
    {
      Put(Own(ticket), trade, saved);
    }

    method MoveStop(ticket: string, move: Option<Move>, asked: Option<real>, reply: Reply)
      requires Tracks(ticket)
      modifies this`broker, this`ledger
      ensures ViewOf(ticket) == WithWorld(old(ViewOf(ticket)), AfterMove(old(Of(ticket)), move, asked, reply))
      ensures forall t :: t != ticket ==> ViewOf(t) == old(ViewOf(t))
    {
      if asked.Some? && !reply.Refused? {
        broker := broker[ticket := broker[ticket].(stop := asked.value)];
        var counts := Counts(ledger, ticket);
        ledger := ledger[ticket := counts.(moves := counts.moves + 1, move := move)];
      }
    }

    method CompleteTp1(ticket: string, asked: Option<real>, saved: bool)
      requires Valid() && Tracks(ticket)
      modifies this`store, this`repo, this`ledger
      ensures Valid() && ViewOf(ticket) == WithWorld(old(ViewOf(ticket)), AfterHit(old(Of(ticket)), asked, saved))
      ensures forall t :: t != ticket ==> ViewOf(t) == old(ViewOf(t))
    {
      var trade := store[Own(ticket)];
      PutOwn(ticket, trade.(tp1Hit := true, sl := if asked.Some? then asked.value else trade.sl,
                            status := if trade.tp1ClosePrice.Some? then PartiallyClosed else trade.status), saved);
      CountHit(ticket, saved);
    }

    ghost method CountHit(ticket: string, saved: bool)
      modifies this`ledger
      ensures
        var v := old(ViewOf(ticket));
        ViewOf(ticket) == v.(ledger := v.ledger.(hits := v.ledger.hits + 1,
                                                 events := v.ledger.events + if saved then 1 else 0))
      ensures forall t :: t != ticket ==> ViewOf(t) == old(ViewOf(t))
    {
      var counts := Counts(ledger, ticket);
      ledger := ledger[ticket := counts.(hits := counts.hits + 1, events := counts.events + if saved then 1 else 0)];
    }

    /** A trade whose position has gone leaves the store and is announced, once. A stub gets
        a number of polls' grace. */
    method HandleAbsent(key: Key, luck: Luck) returns (gone: bool)
      requires Valid() && key in store && key.ticket !in broker
      modifies this`store, this`repo, this`stubMisses, this`lastPrice, this`announced
      ensures Valid() && ViewOf(key.ticket) == Handled(config, missLimit, old(ViewOf(key.ticket)), key, luck)
      ensures gone <==> key !in store
      ensures
        var price := PriceAtClose(old(ViewOf(key.ticket)), luck);
        announced == old(announced) + if gone then Announced(key, old(store)[key], price) else []
      ensures forall t :: t != key.ticket ==> ViewOf(t) == old(ViewOf(t))
    {
      if key.StubOf? {
        gone := Missed(key.ticket);
        if !gone {
          return;
        }
      }
      var price := if key.ticket in lastPrice then Some(lastPrice[key.ticket]) else luck.deal;
      if key.Own? {
        lastPrice := lastPrice - {key.ticket};
      }
      Announce(key, store[key], price);
      Remove(key, price, luck.recordSaved);
      gone := true;
    }

    /** A poll in which a stub's position is missing, and whether that was one too many. */
    method Missed(ticket: string) returns (tooOften: bool)
      modifies this`stubMisses
      ensures tooOften <==> old(Misses(stubMisses, ticket)) + 1 >= missLimit
      ensures Misses(stubMisses, ticket) == if tooOften then 0 else old(Misses(stubMisses, ticket)) + 1
      ensures forall t :: t != ticket ==> Misses(stubMisses, t) == old(Misses(stubMisses, t))
    {
      var misses := (if ticket in stubMisses then stubMisses[ticket] else 0) + 1;
      stubMisses := stubMisses[ticket := misses];
      if misses < missLimit {
        return false;
      }
      stubMisses := stubMisses - {ticket};
      tooOften := true;
    }

    method Remove(key: Key, price: Option<real>, saved: bool)
      requires Valid() && key in store
      modifies this`store, this`repo
      ensures Valid() && key !in store
      ensures ViewOf(key.ticket) == Removed(old(ViewOf(key.ticket)), key.Own?, price, saved)
      ensures forall t :: t != key.ticket ==> ViewOf(t) == old(ViewOf(t))
    {
      if saved {
        repo := repo[key := ClosedRecord(store[key], price)];
      }
      store := store - {key};
    }

    method Announce(key: Key, trade: Trade, price: Option<real>)
      modifies this`announced
      ensures announced == old(announced) + Announced(key, trade, price)
    {
      var reason := CloseReason(trade, price);
      if reason.Tp2Hit? {
        announced := announced + [Tp2Reached(key)];
      } else if reason.SlHit? {
        announced := announced + [SlReached(key)];
      }
      announced := announced + [TradeClosed(key, ClosedRecord(trade, price))];
    }

    method PollOne(key: Key, luck: Luck)
      requires Valid() && key in store
      modifies this
      ensures Valid() && ViewOf(key.ticket) == Handled(config, missLimit, old(ViewOf(key.ticket)), key, luck)
      ensures forall t :: t != key.ticket ==> ViewOf(t) == old(ViewOf(t))
    {
      var ticket := key.ticket;
      if ticket !in broker {
        var gone := HandleAbsent(key, luck);
      } else {
        if key.StubOf? {
          stubMisses := stubMisses - {ticket};
        }
        lastPrice := lastPrice[ticket := broker[ticket].price];
        if Watched(store[key]) && Crossed(store[key], broker[ticket].price) {
          HandleTp1PriceReached(ticket, luck);
        }
      }
    }

    /** Positions on tickets the store does not know are taken over first. */
    method AdoptUnknown(luck: string -> Luck)
      requires Valid()
      modifies this`store, this`repo
      ensures Valid() && forall ticket :: ViewOf(ticket) == AdoptView(old(ViewOf(ticket)), luck(ticket))
    {
      var todo := broker.Keys;
      while todo != {}
        invariant Valid() && todo <= broker.Keys
        invariant forall ticket :: ViewOf(ticket) == if ticket in todo then old(ViewOf(ticket))
                                                     else AdoptView(old(ViewOf(ticket)), luck(ticket))
        decreases |todo|
      {
        var ticket :| ticket in todo;
        assert ViewOf(ticket) == old(ViewOf(ticket));
        if Own(ticket) !in store && StubOf(ticket) !in store {
          AdoptOne(ticket, luck(ticket));
        }
        todo := todo - {ticket};
      }
    }

    method AdoptOne(ticket: string, luck: Luck)
      requires Valid() && ticket in broker && Own(ticket) !in store && StubOf(ticket) !in store
      modifies this`store, this`repo
      ensures Valid() && ViewOf(ticket) == AdoptView(old(ViewOf(ticket)), luck)
      ensures forall t :: t != ticket ==> ViewOf(t) == old(ViewOf(t))
    {
      var own, stub := Own(ticket), StubOf(ticket);
      var ownOpen := own in repo && repo[own].status != Closed;
      var stubOpen := stub in repo && repo[stub].status != Closed;
      if ownOpen && (!stubOpen || !luck.stubFirst) {
        Put(own, Reloaded(repo[own]), false);
      } else if stubOpen {
        Put(stub, Reloaded(repo[stub]), false);
      } else {
        Put(stub, Stub(broker[ticket]), luck.recordSaved);
      }
    }

    /** One poll: unknown positions are adopted; then own trades with a position are watched
        for TP1 and trades without one are closed. No ticket's handling reaches another. */
    method Poll(luck: string -> Luck)
      requires Valid()
      modifies this
      ensures Valid()
      ensures forall ticket ::
                var v := AdoptView(old(ViewOf(ticket)), luck(ticket));
                ViewOf(ticket) == PollView(config, missLimit, v, luck(ticket))
    {
      AdoptUnknown(luck);
      PollAll(luck);
    }

    /** One more trade of a ticket that the poll found as v. */
    method PollNext(key: Key, luck: Luck, ghost v: View, ghost todo: set<Key>)
      requires Valid() && Reached(key.ticket, v, todo, luck) && key in todo
      requires (if key.Own? then v.own.Some? else v.stub.Some?) && (v.stub.Some? ==> v.stub.value.stub)
      modifies this
      ensures Valid() && Reached(key.ticket, v, todo - {key}, luck)
      ensures forall t :: t != key.ticket ==> ViewOf(t) == old(ViewOf(t))
    {
      UnhandledIsThere(config, missLimit, v, Own(key.ticket) !in todo, StubOf(key.ticket) !in todo, key, luck);
      PollOne(key, luck);
    }

    /** The poll found the ticket as v and has yet to handle what is in todo. */
    ghost predicate Reached(ticket: string, v: View, todo: set<Key>, luck: Luck)
      reads this
    {
      ViewOf(ticket) == HandledSoFar(config, missLimit, v, Own(ticket) !in todo, StubOf(ticket) !in todo, luck)
    }

    /** Own trade and stub of a ticket are handled in either order, to the same end. */
    method PollAll(luck: string -> Luck)
      requires Valid()
      modifies this
      ensures Valid()
      ensures forall ticket :: ViewOf(ticket) == PollView(config, missLimit, old(ViewOf(ticket)), luck(ticket))
    {
      var todo := store.Keys;
      forall ticket ensures Reached(ticket, old(ViewOf(ticket)), todo, luck(ticket)) {
        AbsentNeedNoHandling(config, missLimit, ViewOf(ticket), Own(ticket) !in todo, StubOf(ticket) !in todo,
                             luck(ticket));
      }
      while todo != {}
        invariant Valid() && todo <= old(store.Keys)
        invariant forall ticket :: Reached(ticket, old(ViewOf(ticket)), todo, luck(ticket))
        decreases |todo|
      {
        var key :| key in todo;
        assert Reached(key.ticket, old(ViewOf(key.ticket)), todo, luck(key.ticket));
        PollNext(key, luck(key.ticket), old(ViewOf(key.ticket)), todo);
        forall ticket | ticket != key.ticket
          ensures Reached(ticket, old(ViewOf(ticket)), todo - {key}, luck(ticket))
        {
          assert Own(ticket) != key && StubOf(ticket) != key;
        }
        todo := todo - {key};
      }
      forall ticket ensures ViewOf(ticket) == PollView(config, missLimit, old(ViewOf(ticket)), luck(ticket)) {
        assert Reached(ticket, old(ViewOf(ticket)), todo, luck(ticket));
      }
    }
  }

  /** One trade of a ticket handled by a poll. */
  function Handled(c: Settings, missLimit: nat, v: View, key: Key, luck: Luck): View
  {
    if key.Own? then PollOwn(c, v, luck) else PollStub(missLimit, v, luck)
  }

  ghost function HandledSoFar(c: Settings, missLimit: nat, v: View, own: bool, stub: bool, luck: Luck): View
  {
    var w := if own then PollOwn(c, v, luck) else v;
    if stub then PollStub(missLimit, w, luck) else w
  }

  lemma AbsentNeedNoHandling(c: Settings, missLimit: nat, v: View, own: bool, stub: bool, luck: Luck)
    requires (own ==> v.own.None?) && (stub ==> v.stub.None?)
    ensures HandledSoFar(c, missLimit, v, own, stub, luck) == v
  {
  }

  /** Handling one trade of a ticket leaves the other one to be handled. */
  lemma UnhandledIsThere(c: Settings, missLimit: nat, v: View, own: bool, stub: bool, key: Key, luck: Luck)
    requires (if key.Own? then v.own.Some? && !own else v.stub.Some? && !stub) && (v.stub.Some? ==> v.stub.value.stub)
    ensures
      var w := HandledSoFar(c, missLimit, v, own, stub, luck);
      && (if key.Own? then w.own.Some? else w.stub.Some?)
      && Handled(c, missLimit, w, key, luck)
         == HandledSoFar(c, missLimit, v, own || key.Own?, stub || key.StubOf?, luck)
  {
  }
}
