/** Two trades on one ticket: the stub a poll makes up for a position the store does not
    know yet, and the engine's own trade stored after it. How they come about, and what the
    polls then do to both. */
module TwinTrades {
  import opened Sums
  import opened Sizing
  import opened PositionManager
  import PositionLaws

  type Happening = PositionLaws.Happening

  /** One poll of a ticket whose position stands at the price the happening tells. */
  function OnePoll(c: Settings, missLimit: nat, v: View, price: real, luck: Luck): View
    requires v.position.Some?
  {
    var seen := v.(position := Some(v.position.value.(price := price)));
    PollView(c, missLimit, AdoptView(seen, luck), luck)
  }

  /** Polls of a ticket while its position is there. */
  function Watch(c: Settings, missLimit: nat, v: View, run: seq<Happening>): (w: View)
    requires v.position.Some? && PositionLaws.OnlyPolls(run)
    ensures w.position.Some?
  {
    if run == [] then v
    else
      var h := run[|run| - 1];
      OnePoll(c, missLimit, Watch(c, missLimit, v, run[..|run| - 1]), h.price, h.luck)
  }

  ghost predicate Unknown(v: View)
  {
    v.own.None? && v.stub.None? && !HasOpenRecord(v.ownSaved) && !HasOpenRecord(v.stubSaved)
  }

  lemma UnknownIsAdopted(c: Settings, missLimit: nat, v: View, price: real, luck: Luck)
    requires v.position.Some? && (Unknown(v) || (v.own.None? && v.stub.Some? && v.stub.value.stub))
    ensures
      var w := OnePoll(c, missLimit, v, price, luck);
      w.own.None? && w.stub.Some? && w.stub.value.stub
  {
  }

  lemma {:induction false} GapIsFilled(c: Settings, missLimit: nat, v: View, run: seq<Happening>)
    requires Unknown(v) && v.position.Some? && PositionLaws.OnlyPolls(run)
    ensures
      var w := Watch(c, missLimit, v, run);
      if run == [] then w == v else w.own.None? && w.stub.Some? && w.stub.value.stub
  {
    if run != [] {
      var n := |run| - 1;
      GapIsFilled(c, missLimit, v, run[..n]);
      UnknownIsAdopted(c, missLimit, Watch(c, missLimit, v, run[..n]), run[n].price, run[n].luck);
    }
  }

  /** A position just filled, and its trade stored after the polls of run: the ticket has two
      trades exactly when a poll fell between the fill and the store. */
  lemma {:induction false} TwinsComeFromTheGap(
    c: Settings, missLimit: nat, v: View, run: seq<Happening>, t: Trade, saved: bool)
    requires Unknown(v) && v.position.Some? && PositionLaws.OnlyPolls(run)
    ensures
      var w := WithOwn(Watch(c, missLimit, v, run), t, saved);
      w.own == Some(t) && (w.stub.Some? <==> run != [])
  {
    GapIsFilled(c, missLimit, v, run);
  }

  // -------------------------------------------------------------- while it is open

  lemma TwinIsLeftAlone(c: Settings, missLimit: nat, v: View, price: real, luck: Luck)
    requires v.own.Some? && v.position.Some?
    ensures
      var w := OnePoll(c, missLimit, v, price, luck);
      && w.own.Some? && WorldOf(w) == PositionLaws.Next(c, WorldOf(v), PositionLaws.Poll(price, luck))
      && w.stub == v.stub && w.stubSaved == v.stubSaved
  {
  }

  /** While the position is open, polls do to the own trade exactly what they do to a trade
      alone on its ticket, so all that is proved of its runs holds; and nothing to the stub. */
  lemma {:induction false} TwinsDoNotInterfere(c: Settings, missLimit: nat, v: View, run: seq<Happening>)
    requires v.own.Some? && v.position.Some? && PositionLaws.OnlyPolls(run)
    ensures
      var w := Watch(c, missLimit, v, run);
      && w.own.Some? && WorldOf(w) == PositionLaws.Run(c, WorldOf(v), run)
      && w.stub == v.stub && w.stubSaved == v.stubSaved
  {
    if run != [] {
      var n := |run| - 1;
      TwinsDoNotInterfere(c, missLimit, v, run[..n]);
      TwinIsLeftAlone(c, missLimit, Watch(c, missLimit, v, run[..n]), run[n].price, run[n].luck);
    }
  }

  // ------------------------------------------------------------------ after it closed

  /** Polls of a ticket whose position is gone. */
  function Missing(c: Settings, missLimit: nat, v: View, lucks: seq<Luck>): View
  {
    if lucks == [] then v
    else
      var luck := lucks[|lucks| - 1];
      var before := Missing(c, missLimit, v, lucks[..|lucks| - 1]);
      PollView(c, missLimit, AdoptView(before, luck), luck)
  }

  function Trades(v: View): nat { (if v.own.Some? then 1 else 0) + if v.stub.Some? then 1 else 0 }

  lemma OnePollMissing(c: Settings, missLimit: nat, v: View, luck: Luck)
    requires v.position.None?
    ensures
      var w := PollView(c, missLimit, AdoptView(v, luck), luck);
      && w.position.None? && w.own.None?
      && (w.stub.Some? <==> v.stub.Some? && v.misses + 1 < missLimit)
      && (w.stub.Some? ==> w.misses == v.misses + 1)
  {
  }

  /** Once the one position has closed, the own trade goes with the next poll and the stub
      with the poll that makes its grace full: two closes are announced for it in all. */
  lemma {:induction false} TwinsCloseTwice(c: Settings, missLimit: nat, v: View, lucks: seq<Luck>)
    requires v.own.Some? && v.stub.Some? && v.position.None? && v.misses == 0
    ensures
      var w := Missing(c, missLimit, v, lucks);
      && w.position.None? && (w.own.Some? <==> lucks == [])
      && (w.stub.Some? <==> lucks == [] || |lucks| < missLimit)
      && (w.stub.Some? ==> w.misses == |lucks|)
      && (lucks != [] && |lucks| >= missLimit ==> Trades(v) - Trades(w) == 2)
  {
    if lucks != [] {
      var n := |lucks| - 1;
      TwinsCloseTwice(c, missLimit, v, lucks[..n]);
      OnePollMissing(c, missLimit, Missing(c, missLimit, v, lucks[..n]), lucks[n]);
    }
  }
}
