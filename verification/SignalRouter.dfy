/** One signal's way down to one agent: a table of deliveries worked off in passes, with
    retry, backoff, expiry and the outcome of the last command. */
module SignalRouter {
  import opened Sums
  import opened Listings

  const LIFETIME := 120_000
  const SECOND := 1000
  const LONGEST_DELAY := 30_000

  type Key = (string, string)

  datatype Status = Pending | Sent | Accepted | Rejected | Expired | Unrouted

  datatype Outcome = Submitted | NotConnected | SendFailed | Completed | Refused

  datatype Row = Row(status: Status, commandId: Option<nat>, attempts: nat, nextAt: int, expiresAt: int, updatedAt: int)

  predicate Terminal(status: Status) { !status.Pending? && !status.Sent? }

  predicate Due(row: Row, now: int) { !Terminal(row.status) && row.nextAt <= now }

  /** The agent under which a signal that no agent is eligible for is filed. */
  const ROUTING := "__routing__"

  function Queued(now: int, expiresAt: int): Row { Row(Pending, None, 0, now, expiresAt, now) }

  function Power(n: nat): (p: nat)
    ensures p >= 1
  {
    if n == 0 then 1 else 2 * Power(n - 1)
  }

  /** The wait after the given attempt: 1, 2, 4, 8, 16, then 30 seconds. */
  function Delay(attempt: nat): int
    requires attempt > 0
  {
    var exponent: nat := if attempt - 1 < 5 then attempt - 1 else 5;
    var wait := SECOND * Power(exponent);
    if wait < LONGEST_DELAY then wait else LONGEST_DELAY
  }

  datatype Decision = Expire | Settle(status: Status) | Submit

  /** What a pass that read this copy of a row does with it. */
  function Decide(copy: Row, at: int, outcome: Option<Outcome>): Decision
  {
    if at >= copy.expiresAt then Expire
    else if copy.commandId.Some? && outcome == Some(Completed) then Settle(Accepted)
    else if copy.commandId.Some? && outcome == Some(Refused) then Settle(Rejected)
    else Submit
  }

  /** The update a decision writes over the row, whatever the row is by then. */
  function Write(row: Row, copy: Row, d: Decision, at: int, clock: int, command: Option<nat>): Row
  {
    match d
    case Expire => row.(status := Expired, updatedAt := clock)
    case Settle(status) => row.(status := status, updatedAt := clock)
    case Submit =>
      row.(status := if command.Some? then Sent else Pending,
           commandId := if command.Some? then command else row.commandId,
           attempts := copy.attempts + 1,
           nextAt := at + Delay(copy.attempts + 1),
           updatedAt := clock)
  }

  function OutcomeOf(copy: Row, outcomes: map<nat, Outcome>): Option<Outcome>
  {
    if copy.commandId.Some? && copy.commandId.value in outcomes then Some(outcomes[copy.commandId.value]) else None
  }

  /** A pass over one row when no other pass interferes. */
  function Pass(row: Row, now: int, clock: int, outcome: Option<Outcome>, command: Option<nat>): Row
  {
    if Due(row, now) then Write(row, row, Decide(row, now, outcome), now, clock, command) else row
  }

  /** The due deliveries with the times they fell due. */
  function DueTimes(deliveries: map<Key, Row>, now: int): map<Key, int>
  {
    map k | k in deliveries && Due(deliveries[k], now) :: deliveries[k].nextAt
  }

  /** The table when the pass has dealt with the given deliveries. */
  ghost function Passed(rows: map<Key, Row>, dealt: seq<Key>, now: int, clock: int, outcomes: map<nat, Outcome>,
                        send: Key -> Option<nat>): map<Key, Row>
  {
    map k | k in rows ::
      if k in dealt then Pass(rows[k], now, clock, OutcomeOf(rows[k], outcomes), send(k)) else rows[k]
  }

  /** The deliveries a pass tries, in the order it deals with them. */
  ghost function Submissions(rows: map<Key, Row>, dealt: seq<Key>, now: int, outcomes: map<nat, Outcome>): seq<Key>
  {
    if dealt == [] then []
    else
      var before, key := Submissions(rows, dealt[..|dealt| - 1], now, outcomes), dealt[|dealt| - 1];
      if key in rows && IsSubmitted(rows[key], now, outcomes) then before + [key] else before
  }

  lemma {:induction false} NextInLine(rows: map<Key, Row>, due: seq<Key>, i: nat, now: int, outcomes: map<nat, Outcome>)
    requires i < |due| && IsListing(due, DueTimes(rows, now).Keys)
    ensures due[..i + 1] == due[..i] + [due[i]] && due[i] !in due[..i]
    ensures due[i] in rows && Due(rows[due[i]], now)
    ensures Submissions(rows, due[..i + 1], now, outcomes)
         == Submissions(rows, due[..i], now, outcomes)
            + if IsSubmitted(rows[due[i]], now, outcomes) then [due[i]] else []
  {
    assert due[..i + 1] == due[..i] + [due[i]];
    assert due[..i + 1][..i] == due[..i];
    assert due[i] in DueTimes(rows, now).Keys;
  }

  /** Exactly the deliveries that are due, in time and not settled by their command's
      outcome, each once, the longest due first. */
  ghost predicate AreSubmissions(submitted: seq<Key>, rows: map<Key, Row>, now: int, outcomes: map<nat, Outcome>)
  {
    && (forall k :: k in submitted <==> k in rows && IsSubmitted(rows[k], now, outcomes))
    && Ordered(submitted, DueTimes(rows, now))
  }

  lemma {:induction false} AllSubmissions(rows: map<Key, Row>, due: seq<Key>, now: int, outcomes: map<nat, Outcome>)
    requires IsListing(due, DueTimes(rows, now).Keys) && Ascending(due, DueTimes(rows, now))
    ensures AreSubmissions(Submissions(rows, due, now, outcomes), rows, now, outcomes)
  {
    SubmissionsAreOrdered(rows, due, |due|, now, outcomes);
    SubmissionsAreChosen(rows, due, |due|, now, outcomes);
    assert due[..|due|] == due;
    forall k | k in rows && IsSubmitted(rows[k], now, outcomes) ensures k in due {
      assert k in DueTimes(rows, now).Keys;
    }
  }

  lemma {:induction false} SubmissionsAreChosen(rows: map<Key, Row>, due: seq<Key>, n: nat, now: int,
                                                outcomes: map<nat, Outcome>)
    requires n <= |due| && IsListing(due, DueTimes(rows, now).Keys)
    ensures forall k :: k in Submissions(rows, due[..n], now, outcomes) <==>
              k in due[..n] && k in rows && IsSubmitted(rows[k], now, outcomes)
  {
    if n > 0 {
      SubmissionsAreChosen(rows, due, n - 1, now, outcomes);
      NextInLine(rows, due, n - 1, now, outcomes);
    }
  }

  lemma {:induction false} SubmissionsAreOrdered(rows: map<Key, Row>, due: seq<Key>, n: nat, now: int,
                                                 outcomes: map<nat, Outcome>)
    requires n <= |due| && IsListing(due, DueTimes(rows, now).Keys) && Ordered(due, DueTimes(rows, now))
    ensures Ordered(Submissions(rows, due[..n], now, outcomes), DueTimes(rows, now))
  {
    if n > 0 {
      SubmissionsAreOrdered(rows, due, n - 1, now, outcomes);
      SubmissionsAreChosen(rows, due, n - 1, now, outcomes);
      NextInLine(rows, due, n - 1, now, outcomes);
      NextStaysOrdered(Submissions(rows, due[..n - 1], now, outcomes), due, n - 1, DueTimes(rows, now));
    }
  }

  lemma PassedOneMore(rows: map<Key, Row>, dealt: seq<Key>, key: Key, now: int, clock: int,
                      outcomes: map<nat, Outcome>, send: Key -> Option<nat>)
    requires key in rows && key !in dealt && Due(rows[key], now)
    ensures
      var row := rows[key];
      Passed(rows, dealt + [key], now, clock, outcomes, send)
      == Passed(rows, dealt, now, clock, outcomes, send)
           [key := Write(row, row, Decide(row, now, OutcomeOf(row, outcomes)), now, clock, send(key))]
  {
  }

  lemma DuePassedIsAllPassed(rows: map<Key, Row>, due: seq<Key>, now: int, clock: int,
                             outcomes: map<nat, Outcome>, send: Key -> Option<nat>)
    requires IsListing(due, DueTimes(rows, now).Keys)
    ensures
      var after := Passed(rows, due, now, clock, outcomes, send);
      && after.Keys == rows.Keys
      && forall k :: k in rows ==> after[k] == Pass(rows[k], now, clock, OutcomeOf(rows[k], outcomes), send(k))
  {
    forall k | k in rows ensures k in due <==> Due(rows[k], now) {
      assert k in due <==> k in DueTimes(rows, now).Keys;
    }
  }

  class ManagerSignalRouter {
    var deliveries: map<Key, Row>
    var outcomes: map<nat, Outcome>

    constructor ()
      ensures deliveries == map[] && outcomes == map[]
    {
      deliveries, outcomes := map[], map[];
    }

    /** A signal is queued for every eligible agent; a delivery that exists stays as it is.
        If no agent is eligible, that is put on record instead. */
    method OnSignal(signal: string, agents: seq<string>, eligible: string -> bool, now: int, referenceMs: int)
      modifies this`deliveries
      ensures (exists a :: a in agents && eligible(a)) ==>
        && (forall k :: k in deliveries <==> k in old(deliveries) || (k.0 == signal && k.1 in agents && eligible(k.1)))
        && (forall k :: k in deliveries ==>
              deliveries[k] == if k in old(deliveries) then old(deliveries)[k]
                               else Queued(now, referenceMs + 120_000))
      ensures !(exists a :: a in agents && eligible(a)) ==>
        && (signal, ROUTING) in deliveries && deliveries[(signal, ROUTING)].status == Unrouted
        && deliveries[(signal, ROUTING)].updatedAt == now
        && deliveries - {(signal, ROUTING)} == old(deliveries) - {(signal, ROUTING)}
    {
      var found := false;
      for i := 0 to |agents|
        invariant found <==> exists a :: a in agents[..i] && eligible(a)
        invariant !found ==> deliveries == old(deliveries)
        invariant forall k :: k in deliveries <==>
                    k in old(deliveries) || (k.0 == signal && k.1 in agents[..i] && eligible(k.1))
        invariant forall k :: k in deliveries ==>
                    deliveries[k] == if k in old(deliveries) then old(deliveries)[k]
                                     else Queued(now, referenceMs + LIFETIME)
      {
        assert agents[..i + 1] == agents[..i] + [agents[i]];
        if eligible(agents[i]) {
          found := true;
          if (signal, agents[i]) !in deliveries {
            deliveries := deliveries[(signal, agents[i]) := Queued(now, referenceMs + LIFETIME)];
          }
        }
      }
      assert agents[..|agents|] == agents;
      if !found {
        var key := (signal, ROUTING);
        var row := if key in deliveries then deliveries[key] else Queued(now, now);
        deliveries := deliveries[key := row.(status := Unrouted, updatedAt := now)];
      }
    }

    /** One pass. send says which command goes out for a delivery, if its agent is connected;
        submitted are the deliveries tried, the longest due first. */
    method ProcessDueDeliveries(now: int, clock: int, send: Key -> Option<nat>) returns (submitted: seq<Key>)
      modifies this`deliveries
      ensures deliveries.Keys == old(deliveries).Keys
      ensures forall k :: k in deliveries ==>
                deliveries[k] == Pass(old(deliveries)[k], now, clock, OutcomeOf(old(deliveries)[k], outcomes), send(k))
      ensures AreSubmissions(submitted, old(deliveries), now, outcomes)
    {
      ghost var rows := deliveries;
      var due := SortedKeys(DueTimes(deliveries, now));
      submitted := [];
      for i := 0 to |due|
        invariant deliveries == Passed(rows, due[..i], now, clock, outcomes, send)
        invariant submitted == Submissions(rows, due[..i], now, outcomes)
      {
        NextInLine(rows, due, i, now, outcomes);
        var tried := HandleDelivery(rows, due[..i], due[i], now, clock, send(due[i]), send);
        if tried {
          submitted := submitted + [due[i]];
        }
      }
      assert due[..|due|] == due;
      AllSubmissions(rows, due, now, outcomes);
      DuePassedIsAllPassed(rows, due, now, clock, outcomes, send);
    }

    method HandleDelivery(ghost rows: map<Key, Row>, ghost dealt: seq<Key>, key: Key, now: int, clock: int,
                          command: Option<nat>, ghost send: Key -> Option<nat>) returns (tried: bool)
      requires deliveries == Passed(rows, dealt, now, clock, outcomes, send)
      requires key in rows && key !in dealt && Due(rows[key], now) && command == send(key)
      modifies this`deliveries
      ensures deliveries == Passed(rows, dealt + [key], now, clock, outcomes, send)
      ensures tried <==> IsSubmitted(rows[key], now, outcomes)
    {
      var d := Decide(deliveries[key], now, OutcomeOf(deliveries[key], outcomes));
      Update(key, d, now, clock, command);
      PassedOneMore(rows, dealt, key, now, clock, outcomes, send);
      tried := d.Submit?;
    }

    /** What a decision does to the row it was taken on. */
    method Update(key: Key, d: Decision, now: int, clock: int, command: Option<nat>)
      requires key in deliveries
      modifies this`deliveries
      ensures deliveries
          == old(deliveries)[key := Write(old(deliveries)[key], old(deliveries)[key], d, now, clock, command)]
    {
      var row := deliveries[key];
      match d
      case Expire => deliveries := deliveries[key := row.(status := Expired, updatedAt := clock)];
      case Settle(status) => deliveries := deliveries[key := row.(status := status, updatedAt := clock)];
      case Submit =>
        var attempts := row.attempts + 1;
        deliveries := deliveries[key := Row(if command.Some? then Sent else Pending,
                                            if command.Some? then command else row.commandId,
                                            attempts, now + Delay(attempts), row.expiresAt, clock)];
    }
  }

  ghost predicate IsSubmitted(row: Row, now: int, outcomes: map<nat, Outcome>)
  {
    Due(row, now) && Decide(row, now, OutcomeOf(row, outcomes)).Submit?
  }

  // ------------------------------------------------------- serial passes, one row

  /** One pass as the row sees it: when, and what the outcome and the send turned out. */
  datatype Visit = Visit(now: int, clock: int, outcome: Option<Outcome>, command: Option<nat>)

  function AfterPasses(row: Row, visits: seq<Visit>): Row
  {
    if visits == [] then row
    else
      var v := visits[|visits| - 1];
      Pass(AfterPasses(row, visits[..|visits| - 1]), v.now, v.clock, v.outcome, v.command)
  }

  /** The least time from queueing to the moment attempt n + 1 is due. */
  function Waited(n: nat): int { if n == 0 then 0 else Waited(n - 1) + Delay(n) }

  lemma DelayIsBounded(attempt: nat)
    requires attempt > 0
    ensures SECOND <= Delay(attempt) <= LONGEST_DELAY
  {
  }

  /** Eight attempts take at least 121 seconds of waiting. */
  lemma {:induction false} EightAttemptsOutlive(n: nat)
    ensures Waited(n) >= 0 && (n >= 8 ==> Waited(n) >= 121 * SECOND)
  {
    if n > 0 {
      EightAttemptsOutlive(n - 1);
      DelayIsBounded(n);
      assert Delay(1) == 1000 && Delay(2) == 2000 && Delay(3) == 4000 && Delay(4) == 8000;
      if n == 8 {
        assert Power(4) == 16 && Power(5) == 32;
        assert Delay(5) == 16000 && Delay(6) == 30000 && Delay(7) == 30000 && Delay(8) == 30000;
        assert Waited(4) == 15000 && Waited(8) == Waited(4) + Delay(5) + Delay(6) + Delay(7) + Delay(8);
      }
    }
  }

  /** Where a row queued at q can be after any serial passes. */
  ghost predicate OnTrack(row: Row, q: int, expiresAt: int)
  {
    && row.expiresAt == expiresAt
    && row.nextAt >= q + Waited(row.attempts)
    && (row.nextAt <= q || row.nextAt < expiresAt + LONGEST_DELAY)
    && (expiresAt <= q + LIFETIME ==> row.attempts <= 8)
  }

  lemma PassStaysOnTrack(row: Row, q: int, expiresAt: int, v: Visit)
    requires OnTrack(row, q, expiresAt)
    ensures OnTrack(Pass(row, v.now, v.clock, v.outcome, v.command), q, expiresAt)
  {
    EightAttemptsOutlive(row.attempts);
    DelayIsBounded(row.attempts + 1);
  }

  lemma {:induction false} StaysOnTrack(q: int, expiresAt: int, visits: seq<Visit>)
    ensures OnTrack(AfterPasses(Queued(q, expiresAt), visits), q, expiresAt)
  {
    if visits != [] {
      StaysOnTrack(q, expiresAt, visits[..|visits| - 1]);
      PassStaysOnTrack(AfterPasses(Queued(q, expiresAt), visits[..|visits| - 1]), q, expiresAt, visits[|visits| - 1]);
    }
  }

  /** However the passes fall and whatever the commands come to, a delivery that lives no
      longer than the signal lifetime is submitted at most eight times. */
  lemma {:induction false} AtMostEightAttempts(q: int, expiresAt: int, visits: seq<Visit>)
    requires expiresAt <= q + 120_000
    ensures AfterPasses(Queued(q, expiresAt), visits).attempts <= 8
  {
    StaysOnTrack(q, expiresAt, visits);
  }

  /** Eight is reached: passes every second and no connection. */
  lemma {:induction false} EightAttemptsHappen(visits: seq<Visit>)
    requires visits == [Miss(0), Miss(1), Miss(3), Miss(7), Miss(15), Miss(31), Miss(61), Miss(91)]
    ensures AfterPasses(Queued(0, LIFETIME), visits).attempts == 8
  {
    assert Power(4) == 16 && Power(5) == 32;
    AfterMiss(visits, 1, 0, 1);
    AfterMiss(visits, 2, 1, 3);
    AfterMiss(visits, 3, 3, 7);
    AfterMiss(visits, 4, 7, 15);
    AfterMiss(visits, 5, 15, 31);
    AfterMiss(visits, 6, 31, 61);
    AfterMiss(visits, 7, 61, 91);
    AfterMiss(visits, 8, 91, 121);
    assert visits[..8] == visits;
  }

  function Miss(second: int): Visit { Visit(second * SECOND, second * SECOND, None, None) }

  lemma AfterMiss(visits: seq<Visit>, n: nat, second: int, next: int)
    requires 0 < n <= |visits| && visits[n - 1] == Miss(second) && 0 <= second < 120
    requires
      var row := AfterPasses(Queued(0, LIFETIME), visits[..n - 1]);
      && row.status == Pending && row.commandId == None && row.attempts == n - 1
      && row.nextAt <= second * SECOND && row.expiresAt == LIFETIME
    requires next * SECOND == second * SECOND + Delay(n)
    ensures
      var row := AfterPasses(Queued(0, LIFETIME), visits[..n]);
      && row.status == Pending && row.commandId == None && row.attempts == n
      && row.nextAt == next * SECOND && row.expiresAt == LIFETIME
  {
    assert visits[..n][..n - 1] == visits[..n - 1];
  }

  /** Once settled, a delivery never changes again. */
  lemma {:induction false} SettledForGood(row: Row, visits: seq<Visit>)
    requires Terminal(row.status)
    ensures AfterPasses(row, visits) == row
  {
    if visits != [] {
      SettledForGood(row, visits[..|visits| - 1]);
    }
  }

  lemma {:induction false} PassesSplit(row: Row, a: seq<Visit>, b: seq<Visit>)
    ensures AfterPasses(row, a + b) == AfterPasses(AfterPasses(row, a), b)
  {
    if b == [] {
      assert a + b == a;
    } else {
      PassesSplit(row, a, b[..|b| - 1]);
      assert (a + b)[..|a + b| - 1] == a + b[..|b| - 1];
    }
  }

  /** No delivery hangs: the first pass that runs half a minute past the expiry settles it,
      and it stays as that pass left it. */
  lemma {:induction false} SettledByDeadline(q: int, expiresAt: int, visits: seq<Visit>, k: nat)
    requires k < |visits| && visits[k].now >= q && visits[k].now >= expiresAt + LONGEST_DELAY
    ensures Terminal(AfterPasses(Queued(q, expiresAt), visits).status)
    ensures AfterPasses(Queued(q, expiresAt), visits) == AfterPasses(Queued(q, expiresAt), visits[..k + 1])
  {
    var row := Queued(q, expiresAt);
    StaysOnTrack(q, expiresAt, visits[..k]);
    assert visits[..k + 1][..k] == visits[..k];
    PassesSplit(row, visits[..k + 1], visits[k + 1..]);
    assert visits[..k + 1] + visits[k + 1..] == visits;
    SettledForGood(AfterPasses(row, visits[..k + 1]), visits[k + 1..]);
  }

  /** The wait before the next attempt, in milliseconds. */
  function WaitAfter(attempt: nat): int
  {
    match attempt
    case 0 => 0
    case 1 => 1_000
    case 2 => 2_000
    case 3 => 4_000
    case 4 => 8_000
    case 5 => 16_000
    case _ => 30_000
  }

  lemma DelayIsTheWait(attempt: nat)
    requires attempt > 0
    ensures Delay(attempt) == WaitAfter(attempt)
  {
    assert Power(4) == 16 && Power(5) == 32;
  }

  /** The one reason for each way a delivery is settled: its time is up; or, in time, its last
      command was completed or refused. */
  ghost predicate SettlesAt(row: Row, v: Visit, status: Status)
  {
    && (row.status == Pending || row.status == Sent) && row.nextAt <= v.now
    && match status
       case Expired => row.expiresAt <= v.now
       case Accepted => v.now < row.expiresAt && row.commandId != None && v.outcome == Some(Completed)
       case Rejected => v.now < row.expiresAt && row.commandId != None && v.outcome == Some(Refused)
       case _ => false
  }

  /** What one pass does to a delivery that is still open: nothing before it is due; settle it
      for its reason; or else try again, remember the command if one went out, and wait. */
  lemma PassIsExact(row: Row, v: Visit)
    requires !Terminal(row.status)
    ensures
      var next := Pass(row, v.now, v.clock, v.outcome, v.command);
      && (row.nextAt > v.now ==> next == row)
      && (forall status :: Terminal(status) ==> (next.status == status <==> SettlesAt(row, v, status)))
      && (next.status != row.status && Terminal(next.status) ==>
            next == row.(status := next.status, updatedAt := v.clock))
      && (row.nextAt <= v.now && !Terminal(next.status) ==>
            && next.status == (if v.command.Some? then Sent else Pending)
            && next.commandId == (if v.command.Some? then v.command else row.commandId)
            && next.attempts == row.attempts + 1 && next.nextAt == v.now + WaitAfter(row.attempts + 1)
            && next.expiresAt == row.expiresAt && next.updatedAt == v.clock)
  {
    DelayIsTheWait(row.attempts + 1);
  }

  /** A delivery ends accepted, rejected or expired exactly when some pass, with nothing
      settled before, had that reason to settle it so. */
  lemma {:induction false} SettledOnlyForItsReason(row: Row, visits: seq<Visit>, status: Status)
    requires !Terminal(row.status) && Terminal(status)
    ensures AfterPasses(row, visits).status == status <==>
            exists k :: 0 <= k < |visits| && SettlesAt(AfterPasses(row, visits[..k]), visits[k], status)
  {
    if visits == [] {
      return;
    }
    var n := |visits| - 1;
    var before := AfterPasses(row, visits[..n]);
    SettledOnlyForItsReason(row, visits[..n], status);
    forall k | 0 <= k < n ensures visits[..n][..k] == visits[..k] && visits[..n][k] == visits[k] {
    }
    if !Terminal(before.status) {
      PassIsExact(before, visits[n]);
    }
    if before.status == status {
      var k :| 0 <= k < n && SettlesAt(AfterPasses(row, visits[..n][..k]), visits[..n][k], status);
      assert SettlesAt(AfterPasses(row, visits[..k]), visits[k], status);
    } else if SettlesAt(before, visits[n], status) {
      assert AfterPasses(row, visits).status == status;
    } else {
      forall k | 0 <= k < |visits| ensures !SettlesAt(AfterPasses(row, visits[..k]), visits[k], status) {
        if k < n {
          assert !SettlesAt(AfterPasses(row, visits[..n][..k]), visits[..n][k], status);
        }
      }
    }
  }
}
