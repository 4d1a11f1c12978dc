/** Signals on their way to one agent: manager passes that may overlap, a wire that loses,
    delays and repeats, a worker with its dedupe table, restarts and retention purges.
    Every step of every thread is one transition. */
module SignalDelivery {
  import opened Sums
  import opened SignalRouter

  const ENVELOPE_AGE := 300_000
  const CLOCK_SKEW := 60_000
  const WEEK := 604_800_000
  const MONTH := 2_592_000_000

  type Signal = string

  datatype Command = Command(signal: Signal, issuedAt: int)

  /** A pass that has read its copy of a row, and one that has also made its choice. at is
      the time the pass looked at the clock, which it did before it read the rows. */
  datatype Pending = Pending(signal: Signal, copy: Row, at: int)
  datatype Choice = Choice(pass: Pending, decision: Decision, command: Option<nat>)

  /** accepts and fires count, over the whole run, what the worker took into its table and
      what it handed to the engine. */
  datatype State = State(
    now: int,
    rows: map<Signal, Row>,
    outcomes: map<nat, Outcome>,
    passes: set<Pending>,
    choices: set<Choice>,
    sent: map<nat, Command>,
    acks: set<nat>,
    rejects: set<nat>,
    accepted: map<Signal, int>,
    accepts: map<Signal, nat>,
    fires: map<Signal, nat>)

  /** How a delivered command ends: acted on and acknowledged, refused, or cut short by a
      crash between the table insert and the hand-over. */
  datatype Ending = Acked | Raised | Crashed

  datatype Step =
    | Tick(t: int)
    | Queue(signal: Signal, referenceMs: int)
    | Read(signal: Signal, at: int)
    | Choose(pass: Pending, id: nat, connected: bool, written: bool)
    | Save(choice: Choice)
    | Deliver(id: nat, sameRevision: bool, ending: Ending)
    | AckArrives(id: nat)
    | RejectArrives(id: nat)
    | WorkerRestart
    | Retention

  function Number(m: map<Signal, nat>, k: Signal): nat { if k in m then m[k] else 0 }

  predicate Stale(issuedAt: int, now: int) { issuedAt < now - ENVELOPE_AGE || issuedAt > now + CLOCK_SKEW }

  predicate Enabled(s: State, step: Step)
  {
    match step
    case Tick(t) => t >= s.now
    case Read(signal, at) => at <= s.now && signal in s.rows && Due(s.rows[signal], at)
    case Choose(pass, id, connected, written) => pass in s.passes && id !in s.sent && id !in s.outcomes
    case Save(choice) => choice in s.choices
    case Deliver(id, _, _) => id in s.sent
    case AckArrives(id) => id in s.acks
    case RejectArrives(id) => id in s.rejects
    case _ => true
  }

  /** The pass looks at the last command's outcome and, if it must, submits a new command.
      connected: the hub had a connection and wrote; written: bytes reached the wire all
      the same. */
  function Chosen(s: State, pass: Pending, id: nat, connected: bool, written: bool): State
  {
    var d := Decide(pass.copy, pass.at, OutcomeOf(pass.copy, s.outcomes));
    if !d.Submit? then s.(choices := s.choices + {Choice(pass, d, None)})
    else
      s.(choices := s.choices + {Choice(pass, d, if connected then Some(id) else None)},
         outcomes := s.outcomes[id := if connected then Submitted else if written then SendFailed else NotConnected],
         sent := if connected || written then s.sent[id := Command(pass.signal, s.now)] else s.sent)
  }

  /** The choice is written over the row, whatever it is by then, if it is still there. */
  function Saved(s: State, c: Choice): State
  {
    var k := c.pass.signal;
    if k in s.rows
    then s.(rows := s.rows[k := Write(s.rows[k], c.pass.copy, c.decision, c.pass.at, s.now, c.command)])
    else s
  }

  function Inserted(s: State, signal: Signal): State
  {
    s.(accepted := s.accepted[signal := s.now], accepts := s.accepts[signal := Number(s.accepts, signal) + 1])
  }

  function HandedOver(s: State, signal: Signal): State
  {
    s.(fires := s.fires[signal := Number(s.fires, signal) + 1])
  }

  function Answered(s: State, id: nat, ending: Ending): State
  {
    match ending
    case Acked => s.(acks := s.acks + {id})
    case Raised => s.(rejects := s.rejects + {id})
    case Crashed => s
  }

  /** What the worker makes of a delivered signal. */
  datatype Verdict = Refuse | Known | New

  function Judge(accepted: map<Signal, int>, signal: Signal, issuedAt: int, now: int, sameRevision: bool): Verdict
  {
    if Stale(issuedAt, now) || !sameRevision then Refuse
    else if signal in accepted then Known
    else New
  }

  function Delivered(s: State, id: nat, sameRevision: bool, ending: Ending): State
    requires id in s.sent
  {
    var signal := s.sent[id].signal;
    match Judge(s.accepted, signal, s.sent[id].issuedAt, s.now, sameRevision)
    case Refuse => s.(rejects := s.rejects + {id})
    case Known => Answered(s, id, ending)
    case New =>
      if ending == Crashed then Inserted(s, signal)
      else Answered(HandedOver(Inserted(s, signal), signal), id, ending)
  }

  function KeepRecent<K, V>(m: map<K, V>, keep: V -> bool): map<K, V>
  {
    map k | k in m && keep(m[k]) :: m[k]
  }

  function Apply(s: State, step: Step): State
    requires Enabled(s, step)
  {
    match step
    case Tick(t) => s.(now := t)
    case Queue(signal, reference) =>
      if signal in s.rows then s else s.(rows := s.rows[signal := Queued(s.now, reference + LIFETIME)])
    case Read(signal, at) => s.(passes := s.passes + {Pending.Pending(signal, s.rows[signal], at)})
    case Choose(pass, id, connected, written) => Chosen(s, pass, id, connected, written)
    case Save(choice) => Saved(s, choice)
    case Deliver(id, same, ending) => Delivered(s, id, same, ending)
    case AckArrives(id) => if id in s.outcomes then s.(outcomes := s.outcomes[id := Completed]) else s
    case RejectArrives(id) => if id in s.outcomes then s.(outcomes := s.outcomes[id := Refused]) else s
    case WorkerRestart => s.(accepted := KeepRecent(s.accepted, (t: int) => t >= s.now - WEEK))
    case Retention =>
      s.(rows := KeepRecent(s.rows, (r: Row) => !Terminal(r.status) || r.updatedAt >= s.now - MONTH))
  }

  const INITIAL := State(0, map[], map[], {}, {}, map[], {}, {}, map[], map[], map[])

  ghost predicate Legal(run: seq<Step>)
    decreases |run|, 0
  {
    run == [] || (Legal(run[..|run| - 1]) && Enabled(After(run[..|run| - 1]), run[|run| - 1]))
  }

  ghost function After(run: seq<Step>): State
    requires Legal(run)
    decreases |run|, 1
  {
    if run == [] then INITIAL else Apply(After(run[..|run| - 1]), run[|run| - 1])
  }

  // ----------------------------------------------------- the two assumptions on a run

  /** Every queueing carries the signal's own emission time, not in the future. */
  ghost predicate Stamped(emitted: Signal -> int, s: State, step: Step)
  {
    step.Queue? ==> step.referenceMs == emitted(step.signal) <= s.now
  }

  /** From reading the clock, no pass takes longer than the given time to its last send. */
  ghost predicate Prompt(longest: int, s: State, step: Step)
  {
    step.Choose? ==> s.now <= step.pass.at + longest
  }

  ghost predicate Timely(emitted: Signal -> int, longest: int, run: seq<Step>)
    requires Legal(run)
  {
    run == [] || (
      && Timely(emitted, longest, run[..|run| - 1])
      && Stamped(emitted, After(run[..|run| - 1]), run[|run| - 1])
      && Prompt(longest, After(run[..|run| - 1]), run[|run| - 1]))
  }

  // ------------------------------------------------------------------- invariants

  ghost predicate ExpiryFollowsEmission(emitted: Signal -> int, s: State)
  {
    && (forall k :: k in s.rows ==> s.rows[k].expiresAt == emitted(k) + LIFETIME)
    && (forall p :: p in s.passes ==>
          p.copy.expiresAt == emitted(p.signal) + LIFETIME && emitted(p.signal) <= s.now && p.at <= s.now)
    && (forall k :: k in s.rows ==> emitted(k) <= s.now)
  }

  ghost predicate CommandsAreYoung(emitted: Signal -> int, longest: int, s: State)
  {
    forall id :: id in s.sent ==>
      emitted(s.sent[id].signal) <= s.now && s.sent[id].issuedAt <= emitted(s.sent[id].signal) + LIFETIME + longest
  }

  ghost predicate AcceptedAfterEmission(emitted: Signal -> int, s: State)
  {
    forall k :: k in s.accepted ==> emitted(k) <= s.accepted[k] <= s.now && Number(s.accepts, k) == 1
  }

  /** What was accepted and then forgotten is more than a week old. */
  ghost predicate ForgottenIsOld(emitted: Signal -> int, s: State)
  {
    forall k ::
      Number(s.accepts, k) <= 1 && (Number(s.accepts, k) == 1 && k !in s.accepted ==> s.now > emitted(k) + WEEK)
  }

  ghost predicate FiresAreAccepts(s: State)
  {
    forall k :: Number(s.fires, k) <= Number(s.accepts, k)
  }

  ghost predicate OnceOnly(emitted: Signal -> int, longest: int, s: State)
  {
    && ExpiryFollowsEmission(emitted, s)
    && CommandsAreYoung(emitted, longest, s)
    && AcceptedAfterEmission(emitted, s)
    && ForgottenIsOld(emitted, s)
    && FiresAreAccepts(s)
  }

  lemma SubmitKeeps(emitted: Signal -> int, longest: int, s: State, id: nat, signal: Signal, outcome: Outcome)
    requires OnceOnly(emitted, longest, s) && id !in s.sent
    requires emitted(signal) <= s.now <= emitted(signal) + LIFETIME + longest
    ensures OnceOnly(emitted, longest,
                     s.(outcomes := s.outcomes[id := outcome], sent := s.sent[id := Command(signal, s.now)]))
    ensures OnceOnly(emitted, longest, s.(outcomes := s.outcomes[id := outcome]))
  {
    var t := s.(outcomes := s.outcomes[id := outcome], sent := s.sent[id := Command(signal, s.now)]);
    assert CommandsAreYoung(emitted, longest, t);
  }

  lemma ChooseKeeps(emitted: Signal -> int, longest: int, s: State, pass: Pending, id: nat, connected: bool,
                    written: bool)
    requires OnceOnly(emitted, longest, s) && pass in s.passes && id !in s.sent
    requires s.now <= pass.at + longest && longest >= 0
    ensures OnceOnly(emitted, longest, Chosen(s, pass, id, connected, written))
  {
    var d := Decide(pass.copy, pass.at, OutcomeOf(pass.copy, s.outcomes));
    if !d.Submit? {
      AddChoiceKeeps(emitted, longest, s, Choice(pass, d, None));
    } else {
      var outcome := if connected then Submitted else if written then SendFailed else NotConnected;
      SubmitKeeps(emitted, longest, s, id, pass.signal, outcome);
      var next := s.(outcomes := s.outcomes[id := outcome],
                     sent := if connected || written then s.sent[id := Command(pass.signal, s.now)] else s.sent);
      assert OnceOnly(emitted, longest, next);
      AddChoiceKeeps(emitted, longest, next, Choice(pass, d, if connected then Some(id) else None));
    }
  }

  lemma AddChoiceKeeps(emitted: Signal -> int, longest: int, s: State, c: Choice)
    requires OnceOnly(emitted, longest, s)
    ensures OnceOnly(emitted, longest, s.(choices := s.choices + {c}))
  {
  }

  lemma WriteKeepsExpiry(row: Row, copy: Row, d: Decision, at: int, clock: int, command: Option<nat>)
    ensures Write(row, copy, d, at, clock, command).expiresAt == row.expiresAt
  {
  }

  lemma SaveKeeps(emitted: Signal -> int, longest: int, s: State, c: Choice)
    requires OnceOnly(emitted, longest, s)
    ensures OnceOnly(emitted, longest, Saved(s, c))
  {
    var t := Saved(s, c);
    if c.pass.signal in s.rows {
      WriteKeepsExpiry(s.rows[c.pass.signal], c.pass.copy, c.decision, c.pass.at, s.now, c.command);
    }
    assert t.(rows := s.rows) == s;
    assert forall k :: k in t.rows ==> k in s.rows && t.rows[k].expiresAt == s.rows[k].expiresAt;
    assert ExpiryFollowsEmission(emitted, t);
    assert CommandsAreYoung(emitted, longest, t) && AcceptedAfterEmission(emitted, t) && ForgottenIsOld(emitted, t);
  }

  lemma InsertKeeps(emitted: Signal -> int, longest: int, s: State, signal: Signal)
    requires OnceOnly(emitted, longest, s)
    requires signal !in s.accepted && emitted(signal) <= s.now <= emitted(signal) + WEEK
    ensures OnceOnly(emitted, longest, Inserted(s, signal))
    ensures Number(s.fires, signal) == 0 && Number(Inserted(s, signal).accepts, signal) == 1
  {
    var t := Inserted(s, signal);
    assert Number(s.fires, signal) <= Number(s.accepts, signal) == 0;
    assert forall k :: k != signal ==> Number(t.accepts, k) == Number(s.accepts, k);
  }

  lemma HandOverKeeps(emitted: Signal -> int, longest: int, s: State, signal: Signal)
    requires OnceOnly(emitted, longest, s) && Number(s.fires, signal) < Number(s.accepts, signal)
    ensures OnceOnly(emitted, longest, HandedOver(s, signal))
  {
    var t := HandedOver(s, signal);
    assert forall k :: k != signal ==> Number(t.fires, k) == Number(s.fires, k);
  }

  lemma AnswerKeeps(emitted: Signal -> int, longest: int, s: State, id: nat, ending: Ending)
    requires OnceOnly(emitted, longest, s)
    ensures OnceOnly(emitted, longest, Answered(s, id, ending))
    ensures OnceOnly(emitted, longest, s.(rejects := s.rejects + {id}))
  {
  }

  lemma FreshKeeps(emitted: Signal -> int, longest: int, s: State, id: nat, signal: Signal, ending: Ending)
    requires OnceOnly(emitted, longest, s)
    requires signal !in s.accepted && emitted(signal) <= s.now <= emitted(signal) + WEEK
    ensures OnceOnly(emitted, longest, Inserted(s, signal))
    ensures OnceOnly(emitted, longest, Answered(HandedOver(Inserted(s, signal), signal), id, ending))
  {
    InsertKeeps(emitted, longest, s, signal);
    HandOverKeeps(emitted, longest, Inserted(s, signal), signal);
    AnswerKeeps(emitted, longest, HandedOver(Inserted(s, signal), signal), id, ending);
  }

  /** A command the worker still takes is younger than the week the table remembers. */
  lemma DeliverKeeps(emitted: Signal -> int, longest: int, s: State, id: nat, sameRevision: bool, ending: Ending)
    requires OnceOnly(emitted, longest, s) && id in s.sent
    requires 0 <= longest && LIFETIME + longest + ENVELOPE_AGE <= WEEK
    ensures OnceOnly(emitted, longest, Delivered(s, id, sameRevision, ending))
  {
    var signal, t := s.sent[id].signal, Delivered(s, id, sameRevision, ending);
    var verdict := Judge(s.accepted, signal, s.sent[id].issuedAt, s.now, sameRevision);
    AnswerKeeps(emitted, longest, s, id, ending);
    if verdict.New? {
      FreshKeeps(emitted, longest, s, id, signal, ending);
      assert t == Inserted(s, signal) || t == Answered(HandedOver(Inserted(s, signal), signal), id, ending);
    } else {
      assert t == Answered(s, id, ending) || t == s.(rejects := s.rejects + {id});
    }
  }

  lemma TimeKeeps(emitted: Signal -> int, longest: int, s: State, t: int)
    requires OnceOnly(emitted, longest, s) && t >= s.now
    ensures OnceOnly(emitted, longest, s.(now := t))
  {
  }

  lemma QueueKeeps(emitted: Signal -> int, longest: int, s: State, signal: Signal)
    requires OnceOnly(emitted, longest, s) && emitted(signal) <= s.now
    ensures OnceOnly(emitted, longest, Apply(s, Queue(signal, emitted(signal))))
  {
  }

  lemma PurgesKeep(emitted: Signal -> int, longest: int, s: State, step: Step)
    requires OnceOnly(emitted, longest, s) && (step.WorkerRestart? || step.Retention?)
    ensures OnceOnly(emitted, longest, Apply(s, step))
  {
  }

  lemma AnswersKeep(emitted: Signal -> int, longest: int, s: State, step: Step)
    requires OnceOnly(emitted, longest, s) && Enabled(s, step)
    requires step.Read? || step.AckArrives? || step.RejectArrives?
    ensures OnceOnly(emitted, longest, Apply(s, step))
  {
  }

  lemma RestKeeps(emitted: Signal -> int, longest: int, s: State, step: Step)
    requires OnceOnly(emitted, longest, s) && Enabled(s, step) && Stamped(emitted, s, step)
    requires !step.Choose? && !step.Save? && !step.Deliver?
    ensures OnceOnly(emitted, longest, Apply(s, step))
  {
    if step.Tick? {
      TimeKeeps(emitted, longest, s, step.t);
    } else if step.Queue? {
      QueueKeeps(emitted, longest, s, step.signal);
    } else if step.WorkerRestart? || step.Retention? {
      PurgesKeep(emitted, longest, s, step);
    } else {
      AnswersKeep(emitted, longest, s, step);
    }
  }

  /** Main result. Through retries, lost and repeated commands and answers, overlapping
      passes, restarts and purges, no signal reaches the engine twice, as long as each
      carries its emission time and a pass cannot outlast what the week leaves over. */
  lemma {:induction false} FiresAtMostOnce(emitted: Signal -> int, longest: int, run: seq<Step>)
    requires 0 <= longest && LIFETIME + longest + ENVELOPE_AGE <= WEEK
    requires Legal(run) && Timely(emitted, longest, run)
    ensures OnceOnly(emitted, longest, After(run))
    ensures forall k :: Number(After(run).fires, k) <= 1
  {
    if run != [] {
      var n := |run| - 1;
      FiresAtMostOnce(emitted, longest, run[..n]);
      var s := After(run[..n]);
      if run[n].Choose? {
        ChooseKeeps(emitted, longest, s, run[n].pass, run[n].id, run[n].connected, run[n].written);
      } else if run[n].Save? {
        SaveKeeps(emitted, longest, s, run[n].choice);
      } else if run[n].Deliver? {
        DeliverKeeps(emitted, longest, s, run[n].id, run[n].sameRevision, run[n].ending);
      } else {
        RestKeeps(emitted, longest, s, run[n]);
      }
    }
  }

  // ----------------------------------------------- an accepted delivery was accepted

  /** The command a row waits for carries that row's signal. */
  ghost predicate CommandsMatch(s: State)
  {
    && (forall k :: k in s.rows && s.rows[k].commandId.Some? ==>
          s.rows[k].commandId.value in s.sent && s.sent[s.rows[k].commandId.value].signal == k)
    && (forall p :: p in s.passes && p.copy.commandId.Some? ==>
          p.copy.commandId.value in s.sent && s.sent[p.copy.commandId.value].signal == p.signal)
    && (forall c :: c in s.choices && c.command.Some? ==>
          c.command.value in s.sent && s.sent[c.command.value].signal == c.pass.signal)
  }

  ghost predicate AnswersAreTrue(s: State)
  {
    && (forall id :: id in s.acks ==> id in s.sent && Number(s.accepts, s.sent[id].signal) > 0)
    && (forall id :: id in s.outcomes && s.outcomes[id] == Completed ==> id in s.acks)
    && (forall k :: k in s.accepted ==> Number(s.accepts, k) > 0)
  }

  ghost predicate StatusIsTrue(s: State)
  {
    && (forall k :: k in s.rows && s.rows[k].status == Accepted ==> Number(s.accepts, k) > 0)
    && (forall c :: c in s.choices && c.decision == Settle(Accepted) ==> Number(s.accepts, c.pass.signal) > 0)
  }

  ghost predicate Honest(s: State) { CommandsMatch(s) && AnswersAreTrue(s) && StatusIsTrue(s) }

  /** The outcome a pass chooses by is an acknowledgement of that row's own command. */
  lemma ChoiceIsTrue(s: State, pass: Pending)
    requires Honest(s) && pass in s.passes
    ensures Decide(pass.copy, pass.at, OutcomeOf(pass.copy, s.outcomes)) == Settle(Accepted)
            ==> Number(s.accepts, pass.signal) > 0
  {
    if pass.copy.commandId.Some? && OutcomeOf(pass.copy, s.outcomes) == Some(Completed) {
      assert pass.copy.commandId.value in s.acks;
    }
  }

  lemma NotingIsHonest(s: State, id: nat, outcome: Outcome)
    requires Honest(s) && outcome != Completed
    ensures Honest(s.(outcomes := s.outcomes[id := outcome]))
  {
  }

  lemma SendingIsHonest(s: State, id: nat, c: Command)
    requires Honest(s) && id !in s.sent
    ensures Honest(s.(sent := s.sent[id := c]))
  {
    var t := s.(sent := s.sent[id := c]);
    assert forall j :: j in s.sent ==> j in t.sent && t.sent[j] == s.sent[j];
    assert CommandsMatch(t) && StatusIsTrue(t);
    assert AnswersAreTrue(t);
  }

  lemma SubmitIsHonest(s: State, id: nat, signal: Signal, outcome: Outcome)
    requires Honest(s) && id !in s.sent && outcome != Completed
    ensures Honest(s.(outcomes := s.outcomes[id := outcome], sent := s.sent[id := Command(signal, s.now)]))
    ensures Honest(s.(outcomes := s.outcomes[id := outcome]))
  {
    NotingIsHonest(s, id, outcome);
    SendingIsHonest(s.(outcomes := s.outcomes[id := outcome]), id, Command(signal, s.now));
  }

  lemma AddChoiceIsHonest(s: State, c: Choice)
    requires Honest(s) && (c.decision == Settle(Accepted) ==> Number(s.accepts, c.pass.signal) > 0)
    requires c.command.Some? ==> c.command.value in s.sent && s.sent[c.command.value].signal == c.pass.signal
    ensures Honest(s.(choices := s.choices + {c}))
  {
  }

  lemma ChooseIsHonest(s: State, pass: Pending, id: nat, connected: bool, written: bool)
    requires Honest(s) && pass in s.passes && id !in s.sent && id !in s.outcomes
    ensures Honest(Chosen(s, pass, id, connected, written))
  {
    var d := Decide(pass.copy, pass.at, OutcomeOf(pass.copy, s.outcomes));
    ChoiceIsTrue(s, pass);
    if !d.Submit? {
      AddChoiceIsHonest(s, Choice(pass, d, None));
    } else {
      var outcome := if connected then Submitted else if written then SendFailed else NotConnected;
      SubmitIsHonest(s, id, pass.signal, outcome);
      var next := s.(outcomes := s.outcomes[id := outcome],
                     sent := if connected || written then s.sent[id := Command(pass.signal, s.now)] else s.sent);
      assert Honest(next);
      AddChoiceIsHonest(next, Choice(pass, d, if connected then Some(id) else None));
    }
  }

  lemma WriteTakes(row: Row, copy: Row, d: Decision, at: int, clock: int, command: Option<nat>)
    ensures
      var next := Write(row, copy, d, at, clock, command);
      && (next.commandId == row.commandId || next.commandId == command)
      && (next.status == Accepted ==> d == Settle(Accepted))
  {
  }

  lemma SaveIsHonest(s: State, c: Choice)
    requires Honest(s) && c in s.choices
    ensures Honest(Saved(s, c))
  {
    var t := Saved(s, c);
    if c.pass.signal in s.rows {
      WriteTakes(s.rows[c.pass.signal], c.pass.copy, c.decision, c.pass.at, s.now, c.command);
    }
    assert t.(rows := s.rows) == s;
    assert forall k :: k in t.rows && k != c.pass.signal ==> t.rows[k] == s.rows[k];
    assert CommandsMatch(t) && AnswersAreTrue(t) && StatusIsTrue(t);
  }

  lemma InsertIsHonest(s: State, signal: Signal)
    requires Honest(s)
    ensures Honest(Inserted(s, signal)) && Number(Inserted(s, signal).accepts, signal) > 0
  {
    var t := Inserted(s, signal);
    assert forall k :: Number(t.accepts, k) >= Number(s.accepts, k);
  }

  lemma AnswerIsHonest(s: State, id: nat, ending: Ending)
    requires Honest(s) && id in s.sent && Number(s.accepts, s.sent[id].signal) > 0
    ensures Honest(Answered(s, id, ending))
  {
  }

  lemma FirstDeliveryIsHonest(s: State, id: nat, signal: Signal, ending: Ending)
    requires Honest(s) && id in s.sent && s.sent[id].signal == signal
    ensures Honest(Inserted(s, signal)) && Honest(Answered(HandedOver(Inserted(s, signal), signal), id, ending))
  {
    InsertIsHonest(s, signal);
    assert Honest(HandedOver(Inserted(s, signal), signal));
    AnswerIsHonest(HandedOver(Inserted(s, signal), signal), id, ending);
  }

  lemma DeliverIsHonest(s: State, id: nat, sameRevision: bool, ending: Ending)
    requires Honest(s) && id in s.sent
    ensures Honest(Delivered(s, id, sameRevision, ending))
  {
    var signal := s.sent[id].signal;
    var verdict := Judge(s.accepted, signal, s.sent[id].issuedAt, s.now, sameRevision);
    if verdict.Known? {
      AnswerIsHonest(s, id, ending);
    } else if verdict.New? {
      FirstDeliveryIsHonest(s, id, signal, ending);
    } else {
      assert Honest(s.(rejects := s.rejects + {id}));
    }
  }

  lemma RestIsHonest(s: State, step: Step)
    requires Honest(s) && Enabled(s, step) && !step.Choose? && !step.Save? && !step.Deliver?
    ensures Honest(Apply(s, step))
  {
  }

  /** A delivery the manager shows as accepted was taken by the worker, on every run, with
      no assumption on clocks or stamps; and unless a crash hit the moment between insert
      and hand-over, the engine got it. */
  lemma {:induction false} AcceptedMeansTaken(run: seq<Step>)
    requires Legal(run)
    ensures Honest(After(run))
    ensures forall k :: k in After(run).rows && After(run).rows[k].status == Accepted
              ==> Number(After(run).accepts, k) > 0
  {
    if run != [] {
      var n := |run| - 1;
      AcceptedMeansTaken(run[..n]);
      var s := After(run[..n]);
      if run[n].Choose? {
        ChooseIsHonest(s, run[n].pass, run[n].id, run[n].connected, run[n].written);
      } else if run[n].Save? {
        SaveIsHonest(s, run[n].choice);
      } else if run[n].Deliver? {
        DeliverIsHonest(s, run[n].id, run[n].sameRevision, run[n].ending);
      } else {
        RestIsHonest(s, run[n]);
      }
    }
  }

  ghost predicate NeverCrashes(run: seq<Step>)
  {
    forall k :: 0 <= k < |run| && run[k].Deliver? ==> run[k].ending != Crashed
  }

  /** Without such a crash every accept is a hand-over, so accepted means fired. */
  lemma {:induction false} EveryAcceptFires(run: seq<Step>)
    requires Legal(run) && NeverCrashes(run)
    ensures FiresEqualAccepts(After(run))
  {
    if run != [] {
      var n := |run| - 1;
      EveryAcceptFires(run[..n]);
      StepFiresAccepts(After(run[..n]), run[n]);
    }
  }

  ghost predicate FiresEqualAccepts(s: State) { forall k :: Number(s.fires, k) == Number(s.accepts, k) }

  lemma HandOverFires(s: State, signal: Signal)
    requires FiresEqualAccepts(s)
    ensures FiresEqualAccepts(HandedOver(Inserted(s, signal), signal))
  {
    var t := HandedOver(Inserted(s, signal), signal);
    forall k ensures Number(t.fires, k) == Number(t.accepts, k) {
      assert Number(s.fires, k) == Number(s.accepts, k);
    }
  }

  lemma DeliverFires(s: State, id: nat, sameRevision: bool, ending: Ending)
    requires FiresEqualAccepts(s) && id in s.sent && ending != Crashed
    ensures FiresEqualAccepts(Delivered(s, id, sameRevision, ending))
  {
    var signal := s.sent[id].signal;
    HandOverFires(s, signal);
    var both := HandedOver(Inserted(s, signal), signal);
    assert Answered(both, id, ending).fires == both.fires && Answered(both, id, ending).accepts == both.accepts;
  }

  lemma StepFiresAccepts(s: State, step: Step)
    requires Enabled(s, step) && (step.Deliver? ==> step.ending != Crashed)
    requires FiresEqualAccepts(s)
    ensures FiresEqualAccepts(Apply(s, step))
  {
    if step.Deliver? {
      DeliverFires(s, step.id, step.sameRevision, step.ending);
    } else {
      assert Apply(s, step).accepts == s.accepts && Apply(s, step).fires == s.fires;
    }
  }

  // ------------------------------------------------------------ what an answer means

  /** What the worker last answered to a command, as far as it arrived. */
  function LastAnswer(run: seq<Step>, id: nat): Option<Outcome>
  {
    if run == [] then None
    else if run[|run| - 1] == AckArrives(id) then Some(Completed)
    else if run[|run| - 1] == RejectArrives(id) then Some(Refused)
    else LastAnswer(run[..|run| - 1], id)
  }

  ghost predicate AnswersCount(s: State, run: seq<Step>)
  {
    && (forall id :: id in s.acks || id in s.rejects || id in s.sent ==> id in s.outcomes)
    && (forall id :: LastAnswer(run, id).Some? ==> id in s.outcomes)
    && (forall id :: id in s.outcomes ==> Matches(s.outcomes[id], LastAnswer(run, id)))
  }

  ghost predicate Matches(outcome: Outcome, answer: Option<Outcome>)
  {
    (outcome == Completed <==> answer == Some(Completed)) && (outcome == Refused <==> answer == Some(Refused))
  }

  lemma AnswerArrives(s: State, run: seq<Step>, step: Step)
    requires AnswersCount(s, run) && Enabled(s, step) && (step.AckArrives? || step.RejectArrives?)
    ensures AnswersCount(Apply(s, step), run + [step])
  {
    var t, longer := Apply(s, step), run + [step];
    assert longer[..|run|] == run && longer[|run|] == step;
    assert step.id in s.outcomes;
    assert forall id :: id != step.id ==> LastAnswer(longer, id) == LastAnswer(run, id);
    assert forall id :: id in t.outcomes && id != step.id ==> t.outcomes[id] == s.outcomes[id];
  }

  lemma SameAnswers(s: State, t: State, run: seq<Step>, step: Step)
    requires AnswersCount(s, run) && !step.AckArrives? && !step.RejectArrives?
    requires s.outcomes.Keys <= t.outcomes.Keys
    requires forall id :: id in t.outcomes ==>
               if id in s.outcomes then t.outcomes[id] == s.outcomes[id]
               else t.outcomes[id] != Completed && t.outcomes[id] != Refused
    requires forall id :: id in t.acks || id in t.rejects || id in t.sent ==> id in t.outcomes
    ensures AnswersCount(t, run + [step])
  {
    var longer := run + [step];
    assert longer[..|run|] == run && longer[|run|] == step;
    assert forall id :: LastAnswer(longer, id) == LastAnswer(run, id);
  }

  lemma ChoosingFrame(s: State, pass: Pending, id: nat, connected: bool, written: bool) returns (o: Outcome)
    ensures o == Submitted || o == SendFailed || o == NotConnected
    ensures
      var t := Chosen(s, pass, id, connected, written);
      && t.acks == s.acks && t.rejects == s.rejects && t.sent.Keys <= s.sent.Keys + {id}
      && ((t.outcomes == s.outcomes && t.sent == s.sent) || t.outcomes == s.outcomes[id := o])
  {
    o := if connected then Submitted else if written then SendFailed else NotConnected;
  }

  lemma ChoosingKeepsAnswers(s: State, run: seq<Step>, step: Step)
    requires AnswersCount(s, run) && Enabled(s, step) && step.Choose?
    ensures AnswersCount(Chosen(s, step.pass, step.id, step.connected, step.written), run + [step])
  {
    var t := Chosen(s, step.pass, step.id, step.connected, step.written);
    var o := ChoosingFrame(s, step.pass, step.id, step.connected, step.written);
    SameAnswers(s, t, run, step);
  }

  lemma NoAnswerArrives(s: State, run: seq<Step>, step: Step)
    requires AnswersCount(s, run) && Enabled(s, step) && !step.AckArrives? && !step.RejectArrives?
    ensures AnswersCount(Apply(s, step), run + [step])
  {
    var t := Apply(s, step);
    if step.Choose? {
      ChoosingKeepsAnswers(s, run, step);
    } else if step.Deliver? {
      DeliveriesAreAnswered(s, step.id, step.sameRevision, step.ending);
      SameAnswers(s, t, run, step);
    } else {
      assert t.outcomes == s.outcomes && t.sent == s.sent && t.acks == s.acks && t.rejects == s.rejects;
      SameAnswers(s, t, run, step);
    }
  }

  /** On every run a command counts as completed or refused exactly when the last answer to
      it that arrived says so. */
  lemma {:induction false} TheLastAnswerCounts(run: seq<Step>)
    requires Legal(run)
    ensures AnswersCount(After(run), run)
  {
    if run != [] {
      var n := |run| - 1;
      TheLastAnswerCounts(run[..n]);
      assert run[..n] + [run[n]] == run;
      if run[n].AckArrives? || run[n].RejectArrives? {
        AnswerArrives(After(run[..n]), run[..n], run[n]);
      } else {
        NoAnswerArrives(After(run[..n]), run[..n], run[n]);
      }
    }
  }

  ghost predicate Takable(s: State, id: nat, sameRevision: bool)
    requires id in s.sent
  {
    s.now - 300_000 <= s.sent[id].issuedAt <= s.now + 60_000 && sameRevision
  }

  lemma RefusedDeliveries(s: State, id: nat, sameRevision: bool, ending: Ending)
    requires id in s.sent && !Takable(s, id, sameRevision)
    ensures Delivered(s, id, sameRevision, ending) == s.(rejects := s.rejects + {id})
  {
  }

  lemma TakenDeliveries(s: State, id: nat, ending: Ending)
    requires id in s.sent && Takable(s, id, true)
    ensures
      var t, signal := Delivered(s, id, true, ending), s.sent[id].signal;
      && t.rejects == s.rejects + (if ending == Raised then {id} else {})
      && t.acks == s.acks + (if ending == Acked then {id} else {})
      && t.accepted == (if signal in s.accepted then s.accepted else s.accepted[signal := s.now])
      && t == s.(rejects := t.rejects, acks := t.acks, accepted := t.accepted, accepts := t.accepts, fires := t.fires)
  {
    var t, signal := Delivered(s, id, true, ending), s.sent[id].signal;
    if signal in s.accepted {
      assert t == Answered(s, id, ending);
    } else if ending == Crashed {
      assert t == Inserted(s, signal);
    } else {
      assert t == Answered(HandedOver(Inserted(s, signal), signal), id, ending);
    }
  }

  /** What the worker does with a delivered command: it takes a signal it does not know from
      a command at most five minutes old, at most one ahead and of its revision; it refuses
      any other command at once, and one whose hand-over failed; it confirms the rest. */
  lemma DeliveriesAreAnswered(s: State, id: nat, sameRevision: bool, ending: Ending)
    requires id in s.sent
    ensures
      var t, signal := Delivered(s, id, sameRevision, ending), s.sent[id].signal;
      && t.rejects == s.rejects + (if !Takable(s, id, sameRevision) || ending == Raised then {id} else {})
      && t.acks == s.acks + (if Takable(s, id, sameRevision) && ending == Acked then {id} else {})
      && t.accepted == (if Takable(s, id, sameRevision) && signal !in s.accepted
                        then s.accepted[signal := s.now] else s.accepted)
      && t == s.(rejects := t.rejects, acks := t.acks, accepted := t.accepted, accepts := t.accepts, fires := t.fires)
  {
    if Takable(s, id, sameRevision) {
      TakenDeliveries(s, id, ending);
    } else {
      RefusedDeliveries(s, id, sameRevision, ending);
    }
  }

  lemma OnlyReadingStartsAPass(s: State, step: Step)
    requires Enabled(s, step)
    ensures forall p :: p in Apply(s, step).passes && p !in s.passes ==>
              && step == Read(p.signal, p.at) && p.signal in s.rows && p.copy == s.rows[p.signal]
              && (p.copy.status == Status.Pending || p.copy.status == Sent) && p.copy.nextAt <= p.at <= s.now
  {
  }

  /** A pass only ever handles a row that was unsettled and due at the pass's time. */
  lemma {:induction false} PassesHandleDueRows(run: seq<Step>)
    requires Legal(run)
    ensures forall p :: p in After(run).passes ==>
              (p.copy.status == Status.Pending || p.copy.status == Sent) && p.copy.nextAt <= p.at
  {
    if run != [] {
      PassesHandleDueRows(run[..|run| - 1]);
      OnlyReadingStartsAPass(After(run[..|run| - 1]), run[|run| - 1]);
    }
  }

  /** What a pass that submits leaves behind: a command on the wire when bytes reached it,
      noted as submitted only if the write went well. */
  lemma SubmissionsAreNoted(s: State, pass: Pending, id: nat, connected: bool, written: bool)
    requires Enabled(s, Choose(pass, id, connected, written))
    requires Decide(pass.copy, pass.at, OutcomeOf(pass.copy, s.outcomes)).Submit?
    ensures
      var t := Apply(s, Choose(pass, id, connected, written));
      && t.outcomes.Keys == s.outcomes.Keys + {id} && t.outcomes - {id} == s.outcomes
      && (t.outcomes[id] == Submitted <==> connected)
      && (t.outcomes[id] == SendFailed <==> !connected && written)
      && (t.outcomes[id] == NotConnected <==> !connected && !written)
      && t.sent == (if connected || written then s.sent[id := Command(pass.signal, s.now)] else s.sent)
      && t.choices == s.choices + {Choice(pass, Submit, if connected then Some(id) else None)}
  {
  }

  /** The manager forgets the settled rows of more than thirty days, the worker the signals
      of more than a week. */
  lemma OnlyTheOldIsForgotten(s: State)
    ensures
      var t := Apply(s, Retention);
      && t == s.(rows := t.rows)
      && (forall k :: k in t.rows <==> k in s.rows && (s.rows[k].status == Status.Pending || s.rows[k].status == Sent
                                                   || s.now - s.rows[k].updatedAt <= 2_592_000_000))
      && forall k :: k in t.rows ==> t.rows[k] == s.rows[k]
    ensures
      var t := Apply(s, WorkerRestart);
      && t == s.(accepted := t.accepted)
      && (forall k :: k in t.accepted <==> k in s.accepted && s.now - s.accepted[k] <= 604_800_000)
      && forall k :: k in t.accepted ==> t.accepted[k] == s.accepted[k]
  {
  }

  // ------------------------------------------------------ what the code does not promise

  lemma Extend(run: seq<Step>, step: Step) returns (longer: seq<Step>)
    requires Legal(run) && Enabled(After(run), step)
    ensures longer == run + [step] && Legal(longer)
    ensures After(longer) == Apply(After(run), step)
  {
    longer := run + [step];
    assert longer[..|run|] == run;
  }

  /** Two passes that overlap can reopen a delivery the other one has expired. */
  lemma OverlappingPassesReopen(signal: Signal) returns (run: seq<Step>, settled: nat)
    ensures Legal(run) && settled < |run| && Legal(run[..settled])
    ensures signal in After(run[..settled]).rows && After(run[..settled]).rows[signal].status == Expired
    ensures signal in After(run).rows && After(run).rows[signal].status == Sent
  {
    run := ReadTwice(signal);
    var row := Queued(0, LIFETIME);
    var early, late := Pending.Pending(signal, row, LIFETIME - 1), Pending.Pending(signal, row, LIFETIME);
    run := Extend(run, Choose(early, 0, true, true));
    run := Extend(run, Choose(late, 1, true, true));
    run := Extend(run, Save(Choice(late, Expire, None)));
    settled := |run|;
    var before := run;
    run := Extend(run, Save(Choice(early, Submit, Some(0))));
    assert run[..settled] == before;
  }

  /** One pass reads the row a millisecond before its expiry, another one at the expiry. */
  lemma ReadTwice(signal: Signal) returns (run: seq<Step>)
    ensures Legal(run)
    ensures
      var s, row := After(run), Queued(0, LIFETIME);
      && s.now == LIFETIME && s.rows == map[signal := row] && s.outcomes == map[] && s.sent == map[] && s.choices == {}
      && s.passes == {Pending.Pending(signal, row, LIFETIME - 1), Pending.Pending(signal, row, LIFETIME)}
  {
    run := Extend([], Queue(signal, 0));
    run := Extend(run, Tick(LIFETIME - 1));
    run := Extend(run, Read(signal, LIFETIME - 1));
    run := Extend(run, Tick(LIFETIME));
    run := Extend(run, Read(signal, LIFETIME));
  }

  ghost predicate StampedByTheClock(run: seq<Step>)
    requires Legal(run)
  {
    run == [] || (
      && StampedByTheClock(run[..|run| - 1])
      && (run[|run| - 1].Queue? ==> run[|run| - 1].referenceMs == After(run[..|run| - 1]).now))
  }

  lemma ExtendByTheClock(run: seq<Step>, step: Step) returns (longer: seq<Step>)
    requires Legal(run) && Enabled(After(run), step) && StampedByTheClock(run)
    requires step.Queue? ==> step.referenceMs == After(run).now
    ensures longer == run + [step] && Legal(longer) && StampedByTheClock(longer)
    ensures After(longer) == Apply(After(run), step)
  {
    longer := Extend(run, step);
    assert longer[..|run|] == run;
  }

  /** Emission times are needed: a signal without one is stamped with the clock each time it
      is routed, and fires again once both tables have forgotten it. */
  lemma UnstampedSignalsFireTwice(signal: Signal) returns (run: seq<Step>)
    ensures Legal(run) && StampedByTheClock(run)
    ensures Number(After(run).fires, signal) == 2
  {
    run := BothTablesForget(signal);
    var later := MONTH + 2000;
    var pass := Pending.Pending(signal, Queued(later, later + LIFETIME), later);
    run := ExtendByTheClock(run, Queue(signal, later));
    run := ExtendByTheClock(run, Read(signal, later));
    run := ExtendByTheClock(run, Choose(pass, 1, true, true));
    run := ExtendByTheClock(run, Deliver(1, true, Acked));
  }

  lemma BothTablesForget(signal: Signal) returns (run: seq<Step>)
    ensures Legal(run) && StampedByTheClock(run)
    ensures
      var s := After(run);
      && s.now == MONTH + 2000 && s.rows == map[] && s.accepted == map[] && Number(s.fires, signal) == 1
      && 1 !in s.sent && 1 !in s.outcomes
  {
    run := FirstLife(signal);
    var later := MONTH + 2000;
    run := ExtendByTheClock(run, Tick(later));
    run := ExtendByTheClock(run, Retention);
    run := ExtendByTheClock(run, WorkerRestart);
  }

  /** Queued, sent, taken, acknowledged and settled within a second. */
  lemma FirstLife(signal: Signal) returns (run: seq<Step>)
    ensures Legal(run) && StampedByTheClock(run)
    ensures
      var s := After(run);
      && s.now == SECOND && s.rows == map[signal := Row(Accepted, Some(0), 1, SECOND, LIFETIME, SECOND)]
      && s.accepted == map[signal := 0] && Number(s.fires, signal) == 1
      && 1 !in s.sent && 1 !in s.outcomes
  {
    run := ReadAgain(signal);
    run := ExtendByTheClock(run, Choose(SecondPass(signal), 1, true, true));
    run := ExtendByTheClock(run, Save(Choice(SecondPass(signal), Settle(Accepted), None)));
  }

  function SecondPass(signal: Signal): Pending
  {
    Pending.Pending(signal, Row(Sent, Some(0), 1, SECOND, LIFETIME, 0), SECOND)
  }

  lemma ReadAgain(signal: Signal) returns (run: seq<Step>)
    ensures Legal(run) && StampedByTheClock(run)
    ensures
      var s := After(run);
      && s.now == SECOND && s.rows == map[signal := Row(Sent, Some(0), 1, SECOND, LIFETIME, 0)]
      && s.outcomes == map[0 := Completed] && s.sent == map[0 := Command(signal, 0)]
      && s.accepted == map[signal := 0] && Number(s.fires, signal) == 1 && SecondPass(signal) in s.passes
  {
    run := TakenAndAcknowledged(signal);
    run := ExtendByTheClock(run, Tick(SECOND));
    run := ExtendByTheClock(run, Read(signal, SECOND));
  }

  lemma TakenAndAcknowledged(signal: Signal) returns (run: seq<Step>)
    ensures Legal(run) && StampedByTheClock(run)
    ensures
      var s := After(run);
      && s.now == 0 && s.rows == map[signal := Row(Sent, Some(0), 1, SECOND, LIFETIME, 0)]
      && s.outcomes == map[0 := Completed] && s.sent == map[0 := Command(signal, 0)]
      && s.accepted == map[signal := 0] && Number(s.fires, signal) == 1
  {
    run := SentOnce(signal);
    run := ExtendByTheClock(run, Deliver(0, true, Acked));
    run := ExtendByTheClock(run, AckArrives(0));
  }

  lemma SentOnce(signal: Signal) returns (run: seq<Step>)
    ensures Legal(run) && StampedByTheClock(run)
    ensures
      var s := After(run);
      && s.now == 0 && s.rows == map[signal := Row(Sent, Some(0), 1, SECOND, LIFETIME, 0)]
      && s.outcomes == map[0 := Submitted] && s.sent == map[0 := Command(signal, 0)]
      && s.accepted == map[] && s.fires == map[]
  {
    run := [];
    var pass := Pending.Pending(signal, Queued(0, LIFETIME), 0);
    assert Delay(1) == SECOND;
    run := ExtendByTheClock(run, Queue(signal, 0));
    run := ExtendByTheClock(run, Read(signal, 0));
    run := ExtendByTheClock(run, Choose(pass, 0, true, true));
    run := ExtendByTheClock(run, Save(Choice(pass, Submit, Some(0))));
    assert After(run).rows == map[signal := Row(Sent, Some(0), 1, SECOND, LIFETIME, 0)];
  }
}
