/** Execution events on their way up: the worker's durable outbox with replay, the wire, the
    manager's check, forward, record and acknowledge, handlers that die half way, and age
    purges on both sides. Each database or network action of a handler is one transition. */
module EventOutbox {
  import opened Sums
  import opened Tally

  const WEEK := 604_800_000
  const MONTH := 2_592_000_000

  type Event = string

  /** Where a handler of one arrived event stands; known is what the lookup said. */
  datatype Phase = Checked(known: bool) | Forwarded | Recorded

  datatype Handler = Handler(e: Event, phase: Phase)

  /** forwards counts the gateway's confirmations and relearned the records made on a lookup
      older than a purge; forgotten, lost and doubled count what became of some. */
  datatype State = State(
    now: int,
    emitted: map<Event, int>,
    outbox: map<Event, int>,
    wire: set<Event>,
    handlers: map<nat, Handler>,
    processed: map<Event, int>,
    acks: set<Event>,
    forwards: multiset<Event>,
    relearned: multiset<Event>,
    forgotten: multiset<Event>,
    lost: multiset<Event>,
    doubled: multiset<Event>)

  datatype Step =
    | Tick(t: int)
    | Emit(e: Event)
    | Send(e: Event)
    | Check(h: nat, e: Event)
    | Forward(h: nat, confirmed: bool)
    | Record(h: nat)
    | Acknowledge(h: nat)
    | HandlerDies(h: nat)
    | AckArrives(e: Event)
    | WorkerRestart
    | Retention

  predicate At(s: State, h: nat, phase: Phase) { h in s.handlers && s.handlers[h].phase == phase }

  predicate Enabled(s: State, step: Step)
  {
    match step
    case Tick(t) => t >= s.now
    case Emit(e) => e !in s.emitted
    case Send(e) => e in s.outbox
    case Check(h, e) => e in s.wire && h !in s.handlers
    case Forward(h, _) => At(s, h, Checked(false))
    case Record(h) => At(s, h, Checked(true)) || At(s, h, Forwarded)
    case Acknowledge(h) => At(s, h, Recorded)
    case HandlerDies(h) => h in s.handlers
    case AckArrives(e) => e in s.acks
    case WorkerRestart => true
    case Retention => true
  }

  function Since(m: map<Event, int>, cutoff: int): map<Event, int>
  {
    map e | e in m && m[e] >= cutoff :: m[e]
  }

  function Before(m: map<Event, int>, cutoff: int): set<Event>
  {
    set e | e in m && m[e] < cutoff
  }

  function Plus(m: multiset<Event>, e: Event, grow: bool): multiset<Event>
  {
    if grow then m + multiset{e} else m
  }

  /** The record is an insert that an existing row ignores. */
  function AfterRecord(s: State, h: nat): State
    requires h in s.handlers
  {
    var e, known := s.handlers[h].e, s.handlers[h].phase == Checked(true);
    s.(handlers := s.handlers[h := Handler(e, Recorded)],
       processed := if e in s.processed then s.processed else s.processed[e := s.now],
       relearned := Plus(s.relearned, e, known && e !in s.processed),
       doubled := Plus(s.doubled, e, !known && e in s.processed))
  }

  function Apply(s: State, step: Step): State
    requires Enabled(s, step)
  {
    match step
    case Tick(t) => s.(now := t)
    case Emit(e) => s.(emitted := s.emitted[e := s.now], outbox := s.outbox[e := s.now])
    case Send(e) => s.(wire := s.wire + {e})
    case Check(h, e) => s.(handlers := s.handlers[h := Handler(e, Checked(e in s.processed))])
    case Forward(h, confirmed) =>
      var e := s.handlers[h].e;
      if confirmed
      then s.(handlers := s.handlers[h := Handler(e, Forwarded)], forwards := Plus(s.forwards, e, true))
      else s.(handlers := s.handlers - {h})
    case Record(h) => AfterRecord(s, h)
    case Acknowledge(h) => s.(handlers := s.handlers - {h}, acks := s.acks + {s.handlers[h].e})
    case HandlerDies(h) =>
      s.(handlers := s.handlers - {h}, lost := Plus(s.lost, s.handlers[h].e, s.handlers[h].phase == Forwarded))
    case AckArrives(e) => s.(outbox := s.outbox - {e})
    case WorkerRestart => s.(outbox := Since(s.outbox, s.now - WEEK))
    case Retention =>
      s.(processed := Since(s.processed, s.now - MONTH),
         forgotten := s.forgotten + multiset(Before(s.processed, s.now - MONTH)))
  }

  predicate IsHandling(step: Step)
  {
    step.Check? || step.Forward? || step.Record? || step.Acknowledge? || step.HandlerDies?
  }

  const INITIAL := State(0, map[], map[], {}, map[], map[], {},
                         multiset{}, multiset{}, multiset{}, multiset{}, multiset{})

  ghost predicate Legal(run: seq<Step>)
    decreases |run|, 0
  {
    run == [] || (Legal(run[..|run| - 1]) && Enabled(After(run[..|run| - 1]), run[|run| - 1]))
  }

  ghost function After(run: seq<Step>): State
    requires Legal(run)
    decreases |run|, 1
  {
    if run == [] then INITIAL else Apply(After(run[..|run| - 1]), run[|run| - 1])
  }

  // ------------------------------------------------------------------ nothing is lost

  ghost predicate TimesAreTrue(s: State)
  {
    && (forall e :: e in s.emitted ==> s.emitted[e] <= s.now)
    && (forall e :: e in s.outbox ==> e in s.emitted && s.outbox[e] == s.emitted[e])
    && (forall e :: e in s.processed ==> e in s.emitted && s.emitted[e] <= s.processed[e])
  }

  ghost predicate AllEmitted(s: State)
  {
    && (forall e :: e in s.wire || e in s.acks ==> e in s.emitted)
    && (forall h :: h in s.handlers ==> s.handlers[h].e in s.emitted)
  }

  /** Known to the manager now, or too old for it to still know. */
  ghost predicate Settled(s: State, e: Event)
  {
    e in s.processed || (e in s.emitted && s.now > s.emitted[e] + MONTH)
  }

  ghost predicate AnswersAreSettled(s: State)
  {
    && (forall e :: e in s.acks ==> Settled(s, e))
    && (forall h :: h in s.handlers && s.handlers[h].phase in {Checked(true), Recorded} ==> Settled(s, s.handlers[h].e))
  }

  ghost predicate NothingLost(s: State)
  {
    forall e :: e in s.emitted ==> e in s.outbox || e in s.processed || s.now > s.emitted[e] + WEEK
  }

  ghost predicate Safe(s: State) { TimesAreTrue(s) && AllEmitted(s) && AnswersAreSettled(s) && NothingLost(s) }

  lemma TimesKept(s: State, step: Step)
    requires TimesAreTrue(s) && AllEmitted(s) && Enabled(s, step)
    ensures TimesAreTrue(Apply(s, step))
  {
  }

  lemma EmittedKept(s: State, step: Step)
    requires TimesAreTrue(s) && AllEmitted(s) && Enabled(s, step)
    ensures AllEmitted(Apply(s, step))
  {
  }

  lemma SettledStays(s: State, step: Step, e: Event)
    requires TimesAreTrue(s) && AllEmitted(s) && Enabled(s, step) && Settled(s, e)
    ensures Settled(Apply(s, step), e)
  {
  }

  lemma AnswersKept(s: State, step: Step)
    requires TimesAreTrue(s) && AllEmitted(s) && AnswersAreSettled(s) && Enabled(s, step)
    ensures AnswersAreSettled(Apply(s, step))
  {
    var t := Apply(s, step);
    forall e | Settled(s, e) ensures Settled(t, e) {
      SettledStays(s, step, e);
    }
  }

  lemma LossKept(s: State, step: Step)
    requires Safe(s) && Enabled(s, step)
    ensures NothingLost(Apply(s, step))
  {
  }

  /** No event is lost: on every run, each emitted event is in the worker's outbox, or
      recorded by the manager, or older than the week the outbox keeps it. */
  lemma {:induction false} NoEventIsLost(run: seq<Step>)
    requires Legal(run)
    ensures Safe(After(run))
    ensures forall e :: e in After(run).emitted ==>
              (e in After(run).outbox || e in After(run).processed || After(run).now > After(run).emitted[e] + WEEK)
  {
    if run != [] {
      var s, step := After(run[..|run| - 1]), run[|run| - 1];
      NoEventIsLost(run[..|run| - 1]);
      TimesKept(s, step);
      EmittedKept(s, step);
      AnswersKept(s, step);
      LossKept(s, step);
    }
  }

  /** Once a handler acknowledges, the answer can arrive and takes that one event out of the
      outbox; a restart takes out what is more than a week old, a purge of the manager's
      table what is more than thirty days old, and neither anything else. */
  lemma EventsLeaveByAnAnswerOrByAge(s: State, h: nat)
    ensures Enabled(s, Acknowledge(h)) ==>
              var t, e := Apply(s, Acknowledge(h)), s.handlers[h].e;
              && Enabled(t, AckArrives(e)) && t == s.(handlers := s.handlers - {h}, acks := t.acks)
              && Apply(t, AckArrives(e)) == t.(outbox := s.outbox - {e})
    ensures Enabled(s, WorkerRestart) && Enabled(s, Retention)
    ensures
      var t := Apply(s, WorkerRestart);
      && t == s.(outbox := t.outbox)
      && t.outbox == s.outbox - (set e | e in s.outbox && s.now - s.outbox[e] > 604_800_000)
    ensures
      var t := Apply(s, Retention);
      && t == s.(processed := t.processed, forgotten := t.forgotten)
      && t.processed == s.processed - (set e | e in s.processed && s.now - s.processed[e] > 2_592_000_000)
  {
  }

  /** A handler whose forward is not confirmed ends there, and leaves nothing behind. */
  lemma UnconfirmedForwardsLeaveNoTrace(s: State, h: nat, e: Event)
    requires Enabled(s, Check(h, e)) && e !in s.processed
    ensures
      var t := Apply(s, Check(h, e));
      Enabled(t, Forward(h, false)) && Apply(t, Forward(h, false)) == s
  {
    assert Apply(Apply(s, Check(h, e)), Forward(h, false)).handlers == s.handlers;
  }

  // ------------------------------------------------------- only confirmed events

  /** Only a confirmed event is recorded or acknowledged, or leaves the outbox while young. */
  ghost predicate OnlyConfirmed(s: State)
  {
    && (forall e :: e in s.processed || e in s.acks ==> s.forwards[e] > 0)
    && (forall h :: h in s.handlers && s.handlers[h].phase != Checked(false) ==> s.forwards[s.handlers[h].e] > 0)
    && (forall e :: e in s.emitted && e !in s.outbox && s.now <= s.emitted[e] + WEEK ==> s.forwards[e] > 0)
  }

  lemma ForwardsGrow(s: State, step: Step, e: Event)
    requires Enabled(s, step)
    ensures Apply(s, step).forwards[e]
         == s.forwards[e] + Bit(step.Forward? && step.confirmed && s.handlers[step.h].e == e)
  {
  }

  lemma ForwardConfirms(s: State, h: nat, confirmed: bool)
    requires OnlyConfirmed(s) && Enabled(s, Forward(h, confirmed))
    ensures OnlyConfirmed(Apply(s, Forward(h, confirmed)))
  {
    forall e ensures Apply(s, Forward(h, confirmed)).forwards[e] >= s.forwards[e] {
      ForwardsGrow(s, Forward(h, confirmed), e);
    }
    ForwardsGrow(s, Forward(h, confirmed), s.handlers[h].e);
  }

  lemma RecordConfirms(s: State, h: nat)
    requires OnlyConfirmed(s) && Enabled(s, Record(h))
    ensures OnlyConfirmed(Apply(s, Record(h)))
  {
  }

  lemma LeavingConfirms(s: State, step: Step)
    requires OnlyConfirmed(s) && Enabled(s, step) && (step.Check? || step.Acknowledge? || step.HandlerDies?)
    ensures OnlyConfirmed(Apply(s, step))
  {
  }

  lemma OthersConfirm(s: State, step: Step)
    requires OnlyConfirmed(s) && TimesAreTrue(s) && Enabled(s, step) && !IsHandling(step)
    ensures OnlyConfirmed(Apply(s, step))
  {
  }

  lemma StepConfirms(s: State, step: Step)
    requires OnlyConfirmed(s) && TimesAreTrue(s) && Enabled(s, step)
    ensures OnlyConfirmed(Apply(s, step))
  {
    if step.Forward? {
      ForwardConfirms(s, step.h, step.confirmed);
    } else if step.Record? {
      RecordConfirms(s, step.h);
    } else if IsHandling(step) {
      LeavingConfirms(s, step);
    } else {
      OthersConfirm(s, step);
    }
  }

  /** The manager records, and the worker deletes, only what the gateway confirmed. */
  lemma {:induction false} RecordedMeansConfirmed(run: seq<Step>)
    requires Legal(run)
    ensures OnlyConfirmed(After(run))
  {
    if run != [] {
      RecordedMeansConfirmed(run[..|run| - 1]);
      NoEventIsLost(run[..|run| - 1]);
      StepConfirms(After(run[..|run| - 1]), run[|run| - 1]);
    }
  }

  // ------------------------------------------------ how often an event is forwarded

  function Bit(b: bool): nat { if b then 1 else 0 }

  ghost function Awaiting(e: Event): Handler -> bool { h => h == Handler(e, Forwarded) }

  /** Every confirmation is accounted for: by the record, a record since forgotten, a
      handler about to record, one that died before it could, or a second confirmation. */
  ghost predicate Accounted(s: State, e: Event)
  {
    s.forwards[e] + s.relearned[e]
    == Bit(e in s.processed) + s.forgotten[e] + HowMany(s.handlers, Awaiting(e)) + s.lost[e] + s.doubled[e]
  }

  lemma CheckAccounts(s: State, h: nat, x: Event, e: Event)
    requires Accounted(s, e) && Enabled(s, Check(h, x))
    ensures Accounted(Apply(s, Check(h, x)), e)
  {
    HowManyPut(s.handlers, h, Handler(x, Checked(x in s.processed)), Awaiting(e));
  }

  lemma ForwardAccounts(s: State, h: nat, confirmed: bool, e: Event)
    requires Accounted(s, e) && Enabled(s, Forward(h, confirmed))
    ensures Accounted(Apply(s, Forward(h, confirmed)), e)
  {
    HowManyPut(s.handlers, h, Handler(s.handlers[h].e, Forwarded), Awaiting(e));
    HowManyDrop(s.handlers, h, Awaiting(e));
  }

  lemma RecordAccounts(s: State, h: nat, e: Event)
    requires Accounted(s, e) && Enabled(s, Record(h))
    ensures Accounted(Apply(s, Record(h)), e)
  {
    HowManyPut(s.handlers, h, Handler(s.handlers[h].e, Recorded), Awaiting(e));
  }

  lemma LeavingAccounts(s: State, step: Step, e: Event)
    requires Accounted(s, e) && Enabled(s, step) && (step.Acknowledge? || step.HandlerDies?)
    ensures Accounted(Apply(s, step), e)
  {
    HowManyDrop(s.handlers, step.h, Awaiting(e));
  }

  lemma RetentionAccounts(s: State, e: Event)
    requires Accounted(s, e)
    ensures Accounted(Apply(s, Retention), e)
  {
  }

  lemma OthersAccount(s: State, step: Step, e: Event)
    requires Accounted(s, e) && Enabled(s, step) && !IsHandling(step) && !step.Retention?
    ensures Accounted(Apply(s, step), e)
  {
  }

  lemma StepAccounts(s: State, step: Step, e: Event)
    requires Accounted(s, e) && Enabled(s, step)
    ensures Accounted(Apply(s, step), e)
  {
    match step
    case Check(h, x) => CheckAccounts(s, h, x, e);
    case Forward(h, confirmed) => ForwardAccounts(s, h, confirmed, e);
    case Record(h) => RecordAccounts(s, h, e);
    case Acknowledge(_) => LeavingAccounts(s, step, e);
    case HandlerDies(_) => LeavingAccounts(s, step, e);
    case Retention => RetentionAccounts(s, e);
    case _ => OthersAccount(s, step, e);
  }

  /** The exact count, on every run and for every event. */
  lemma {:induction false} ForwardsAreAccountedFor(run: seq<Step>, e: Event)
    requires Legal(run)
    ensures Accounted(After(run), e)
  {
    if run == [] {
      assert Where(INITIAL.handlers, Awaiting(e)) == {};
    } else {
      ForwardsAreAccountedFor(run[..|run| - 1], e);
      StepAccounts(After(run[..|run| - 1]), run[|run| - 1], e);
    }
  }

  // ----------------------------------------------------------------- one at a time

  /** A handler starts only when none is under way. */
  ghost predicate OneHandler(run: seq<Step>)
    requires Legal(run)
  {
    run == [] || (
      && OneHandler(run[..|run| - 1])
      && (run[|run| - 1].Check? ==> After(run[..|run| - 1]).handlers == map[]))
  }

  /** One handler at most; what it forwards is not recorded yet, so nothing doubles. */
  ghost predicate Serial(s: State)
  {
    && (forall g, h :: g in s.handlers && h in s.handlers ==> g == h)
    && (forall h :: h in s.handlers && s.handlers[h].phase in {Checked(false), Forwarded} ==>
          s.handlers[h].e !in s.processed)
    && s.doubled == multiset{}
  }

  lemma CheckIsSerial(s: State, h: nat, e: Event)
    requires Serial(s) && Enabled(s, Check(h, e)) && s.handlers == map[]
    ensures Serial(Apply(s, Check(h, e)))
  {
  }

  lemma ForwardIsSerial(s: State, h: nat, confirmed: bool)
    requires Serial(s) && Enabled(s, Forward(h, confirmed))
    ensures Serial(Apply(s, Forward(h, confirmed)))
  {
  }

  lemma RecordIsSerial(s: State, h: nat)
    requires Serial(s) && Enabled(s, Record(h))
    ensures Serial(Apply(s, Record(h)))
  {
  }

  lemma LeavingIsSerial(s: State, step: Step)
    requires Serial(s) && Enabled(s, step) && (step.Acknowledge? || step.HandlerDies?)
    ensures Serial(Apply(s, step))
  {
  }

  lemma OthersKeepHandlers(s: State, step: Step)
    requires Enabled(s, step) && !IsHandling(step)
    ensures
      var t := Apply(s, step);
      t.handlers == s.handlers && t.doubled == s.doubled && t.processed.Keys <= s.processed.Keys
  {
  }

  lemma StepIsSerial(s: State, step: Step)
    requires Serial(s) && Enabled(s, step) && (step.Check? ==> s.handlers == map[])
    ensures Serial(Apply(s, step))
  {
    match step
    case Check(h, e) => CheckIsSerial(s, h, e);
    case Forward(h, confirmed) => ForwardIsSerial(s, h, confirmed);
    case Record(h) => RecordIsSerial(s, h);
    case Acknowledge(_) => LeavingIsSerial(s, step);
    case HandlerDies(_) => LeavingIsSerial(s, step);
    case _ => OthersKeepHandlers(s, step);
  }

  lemma {:induction false} AlwaysSerial(run: seq<Step>)
    requires Legal(run) && OneHandler(run)
    ensures Serial(After(run))
  {
    if run != [] {
      AlwaysSerial(run[..|run| - 1]);
      StepIsSerial(After(run[..|run| - 1]), run[|run| - 1]);
    }
  }

  lemma SerialAwaitsAtMostOne(s: State, e: Event)
    requires Serial(s)
    ensures HowMany(s.handlers, Awaiting(e)) <= Bit(e !in s.processed)
  {
    var waiting := Where(s.handlers, Awaiting(e));
    if waiting != {} {
      var h :| h in waiting;
      assert waiting == {h};
    }
  }

  /** With one handler at a time a second confirmation needs one that died between the
      forward and the record, or a record that was purged while the outbox still held on. */
  lemma {:induction false} ForwardedOnceUnlessLostOrForgotten(run: seq<Step>, e: Event)
    requires Legal(run) && OneHandler(run)
    ensures After(run).forwards[e] <= 1 + After(run).lost[e] + After(run).forgotten[e]
  {
    ForwardsAreAccountedFor(run, e);
    AlwaysSerial(run);
    SerialAwaitsAtMostOne(After(run), e);
  }

  lemma Extend(run: seq<Step>, step: Step) returns (longer: seq<Step>)
    requires Legal(run) && Enabled(After(run), step)
    ensures longer == run + [step] && Legal(longer) && After(longer) == Apply(After(run), step)
  {
    longer := run + [step];
    assert longer[..|run|] == run;
  }

  /** Handlers that overlap, as when a worker reconnects, confirm an event twice with
      nothing lost and nothing purged. */
  lemma OverlappingHandlersForwardTwice(e: Event) returns (run: seq<Step>)
    ensures Legal(run)
    ensures After(run).forwards[e] == 2 && After(run).lost[e] == 0 && After(run).forgotten[e] == 0
  {
    run := Extend([], Emit(e));
    run := Extend(run, Send(e));
    run := Extend(run, Check(0, e));
    run := Extend(run, Check(1, e));
    run := Extend(run, Forward(0, true));
    run := Extend(run, Forward(1, true));
  }

  /** One handler at a time is not enough either: an event whose acknowledgements never
      arrive outlives the manager's memory of it. */
  lemma ForgottenEventsForwardTwice(e: Event) returns (run: seq<Step>)
    ensures Legal(run) && OneHandler(run)
    ensures After(run).forwards[e] == 2 && After(run).lost[e] == 0 && After(run).doubled[e] == 0
  {
    run := HandledOnce(e);
    run := ExtendSerially(run, Tick(MONTH + 1));
    run := ExtendSerially(run, Retention);
    run := ExtendSerially(run, Check(0, e));
    run := ExtendSerially(run, Forward(0, true));
  }

  lemma ExtendSerially(run: seq<Step>, step: Step) returns (longer: seq<Step>)
    requires Legal(run) && OneHandler(run) && Enabled(After(run), step)
    requires step.Check? ==> After(run).handlers == map[]
    ensures longer == run + [step] && Legal(longer) && OneHandler(longer) && After(longer) == Apply(After(run), step)
  {
    longer := Extend(run, step);
    assert longer[..|run|] == run;
  }

  lemma HandledOnce(e: Event) returns (run: seq<Step>)
    ensures Legal(run) && OneHandler(run)
    ensures
      var s := After(run);
      && s.now == 0 && s.handlers == map[] && s.processed == map[e := 0] && e in s.wire
      && s.forwards == multiset{e} && s.lost == multiset{} && s.doubled == multiset{}
  {
    run := CheckedOnce(e);
    run := ExtendSerially(run, Forward(0, true));
    run := ExtendSerially(run, Record(0));
    run := ExtendSerially(run, Acknowledge(0));
  }

  lemma CheckedOnce(e: Event) returns (run: seq<Step>)
    ensures Legal(run) && OneHandler(run)
    ensures
      var s := After(run);
      && s.now == 0 && s.handlers == map[0 := Handler(e, Checked(false))] && s.processed == map[] && e in s.wire
      && s.forwards == multiset{} && s.lost == multiset{} && s.doubled == multiset{}
  {
    run := ExtendSerially([], Emit(e));
    run := ExtendSerially(run, Send(e));
    run := ExtendSerially(run, Check(0, e));
  }
}
