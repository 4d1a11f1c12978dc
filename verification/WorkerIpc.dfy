/** The two ends of the worker connection: the client with its outbox and dedupe tables,
    and the hub that checks sequences, forwards, records and acknowledges. */
module WorkerIpc {
  import opened Sums
  import opened Listings
  import opened SignalDelivery

  datatype Kind = Hello | Control | Execution | CommandAck(command: nat) | CommandRejected(command: nat)

  datatype Envelope = Envelope(id: string, engine: string, revision: int, sequence: int, kind: Kind, occurredAt: int)

  /** A signal command; the payload names no signal when it fails validation or parsing. */
  datatype Command = Command(id: nat, engine: string, revision: int, signal: Option<string>, issuedAt: int)

  class WorkerEventClient {
    const engine: string
    const revision: int
    var sequence: int
    var connected: bool
    var outbox: map<string, Envelope>
    var accepted: map<string, int>

    /** A restart forgets the sequence but keeps the two tables, less what is a week old. */
    constructor (engine: string, revision: int, now: int, outbox: map<string, Envelope>, accepted: map<string, int>)
      ensures this.engine == engine && this.revision == revision && sequence == 0 && !connected
      ensures this.outbox == map k | k in outbox && outbox[k].occurredAt >= now - WEEK :: outbox[k]
      ensures this.accepted == map k | k in accepted && accepted[k] >= now - WEEK :: accepted[k]
    {
      this.engine, this.revision, sequence, connected := engine, revision, 0, false;
      this.outbox := map k | k in outbox && outbox[k].occurredAt >= now - WEEK :: outbox[k];
      this.accepted := map k | k in accepted && accepted[k] >= now - WEEK :: accepted[k];
    }

    /** An execution event is stored before it is sent; a control event is only sent. */
    method Emit(kind: Kind, id: string, now: int) returns (wire: seq<Envelope>)
      modifies this`sequence, this`outbox
      ensures sequence == old(sequence) + 1
      ensures
        var e := Envelope(id, engine, revision, sequence, kind, now);
        && wire == (if connected then [e] else [])
        && outbox == if kind == Execution && id !in old(outbox) then old(outbox)[id := e] else old(outbox)
    {
      sequence := sequence + 1;
      var e := Envelope(id, engine, revision, sequence, kind, now);
      if kind == Execution && id !in outbox {
        outbox := outbox[id := e];
      }
      wire := if connected then [e] else [];
    }

    /** Every stored event goes out again, once, the oldest first, and stays stored. */
    method ReplayOutbox() returns (wire: seq<Envelope>, rows: seq<string>)
      ensures IsListing(rows, outbox.Keys) && Ascending(rows, StoredAt(outbox))
      ensures |wire| == (if connected then |rows| else 0) && forall k :: 0 <= k < |wire| ==> wire[k] == outbox[rows[k]]
    {
      rows := SortedKeys(StoredAt(outbox));
      assert StoredAt(outbox).Keys == outbox.Keys;
      wire := [];
      for i := 0 to |rows|
        invariant |wire| == if connected then i else 0
        invariant forall k :: 0 <= k < |wire| ==> wire[k] == outbox[rows[k]]
      {
        if connected {
          wire := wire + [outbox[rows[i]]];
        }
      }
    }

    method AckEvent(id: string)
      modifies this`outbox
      ensures outbox == old(outbox) - {id}
    {
      outbox := outbox - {id};
    }

    method AcceptSignal(signal: string, now: int) returns (taken: bool)
      modifies this`accepted
      ensures taken <==> signal !in old(accepted)
      ensures accepted == if taken then old(accepted)[signal := now] else old(accepted)
    {
      taken := signal !in accepted;
      if taken {
        accepted := accepted[signal := now];
      }
    }

    /** A signal command: ignored when it is for another engine; else validated,
        deduplicated, handed over at most once and answered either way. raises: the
        hand-over to the engine throws. */
    method HandleSignalDeliver(c: Command, now: int, raises: bool, id: string)
      returns (fired: bool, wire: seq<Envelope>)
      modifies this`accepted, this`sequence, this`outbox
      ensures c.engine != engine ==>
                !fired && wire == [] && accepted == old(accepted) && sequence == old(sequence)
      ensures c.engine == engine ==>
        var verdict := VerdictOn(c, old(accepted), now, revision);
        && (fired <==> verdict == New)
        && accepted == (if fired then old(accepted)[c.signal.value := now] else old(accepted))
        && sequence == old(sequence) + 1
        && wire == (if !connected then []
                    else [Envelope(id, engine, revision, sequence,
                                   if verdict == Refuse || (fired && raises)
                                   then CommandRejected(c.id) else CommandAck(c.id),
                                   now)])
      // a command is handed over exactly when it is in time, of this revision and new
      ensures fired <==> && c.engine == engine && InTime(c.issuedAt, now) && c.revision == revision
                         && c.signal.Some? && c.signal.value !in old(accepted)
      ensures outbox == old(outbox)
    {
      fired, wire := false, [];
      if c.engine != engine {
        return;
      }
      var failed := Stale(c.issuedAt, now) || c.revision != revision || c.signal.None?;
      if !failed {
        fired := AcceptSignal(c.signal.value, now);
        failed := fired && raises;
      }
      wire := Emit(if failed then CommandRejected(c.id) else CommandAck(c.id), id, now);
    }
  }

  /** At most five minutes old and at most one minute ahead. */
  ghost predicate InTime(at: int, now: int) { now - 300_000 <= at <= now + 60_000 }

  function VerdictOn(c: Command, accepted: map<string, int>, now: int, revision: int): Verdict
  {
    if c.signal.None? then Refuse else Judge(accepted, c.signal.value, c.issuedAt, now, c.revision == revision)
  }

  function StoredAt(outbox: map<string, Envelope>): map<string, int> { map k | k in outbox :: outbox[k].occurredAt }

  class EngineEventHub {
    var processed: map<string, int>

    constructor ()
      ensures processed == map[]
    {
      processed := map[];
    }

    /** confirms is what the gateway would answer. An event is forwarded only if not yet
        processed, and recorded and acknowledged only if processed or confirmed. */
    method HandleExecutionEvent(e: Envelope, confirms: bool, now: int) returns (forwarded: bool, acked: bool)
      modifies this`processed
      ensures forwarded <==> e.id !in old(processed)
      ensures acked <==> e.id in old(processed) || confirms
      ensures acked <==> e.id in processed
      ensures processed == if e.id !in old(processed) && confirms then old(processed)[e.id := now] else old(processed)
    {
      forwarded := e.id !in processed;
      acked := !forwarded || confirms;
      if acked && e.id !in processed {
        processed := processed[e.id := now];
      }
    }
  }

  // ------------------------------------------------------------ sequence numbers

  /** When an event was read, and whether its connection was then still the engine's own. */
  datatype Reading = Reading(now: int, current: bool)

  /** The highest sequence after an event, or nothing when the number ends the connection. */
  function ValidateSequence(last: int, e: Envelope, now: int): Option<int>
  {
    if e.kind == Execution then Some(if last > e.sequence then last else e.sequence)
    else if Stale(e.occurredAt, now) || e.sequence <= last then None
    else Some(e.sequence)
  }

  /** A connection as the hub sees it: the events and how they were read. */
  function Connection(hello: Envelope, stream: seq<Envelope>, readings: seq<Reading>): Option<int>
    requires |stream| == |readings|
  {
    if stream == [] then Some(hello.sequence)
    else
      var n := |stream| - 1;
      var last := Connection(hello, stream[..n], readings[..n]);
      if last.None? then None
      else if stream[n].engine != hello.engine || !readings[n].current then None
      else if stream[n].revision != hello.revision then None
      else ValidateSequence(last.value, stream[n], readings[n].now)
  }

  ghost predicate Above(hello: Envelope, stream: seq<Envelope>, readings: seq<Reading>, k: nat)
    requires |stream| == |readings| && k < |stream|
  {
    stream[k].kind != Execution ==>
      && InTime(stream[k].occurredAt, readings[k].now) && stream[k].sequence > hello.sequence
      && forall j :: 0 <= j < k ==> stream[j].sequence < stream[k].sequence
  }

  /** An event of the greeted engine, at its revision, read on its latest connection. */
  ghost predicate IsOwn(hello: Envelope, e: Envelope, r: Reading)
  {
    e.engine == hello.engine && e.revision == hello.revision && r.current
  }

  ghost predicate IsHighest(hello: int, stream: seq<Envelope>, last: int)
  {
    && last >= hello && (forall j :: 0 <= j < |stream| ==> stream[j].sequence <= last)
    && (last == hello || exists j :: 0 <= j < |stream| && stream[j].sequence == last)
  }

  /** The connection survives exactly when every event is the greeted engine's, at its
      revision and on its latest connection, and every control event is fresh and numbered
      above the hello and everything before it, replayed execution events included. */
  lemma {:induction false} ConnectionSurvives(hello: Envelope, stream: seq<Envelope>, readings: seq<Reading>)
    requires |stream| == |readings|
    ensures Connection(hello, stream, readings).Some? <==>
            forall k :: 0 <= k < |stream| ==>
              IsOwn(hello, stream[k], readings[k]) && Above(hello, stream, readings, k)
    ensures Connection(hello, stream, readings).Some? ==>
              IsHighest(hello.sequence, stream, Connection(hello, stream, readings).value)
  {
    if stream != [] {
      var n := |stream| - 1;
      var rest, clock := stream[..n], readings[..n];
      ConnectionSurvives(hello, rest, clock);
      assert forall k :: 0 <= k < n ==> (Above(hello, rest, clock, k) <==> Above(hello, stream, readings, k));
      assert forall k :: 0 <= k < n ==> rest[k] == stream[k] && clock[k] == readings[k];
      if Connection(hello, rest, clock).Some? {
        var last := Connection(hello, rest, clock).value;
        assert IsHighest(hello.sequence, rest, last);
        if last != hello.sequence {
          var j :| 0 <= j < |rest| && rest[j].sequence == last;
          assert stream[j].sequence == last;
        }
        assert Above(hello, stream, readings, n) <==> ValidateSequence(last, stream[n], readings[n].now).Some?;
      }
    }
  }

  /** A restarted worker numbers from one again: replaying its outbox cuts the connection
      exactly when an event in it was stored under another revision, or is numbered at or
      above the worker's next control event. */
  lemma {:induction false} ReplayCutsRestartedWorkers(
    hello: Envelope, replayed: seq<Envelope>, control: Envelope, now: int)
    requires forall k :: 0 <= k < |replayed| ==> replayed[k].kind == Execution && replayed[k].engine == hello.engine
    requires control.kind != Execution && control.sequence > hello.sequence
    requires control.engine == hello.engine && control.revision == hello.revision && !Stale(control.occurredAt, now)
    ensures Connection(hello, replayed + [control], seq(|replayed| + 1, _ => Reading(now, true))).Some?
            <==> forall k :: 0 <= k < |replayed| ==>
              replayed[k].revision == hello.revision && replayed[k].sequence < control.sequence
  {
    var stream, readings := replayed + [control], seq(|replayed| + 1, _ => Reading(now, true));
    ConnectionSurvives(hello, stream, readings);
    assert forall k :: 0 <= k < |replayed| ==> stream[k] == replayed[k];
    assert stream[|replayed|] == control;
    assert Above(hello, stream, readings, |replayed|)
      <==> forall k :: 0 <= k < |replayed| ==> stream[k].sequence < control.sequence;
    assert forall k :: 0 <= k < |replayed| ==> Above(hello, stream, readings, k);
    assert forall k :: 0 <= k < |replayed| ==> (IsOwn(hello, stream[k], readings[k])
                                                <==> replayed[k].revision == hello.revision);
  }
}
