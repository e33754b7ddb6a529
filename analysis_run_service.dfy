/**
 * AgentAnalysisRunService: creating a run, executing it around the market analyst, and the
 * run's event log, whose sequence numbers `append_event` draws as one more than the largest
 * stored for the run.
 */
module AnalysisRunService {
  import opened Wrappers
  import opened Clock
  import opened Ids
  import opened AgentModels
  import opened Store

  // ----- the event log

  /** The events of one run, in insertion order. */
  function RunEvents(events: seq<AnalysisEvent>, runId: RunId): (r: seq<AnalysisEvent>)
    ensures |r| <= |events|
  {
    if |events| == 0 then []
    else
      var rest := RunEvents(events[..|events| - 1], runId);
      var e := events[|events| - 1];
      if e.runId == runId then rest + [e] else rest
  }

  /** The run's events are exactly the log's events of that run. */
  lemma {:induction false} RunEventsMembers(events: seq<AnalysisEvent>, runId: RunId)
    ensures forall e :: e in RunEvents(events, runId) <==> e in events && e.runId == runId
  {
    if |events| > 0 {
      var pre := events[..|events| - 1];
      RunEventsMembers(pre, runId);
      assert events == pre + [events[|events| - 1]];
    }
  }

  /** `aggregate(Max("sequence")) or 0` over the run's events. */
  function MaxSequence(events: seq<AnalysisEvent>, runId: RunId): nat {
    if |events| == 0 then 0
    else
      var m := MaxSequence(events[..|events| - 1], runId);
      var e := events[|events| - 1];
      if e.runId == runId && e.sequence > m then e.sequence else m
  }

  /** `MaxSequence` is the largest sequence among the run's events, and 0 when it has none. */
  lemma {:induction false} MaxSequenceIsMax(events: seq<AnalysisEvent>, runId: RunId)
    ensures forall i :: 0 <= i < |events| && events[i].runId == runId ==> events[i].sequence <= MaxSequence(events, runId)
    ensures MaxSequence(events, runId) == 0
            || exists i :: 0 <= i < |events| && events[i].runId == runId && events[i].sequence == MaxSequence(events, runId)
  {
    if |events| > 0 {
      var pre := events[..|events| - 1];
      MaxSequenceIsMax(pre, runId);
      assert forall i :: 0 <= i < |pre| ==> pre[i] == events[i];
    }
  }

  /**
   * The log as `append_event` builds it: every event numbered one past the number of events
   * its run already had.
   */
  ghost predicate LogValid(events: seq<AnalysisEvent>) {
    |events| == 0
    || (LogValid(events[..|events| - 1])
        && events[|events| - 1].sequence == |RunEvents(events[..|events| - 1], events[|events| - 1].runId)| + 1)
  }

  /** In a valid log the largest sequence of a run is the number of its events. */
  lemma {:induction false} MaxIsCount(events: seq<AnalysisEvent>, runId: RunId)
    requires LogValid(events)
    ensures MaxSequence(events, runId) == |RunEvents(events, runId)|
  {
    if |events| > 0 {
      MaxIsCount(events[..|events| - 1], runId);
      var e := events[|events| - 1];
      if e.runId != runId {
        MaxIsCount(events[..|events| - 1], runId);
      } else {
        MaxIsCount(events[..|events| - 1], e.runId);
      }
    }
  }

  /** Appending the event `append_event` creates keeps the log valid. */
  lemma AppendKeepsLogValid(events: seq<AnalysisEvent>, e: AnalysisEvent)
    requires LogValid(events)
    requires e.sequence == MaxSequence(events, e.runId) + 1
    ensures LogValid(events + [e])
  {
    MaxIsCount(events, e.runId);
    assert (events + [e])[..|events|] == events;
  }

  /** A valid log numbers each run's events 1, 2, 3, ... in insertion order. */
  lemma {:induction false} RunSequencesCount(events: seq<AnalysisEvent>, runId: RunId, j: int)
    requires LogValid(events) && 0 <= j < |RunEvents(events, runId)|
    ensures RunEvents(events, runId)[j].sequence == j + 1
  {
    var pre := events[..|events| - 1];
    var e := events[|events| - 1];
    if e.runId == runId && j == |RunEvents(pre, runId)| {
    } else {
      RunSequencesCount(pre, runId, j);
    }
  }

  /** The events before position `k` of a run never outnumber those before a later position. */
  lemma {:induction false} RunEventsGrow(events: seq<AnalysisEvent>, runId: RunId, i: nat, j: nat)
    requires i <= j <= |events|
    ensures |RunEvents(events[..i], runId)| <= |RunEvents(events[..j], runId)|
    ensures i < j && events[i].runId == runId ==> |RunEvents(events[..i], runId)| < |RunEvents(events[..j], runId)|
    decreases j - i
  {
    if i < j {
      RunEventsGrow(events, runId, i, j - 1);
      assert events[..j][..j - 1] == events[..j - 1];
      if i == j - 1 {
        assert events[..j][j - 1] == events[i];
      }
    }
  }

  /** The valid log's prefixes are valid. */
  lemma {:induction false} PrefixValid(events: seq<AnalysisEvent>, k: nat)
    requires LogValid(events) && k <= |events|
    ensures LogValid(events[..k])
    decreases |events| - k
  {
    if k < |events| {
      PrefixValid(events[..|events| - 1], k);
      assert events[..|events| - 1][..k] == events[..k];
    } else {
      assert events[..k] == events;
    }
  }

  /** Position `k` of a valid log holds one more than the count of its run's earlier events. */
  lemma SequenceAt(events: seq<AnalysisEvent>, k: nat)
    requires LogValid(events) && k < |events|
    ensures events[k].sequence == |RunEvents(events[..k], events[k].runId)| + 1
  {
    PrefixValid(events, k + 1);
    var p := events[..k + 1];
    assert p[..k] == events[..k] && p[k] == events[k];
  }

  /** Within one run, a later event has a strictly larger sequence number. */
  lemma SequencesIncrease(events: seq<AnalysisEvent>, i: nat, j: nat)
    requires LogValid(events) && i < j < |events| && events[i].runId == events[j].runId
    ensures events[i].sequence < events[j].sequence
  {
    SequenceAt(events, i);
    SequenceAt(events, j);
    RunEventsGrow(events, events[i].runId, i, j);
  }

  /** `append_event`: the next sequence of the run, then the insert. */
  method AppendEvent(db: Database, runId: RunId, eventType: string, payload: EventPayload) returns (e: AnalysisEvent)
    modifies db`events
    ensures e == AnalysisEvent(runId, MaxSequence(old(db.events), runId) + 1, eventType, payload)
    ensures db.events == old(db.events) + [e]
  {
    var maxSequence := MaxSequence(db.events, runId);
    e := AnalysisEvent(runId, maxSequence + 1, eventType, payload);
    db.events := db.events + [e];
  }

  /** The rows a run of appends writes: `items` numbered from `start` on. */
  function Numbered(runId: RunId, start: nat, items: seq<(string, EventPayload)>): (r: seq<AnalysisEvent>)
    ensures |r| == |items|
  {
    if |items| == 0 then []
    else
      var last := items[|items| - 1];
      Numbered(runId, start, items[..|items| - 1]) + [AnalysisEvent(runId, start + |items| - 1, last.0, last.1)]
  }

  /** Item `i` becomes an event of the run numbered `start + i`. */
  lemma {:induction false} NumberedAt(runId: RunId, start: nat, items: seq<(string, EventPayload)>, i: int)
    requires 0 <= i < |items|
    ensures Numbered(runId, start, items)[i] == AnalysisEvent(runId, start + i, items[i].0, items[i].1)
  {
    if i < |items| - 1 {
      NumberedAt(runId, start, items[..|items| - 1], i);
    }
  }

  /** After a run of appends the run's largest sequence is the last number written. */
  lemma {:induction false} MaxAfterNumbered(events: seq<AnalysisEvent>, runId: RunId, items: seq<(string, EventPayload)>)
    requires |items| > 0
    ensures MaxSequence(events + Numbered(runId, MaxSequence(events, runId) + 1, items), runId)
            == MaxSequence(events, runId) + |items|
  {
    var start := MaxSequence(events, runId) + 1;
    var all := events + Numbered(runId, start, items);
    var last := items[|items| - 1];
    assert all[..|all| - 1] == events + Numbered(runId, start, items[..|items| - 1]);
    if |items| > 1 {
      MaxAfterNumbered(events, runId, items[..|items| - 1]);
    } else {
      assert all[..|all| - 1] == events;
    }
  }

  /** One more item extends the numbered rows by one event with the next number. */
  lemma NumberedSnoc(runId: RunId, start: nat, items: seq<(string, EventPayload)>, x: (string, EventPayload))
    ensures Numbered(runId, start, items + [x]) == Numbered(runId, start, items) + [AnalysisEvent(runId, start + |items|, x.0, x.1)]
  {
    assert (items + [x])[..|items|] == items;
  }

  /** The next number of a run after events numbered from its next number on. */
  lemma NextAfterNumbered(events: seq<AnalysisEvent>, runId: RunId, items: seq<(string, EventPayload)>)
    ensures MaxSequence(events + Numbered(runId, MaxSequence(events, runId) + 1, items), runId) + 1
            == MaxSequence(events, runId) + 1 + |items|
  {
    if |items| > 0 {
      MaxAfterNumbered(events, runId, items);
    } else {
      var numbered := Numbered(runId, MaxSequence(events, runId) + 1, items);
      assert numbered == [];
      assert events + numbered == events;
    }
  }

  /** `append_event` after a run of appends: the numbered rows grow by one. */
  method AppendNext(db: Database, runId: RunId, ghost events0: seq<AnalysisEvent>, ghost items: seq<(string, EventPayload)>,
                    eventType: string, payload: EventPayload)
    requires db.events == events0 + Numbered(runId, MaxSequence(events0, runId) + 1, items)
    modifies db`events
    ensures db.events == events0 + Numbered(runId, MaxSequence(events0, runId) + 1, items + [(eventType, payload)])
  {
    ghost var start := MaxSequence(events0, runId) + 1;
    ghost var numbered := Numbered(runId, start, items);
    NextAfterNumbered(events0, runId, items);
    NumberedSnoc(runId, start, items, (eventType, payload));
    var e := AppendEvent(db, runId, eventType, payload);
    assert (events0 + numbered) + [e] == events0 + (numbered + [e]);
  }

  lemma SnocAssociates(a: seq<AnalysisEvent>, b: seq<AnalysisEvent>, e: AnalysisEvent)
    ensures (a + b) + [e] == a + (b + [e])
  {
  }

  /** Appending numbered rows to a valid log from the run's next number on keeps it valid. */
  lemma {:induction false} NumberedKeepsLogValid(events: seq<AnalysisEvent>, runId: RunId, items: seq<(string, EventPayload)>)
    requires LogValid(events)
    ensures LogValid(events + Numbered(runId, MaxSequence(events, runId) + 1, items))
  {
    var start := MaxSequence(events, runId) + 1;
    if |items| == 0 {
      assert events + Numbered(runId, start, items) == events;
    } else {
      var pre := items[..|items| - 1];
      NumberedKeepsLogValid(events, runId, pre);
      NumberedStepKeepsLogValid(events, runId, pre, items[|items| - 1]);
      assert pre + [items[|items| - 1]] == items;
    }
  }

  /** One more numbered row after valid numbered rows keeps the log valid. */
  lemma NumberedStepKeepsLogValid(events: seq<AnalysisEvent>, runId: RunId, pre: seq<(string, EventPayload)>,
                                  x: (string, EventPayload))
    requires LogValid(events + Numbered(runId, MaxSequence(events, runId) + 1, pre))
    ensures LogValid(events + Numbered(runId, MaxSequence(events, runId) + 1, pre + [x]))
  {
    var start := MaxSequence(events, runId) + 1;
    var numbered := Numbered(runId, start, pre);
    var e := AnalysisEvent(runId, start + |pre|, x.0, x.1);
    NextAfterNumbered(events, runId, pre);
    AppendKeepsLogValid(events + numbered, e);
    NumberedSnoc(runId, start, pre, x);
    SnocAssociates(events, numbered, e);
  }

  // ----- runs

  /** Every run is stored under its own id, below the next fresh id. */
  ghost predicate RunsValid(runs: map<RunId, AnalysisRun>, nextId: nat) {
    forall k :: k in runs ==> runs[k].id == k && k < nextId
  }

  /** The row `create_run` inserts: pending, not started, with empty results. */
  function NewRun(id: RunId, agentId: AgentId, requestedBy: Option<UserId>, query: string, model: string, maxSteps: int)
    : (r: AnalysisRun)
    ensures r.status == RunPending && r.startedAt.None? && r.completedAt.None?
    ensures r.id == id && r.agentId == agentId && r.requestedBy == requestedBy
    ensures r.query == query && r.model == model && r.maxSteps == maxSteps
  {
    AnalysisRun(id, agentId, requestedBy, RunPending, query, model, maxSteps, 0, "{}", "", "", None, None)
  }

  /** `create_run`: a new pending run under the next fresh id. */
  method CreateRun(db: Database, agentId: AgentId, requestedBy: Option<UserId>, query: string, model: string, maxSteps: int)
    returns (id: RunId)
    requires RunsValid(db.runs, db.nextRunId)
    modifies db`runs, db`nextRunId
    ensures RunsValid(db.runs, db.nextRunId)
    ensures id !in old(db.runs) && db.runs == old(db.runs)[id := NewRun(id, agentId, requestedBy, query, model, maxSteps)]
  {
    id := db.nextRunId;
    db.runs := db.runs[id := NewRun(id, agentId, requestedBy, query, model, maxSteps)];
    db.nextRunId := db.nextRunId + 1;
  }

  // ----- execute

  /** The analyst's exceptions: the three classes the callers tell apart, and any other exception. */
  datatype AnalystError = MissingCredential | AgentFailure | AgentCanceled | OtherFailure

  /** What `analyze` raised: the class and `str(exc)`. */
  datatype Raised = Raised(error: AnalystError, message: string)

  /**
   * The keys of the result dictionary `analyze` returns that the run service and the Celery tasks
   * read; `None` where the key is missing. `usage` is opaque JSON.
   */
  datatype AnalystResult = AnalystResult(analysis: Option<string>, usage: Option<string>, steps: Option<int>,
                                         model: Option<string>, status: Option<string>)

  /**
   * One call of the analyst: the events it reports through `on_event` (type and opaque JSON
   * payload), in order, then its result or its exception.
   */
  datatype AnalystOutcome = AnalystOutcome(emitted: seq<(string, string)>, ending: Result<AnalystResult, Raised>)

  /**
   * The exception `execute` raises for the one the analyst raised: the credential error and
   * the agent errors (the cancel error among them) as they are, anything else re-raised as
   * an agent error with the same message.
   */
  function Reraised(r: Raised): (out: Raised)
    ensures out.message == r.message
    ensures out.error != OtherFailure
    ensures r.error != OtherFailure ==> out == r
    ensures r.error == OtherFailure ==> out.error == AgentFailure
  {
    if r.error == OtherFailure then Raised(AgentFailure, r.message) else r
  }

  /** The run after `execute`: started, then completed with the result's fields or failed with the message. */
  function RunAfter(run: AnalysisRun, ending: Result<AnalystResult, Raised>, startedAt: Instant, completedAt: Instant)
    : (r: AnalysisRun)
    ensures r.id == run.id && r.agentId == run.agentId && r.query == run.query && r.model == run.model
    ensures r.startedAt == Some(startedAt) && r.completedAt == Some(completedAt)
    ensures r.status == (if ending.Ok? then RunCompleted else RunFailed)
    ensures ending.Err? ==> r.errorMessage == ending.error.message && r.resultText == run.resultText
    ensures ending.Ok? ==> r.errorMessage == run.errorMessage
                           && r.resultText == ending.value.analysis.GetOr("")
                           && r.usage == ending.value.usage.GetOr("{}")
                           && r.stepsExecuted == ending.value.steps.GetOr(0)
  {
    var started := run.(status := RunRunning, startedAt := Some(startedAt));
    match ending
    case Ok(res) =>
      started.(status := RunCompleted, resultText := res.analysis.GetOr(""), usage := res.usage.GetOr("{}"),
               stepsExecuted := res.steps.GetOr(0), completedAt := Some(completedAt))
    case Err(e) =>
      started.(status := RunFailed, errorMessage := e.message, completedAt := Some(completedAt))
  }

  /** The last event `execute` appends. */
  function FinalEvent(ending: Result<AnalystResult, Raised>): (string, EventPayload) {
    match ending
    case Ok(res) => ("run_completed", CompletedPayload(res.steps.GetOr(0), res.usage.GetOr("{}")))
    case Err(e) => ("run_failed", FailedPayload(e.message))
  }

  function Emitted(emitted: seq<(string, string)>): (r: seq<(string, EventPayload)>)
    ensures |r| == |emitted|
    ensures forall i :: 0 <= i < |r| ==> r[i] == (emitted[i].0, AnalystPayload(emitted[i].1))
  {
    if |emitted| == 0 then [] else [(emitted[0].0, AnalystPayload(emitted[0].1))] + Emitted(emitted[1..])
  }

  /**
   * The events one `execute` appends to the run's log: `run_started` with the run's query,
   * model and step budget, the analyst's own events in order, then `run_completed` or
   * `run_failed`.
   */
  function ExecutionLog(run: AnalysisRun, a: AnalystOutcome): seq<(string, EventPayload)> {
    [("run_started", StartedPayload(run.query, run.model, run.maxSteps))] + Emitted(a.emitted) + [FinalEvent(a.ending)]
  }

  /**
   * The log of one execution starts with `run_started`, forwards the analyst's events in
   * order, and ends with `run_completed` when the analyst returned and `run_failed` with
   * the message when it raised.
   */
  lemma ExecutionLogShape(run: AnalysisRun, a: AnalystOutcome)
    ensures var log := ExecutionLog(run, a);
            && |log| == |a.emitted| + 2
            && log[0] == ("run_started", StartedPayload(run.query, run.model, run.maxSteps))
            && (forall i :: 0 <= i < |a.emitted| ==> log[i + 1] == (a.emitted[i].0, AnalystPayload(a.emitted[i].1)))
            && log[|log| - 1].0 == (if a.ending.Ok? then "run_completed" else "run_failed")
            && (a.ending.Err? ==> log[|log| - 1].1 == FailedPayload(a.ending.error.message))
  {
  }

  /** An executed run is never left pending, running or canceled. */
  lemma ExecutedRunIsTerminal(run: AnalysisRun, a: AnalystOutcome, startedAt: Instant, completedAt: Instant)
    ensures var r := RunAfter(run, a.ending, startedAt, completedAt);
            (r.status == RunCompleted <==> a.ending.Ok?) && (r.status == RunFailed <==> a.ending.Err?)
            && r.status != RunPending && r.status != RunRunning && r.status != RunCanceled
  {
  }

  /**
   * `execute(run)` with the analyst's behaviour as `a`, and `startedAt` and `completedAt`
   * the two clock readings. The run row becomes `RunAfter`, the log grows by
   * `ExecutionLog` numbered from the run's next sequence number, and the result is the
   * analyst's result or the exception `execute` raises.
   */
  method Execute(db: Database, runId: RunId, a: AnalystOutcome, startedAt: Instant, completedAt: Instant)
    returns (result: Result<AnalystResult, Raised>)
    requires runId in db.runs
    modifies db`runs, db`events
    ensures db.runs == old(db.runs)[runId := RunAfter(old(db.runs[runId]), a.ending, startedAt, completedAt)]
    ensures db.events == old(db.events) + Numbered(runId, MaxSequence(old(db.events), runId) + 1, ExecutionLog(old(db.runs[runId]), a))
    ensures result == (match a.ending case Ok(res) => Ok(res) case Err(e) => Err(Reraised(e)))
  {
    var run := db.runs[runId];
    ghost var events0 := db.events;
    ghost var runs0 := db.runs;
    var started := StartRun(db, runId, startedAt);
    ForwardEvents(db, runId, events0, [started], a.emitted);
    db.runs := db.runs[runId := RunAfter(run, a.ending, startedAt, completedAt)];
    assert db.runs == runs0[runId := RunAfter(run, a.ending, startedAt, completedAt)];
    var final := FinalEvent(a.ending);
    AppendNext(db, runId, events0, [started] + Emitted(a.emitted), final.0, final.1);
    result := match a.ending case Ok(res) => Ok(res) case Err(e) => Err(Reraised(e));
  }

  /** The start of `execute`: the run is marked running with its start time, and `run_started` is appended. */
  method StartRun(db: Database, runId: RunId, startedAt: Instant) returns (started: (string, EventPayload))
    requires runId in db.runs
    modifies db`runs, db`events
    ensures var run := old(db.runs[runId]);
            started == ("run_started", StartedPayload(run.query, run.model, run.maxSteps))
    ensures db.runs == old(db.runs)[runId := old(db.runs[runId]).(status := RunRunning, startedAt := Some(startedAt))]
    ensures db.events == old(db.events) + Numbered(runId, MaxSequence(old(db.events), runId) + 1, [started])
  {
    var run := db.runs[runId];
    ghost var events0 := db.events;
    db.runs := db.runs[runId := run.(status := RunRunning, startedAt := Some(startedAt))];
    started := ("run_started", StartedPayload(run.query, run.model, run.maxSteps));
    assert db.events == events0 + Numbered(runId, MaxSequence(events0, runId) + 1, []);
    AppendNext(db, runId, events0, [], started.0, started.1);
    assert [] + [started] == [started];
  }

  /** The `on_event` callback: each event the analyst reports is appended in order. */
  method ForwardEvents(db: Database, runId: RunId, ghost events0: seq<AnalysisEvent>, ghost done: seq<(string, EventPayload)>,
                       emitted: seq<(string, string)>)
    requires db.events == events0 + Numbered(runId, MaxSequence(events0, runId) + 1, done)
    modifies db`events
    ensures db.events == events0 + Numbered(runId, MaxSequence(events0, runId) + 1, done + Emitted(emitted))
  {
    var i := 0;
    assert done + Emitted(emitted[..0]) == done;
    while i < |emitted|
      invariant 0 <= i <= |emitted|
      invariant db.events == events0 + Numbered(runId, MaxSequence(events0, runId) + 1, done + Emitted(emitted[..i]))
    {
      EmittedSnoc(emitted, i);
      assert done + Emitted(emitted[..i + 1]) == (done + Emitted(emitted[..i])) + [(emitted[i].0, AnalystPayload(emitted[i].1))];
      AppendNext(db, runId, events0, done + Emitted(emitted[..i]), emitted[i].0, AnalystPayload(emitted[i].1));
      i := i + 1;
    }
    assert emitted[..i] == emitted;
  }

  lemma EmittedSnoc(emitted: seq<(string, string)>, i: int)
    requires 0 <= i < |emitted|
    ensures Emitted(emitted[..i + 1]) == Emitted(emitted[..i]) + [(emitted[i].0, AnalystPayload(emitted[i].1))]
  {
  }

  /**
   * `execute` keeps the log valid, and the run gains exactly the events of its execution log:
   * `run_started`, one per reported event, and the final one.
   */
  lemma ExecuteKeepsLogValid(events: seq<AnalysisEvent>, run: AnalysisRun, a: AnalystOutcome)
    requires LogValid(events)
    ensures var after := events + Numbered(run.id, MaxSequence(events, run.id) + 1, ExecutionLog(run, a));
            && LogValid(after)
            && |RunEvents(after, run.id)| == |RunEvents(events, run.id)| + |a.emitted| + 2
  {
    var log := ExecutionLog(run, a);
    assert |log| == |a.emitted| + 2;
    var after := events + Numbered(run.id, MaxSequence(events, run.id) + 1, log);
    NumberedKeepsLogValid(events, run.id, log);
    MaxAfterNumbered(events, run.id, log);
    MaxIsCount(events, run.id);
    MaxIsCount(after, run.id);
  }
}
