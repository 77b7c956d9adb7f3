/**
 * The event-count reporter (EventCountReporter): logs a summary of the poll,
 * topic-creation and publication counters once a minute. `start` schedules the
 * logging task at a fixed rate unless one is already held; `close` cancels the held
 * task, without interrupting a run in progress, and forgets it. Between them the
 * guard keeps at most one logging task alive.
 */
module EventCountReporter {
  import opened Wrappers

  /** A task handed out by the executor, identified by number. */
  type TaskId = nat

  datatype TimeUnit = Minutes

  datatype Effect =
    | TaskScheduledAtFixedRate(task: TaskId, initialDelay: int, period: int, unit: TimeUnit)
    | TaskCancelled(task: TaskId, mayInterruptIfRunning: bool)

  /** The reporter's fields and the executor calls made so far. */
  datatype Snapshot = Snapshot(loggingTask: Option<TaskId>, nextTask: TaskId, trace: seq<Effect>)

  /** `start`. */
  function StartStep(s: Snapshot): (r: Snapshot)
    ensures s.loggingTask.Some? ==> r == s
    ensures s.loggingTask.None? ==>
      && r.loggingTask == Some(s.nextTask)
      && r.nextTask == s.nextTask + 1
      && r.trace == s.trace + [TaskScheduledAtFixedRate(s.nextTask, 1, 1, Minutes)]
  {
    if s.loggingTask.Some? then s
    else Snapshot(Some(s.nextTask), s.nextTask + 1, s.trace + [TaskScheduledAtFixedRate(s.nextTask, 1, 1, Minutes)])
  }

  /** `close`. */
  function CloseStep(s: Snapshot): (r: Snapshot)
    ensures r.loggingTask == None && r.nextTask == s.nextTask
    ensures s.loggingTask.None? ==> r == s
    ensures s.loggingTask.Some? ==> r.trace == s.trace + [TaskCancelled(s.loggingTask.value, false)]
  {
    if s.loggingTask.Some? then Snapshot(None, s.nextTask, s.trace + [TaskCancelled(s.loggingTask.value, false)])
    else s
  }

  /** The tasks of a trace that were scheduled and not since cancelled. */
  function Live(trace: seq<Effect>): set<TaskId>
    decreases |trace|
  {
    if trace == [] then {}
    else
      var last := trace[|trace| - 1];
      match last
      case TaskScheduledAtFixedRate(task, _, _, _) => Live(trace[..|trace| - 1]) + {task}
      case TaskCancelled(task, _) => Live(trace[..|trace| - 1]) - {task}
  }

  /** The reporter's invariant: the live tasks are exactly the one it holds, if any. */
  predicate Valid(s: Snapshot) {
    Live(s.trace) == (if s.loggingTask.Some? then {s.loggingTask.value} else {})
  }

  datatype Op = Start | Close

  function Apply(s: Snapshot, op: Op): Snapshot {
    match op
    case Start => StartStep(s)
    case Close => CloseStep(s)
  }

  /** Any sequence of calls, in order. */
  function Run(s: Snapshot, ops: seq<Op>): Snapshot
    decreases |ops|
  {
    if ops == [] then s else Apply(Run(s, ops[..|ops| - 1]), ops[|ops| - 1])
  }

  lemma LiveAppend(trace: seq<Effect>, e: Effect)
    ensures e.TaskScheduledAtFixedRate? ==> Live(trace + [e]) == Live(trace) + {e.task}
    ensures e.TaskCancelled? ==> Live(trace + [e]) == Live(trace) - {e.task}
  {
    assert (trace + [e])[..|trace + [e]| - 1] == trace;
  }

  /** `start` keeps the invariant, and after it a task is held and alive. */
  lemma StartKeepsValid(s: Snapshot)
    requires Valid(s)
    ensures Valid(StartStep(s))
    ensures StartStep(s).loggingTask.Some? && StartStep(s).loggingTask.value in Live(StartStep(s).trace)
  {
    if s.loggingTask.None? {
      LiveAppend(s.trace, TaskScheduledAtFixedRate(s.nextTask, 1, 1, Minutes));
    }
  }

  /** `close` keeps the invariant, and after it no task is alive. */
  lemma CloseKeepsValid(s: Snapshot)
    requires Valid(s)
    ensures Valid(CloseStep(s))
    ensures Live(CloseStep(s).trace) == {}
  {
    if s.loggingTask.Some? {
      LiveAppend(s.trace, TaskCancelled(s.loggingTask.value, false));
    }
  }

  /** Whatever the order of `start` and `close` calls, at most one logging task is ever alive. */
  lemma {:induction false} AtMostOneTask(s: Snapshot, ops: seq<Op>)
    requires Valid(s)
    ensures Valid(Run(s, ops))
    ensures |Live(Run(s, ops).trace)| <= 1
    decreases |ops|
  {
    if ops != [] {
      var before := Run(s, ops[..|ops| - 1]);
      AtMostOneTask(s, ops[..|ops| - 1]);
      match ops[|ops| - 1]
      case Start => StartKeepsValid(before);
      case Close => CloseKeepsValid(before);
    }
  }

  /** A second `start` does nothing. */
  lemma StartIdempotent(s: Snapshot)
    ensures StartStep(StartStep(s)) == StartStep(s)
  {
  }

  /** A repeated `close` is harmless. */
  lemma CloseIdempotent(s: Snapshot)
    ensures CloseStep(CloseStep(s)) == CloseStep(s)
  {
  }

  /** After `close`, `start` schedules a fresh task, not the cancelled one. */
  lemma StartAfterCloseIsFresh(s: Snapshot)
    ensures var c := CloseStep(s);
      && StartStep(c).loggingTask == Some(s.nextTask)
      && StartStep(c).trace == c.trace + [TaskScheduledAtFixedRate(s.nextTask, 1, 1, Minutes)]
      && (s.loggingTask.Some? && s.loggingTask.value < s.nextTask ==> StartStep(c).loggingTask != s.loggingTask)
  {
  }

  class Reporter {
    /** The held logging task, or null. */
    var loggingTask: Option<TaskId>
    var nextTask: TaskId
    /** Every call made on the executor or a task so far, in order. */
    var trace: seq<Effect>

    constructor ()
      ensures loggingTask == None && nextTask == 0 && trace == []
      ensures Valid(Snap())
    {
      loggingTask := None;
      nextTask := 0;
      trace := [];
    }

    function Snap(): Snapshot
      reads this
    {
      Snapshot(loggingTask, nextTask, trace)
    }

    /** `start`: nothing if a task is held; otherwise one task at a fixed rate of a minute, after a minute. */
    method Start()
      modifies this`loggingTask, this`nextTask, this`trace
      ensures Snap() == StartStep(old(Snap()))
      ensures old(Valid(Snap())) ==> Valid(Snap())
    {
      if loggingTask.Some? {
        return;
      }
      var task := nextTask;
      nextTask := nextTask + 1;
      trace := trace + [TaskScheduledAtFixedRate(task, 1, 1, Minutes)];
      loggingTask := Some(task);
      if old(Valid(Snap())) {
        StartKeepsValid(old(Snap()));
      }
    }

    /** `close`: cancels the held task, if any, and forgets it. */
    method Close()
      modifies this`loggingTask, this`trace
      ensures Snap() == CloseStep(old(Snap()))
      ensures old(Valid(Snap())) ==> Valid(Snap())
    {
      if loggingTask.Some? {
        trace := trace + [TaskCancelled(loggingTask.value, false)];
        loggingTask := None;
      }
      if old(Valid(Snap())) {
        CloseKeepsValid(old(Snap()));
      }
    }
  }
}
