/**
 * The topic-based metrics reporter (TopicBasedMetricsReporter). `start` asks for the
 * JSON topic `<root>/poll` with a callback that aggregates the outcome of every
 * requested topic: once no requested topic is outstanding it begins reporting if
 * none failed, and closes the reporter otherwise; a topic that already exists counts
 * as created, and a discarded request closes the reporter at once. Reporting is a
 * task at a fixed rate of one minute that publishes the 90th percentile of
 * successful poll times whenever there is one. `close` removes the reporter's topics
 * and cancels the task.
 */
module TopicMetricsReporter {
  import opened Wrappers

  /** A task handed out by the executor, identified by number. */
  type TaskId = nat

  datatype TimeUnit = Minutes

  datatype Effect =
    | TopicAddRequested(path: string)                  // always a JSON topic
    | TopicsRemoved(selector: string)
    | TaskScheduledAtFixedRate(task: TaskId, initialDelay: int, period: int, unit: TimeUnit)
    | TaskCancelled(task: TaskId)
    | TopicUpdated(path: string, json: string)

  /** The reason Diffusion gives for not adding a topic; only EXISTS is told apart. */
  datatype TopicAddFailReason = EXISTS | OtherReason(code: nat)

  /** What the add callback is told. */
  datatype AddEvent = TopicAdded(path: string) | TopicAddFailed(path: string, reason: TopicAddFailReason) | Discarded

  /** The add callback's two sets. */
  datatype Aggregate = Aggregate(remaining: set<string>, failed: set<string>)

  /** Which of its two runnables the add callback runs. */
  datatype Verdict = Succeeded | Failed

  /** `onResult`: nothing while a topic is outstanding; then success exactly when none failed. */
  function Settled(a: Aggregate): (r: Option<Verdict>)
    ensures r.Some? <==> a.remaining == {}
    ensures r == Some(Succeeded) <==> a.remaining == {} && a.failed == {}
  {
    if a.remaining != {} then None
    else if a.failed == {} then Some(Succeeded)
    else Some(Failed)
  }

  /** One call of the add callback: its new sets and the runnable it runs, if any. */
  function Handle(a: Aggregate, e: AddEvent): (r: (Aggregate, Option<Verdict>))
    ensures a.failed <= r.0.failed && r.0.remaining <= a.remaining
    ensures e.Discarded? ==> r == (a, Some(Failed))
    ensures !e.Discarded? ==> r.0.remaining == a.remaining - {e.path} && r.1 == Settled(r.0)
    ensures e.TopicAddFailed? && e.reason != EXISTS ==> e.path in r.0.failed
    ensures e.TopicAdded? || (e.TopicAddFailed? && e.reason == EXISTS) ==> r.0.failed == a.failed
  {
    match e
    case TopicAdded(path) =>
      var next := Aggregate(a.remaining - {path}, a.failed);
      (next, Settled(next))
    case TopicAddFailed(path, reason) =>
      var next := Aggregate(a.remaining - {path}, if reason == EXISTS then a.failed else a.failed + {path});
      (next, Settled(next))
    case Discarded => (a, Some(Failed))
  }

  /** The runnables the add callback runs over a sequence of calls, in order. */
  function Verdicts(a: Aggregate, events: seq<AddEvent>): seq<Verdict>
    decreases |events|
  {
    if events == [] then []
    else
      var (next, v) := Handle(a, events[0]);
      (if v.Some? then [v.value] else []) + Verdicts(next, events[1..])
  }

  /** A topic that already exists is reported exactly like one that was added. */
  lemma ExistsCountsAsAdded(a: Aggregate, path: string)
    ensures Handle(a, TopicAddFailed(path, EXISTS)) == Handle(a, TopicAdded(path))
  {
  }

  /** Once a topic has failed for a reason other than EXISTS, the success runnable never runs again. */
  lemma {:induction false} FailureIsFinal(a: Aggregate, events: seq<AddEvent>)
    requires a.failed != {}
    ensures Succeeded !in Verdicts(a, events)
    decreases |events|
  {
    if events != [] {
      var (next, v) := Handle(a, events[0]);
      FailureIsFinal(next, events[1..]);
    }
  }

  /**
   * Every requested topic added or already existing, in any order, gives exactly one
   * run of the success runnable, after the last of them.
   */
  lemma {:induction false} AllAddedSucceedsOnce(a: Aggregate, paths: seq<string>, events: seq<AddEvent>)
    requires a.failed == {}
    requires a.remaining == set p | p in paths
    requires forall i, j :: 0 <= i < j < |paths| ==> paths[i] != paths[j]
    requires |events| == |paths|
    requires forall i :: 0 <= i < |events| ==>
      events[i] == TopicAdded(paths[i]) || events[i] == TopicAddFailed(paths[i], EXISTS)
    ensures Verdicts(a, events) == if paths == [] then [] else [Succeeded]
    decreases |paths|
  {
    if paths != [] {
      var next := Aggregate(a.remaining - {paths[0]}, {});
      assert Handle(a, events[0]) == (next, Settled(next));
      RemainingAfterHead(paths);
      AllAddedSucceedsOnce(next, paths[1..], events[1..]);
      assert paths[1..] != [] ==> paths[1] in next.remaining;
      assert Verdicts(a, events) == (if Settled(next).Some? then [Settled(next).value] else []) + Verdicts(next, events[1..]);
    }
  }

  /** With no repeats, the paths left after the first are the rest of the list. */
  lemma RemainingAfterHead(paths: seq<string>)
    requires paths != []
    requires forall i, j :: 0 <= i < j < |paths| ==> paths[i] != paths[j]
    ensures (set p | p in paths) - {paths[0]} == set p | p in paths[1..]
  {
    forall p | p in paths[1..]
      ensures p != paths[0]
    {
      var k :| 0 <= k < |paths[1..]| && paths[1..][k] == p;
      assert paths[k + 1] == p;
    }
  }

  /** The reporter's own state, as a value. */
  datatype Snapshot = Snapshot(loggingTask: Option<TaskId>, nextTask: TaskId, trace: seq<Effect>)

  /** `beginReporting`: nothing when a task exists, otherwise one task at a fixed rate of a minute, after a minute. */
  function BeginReportingStep(s: Snapshot): (r: Snapshot)
    ensures s.loggingTask.Some? ==> r == s
    ensures s.loggingTask.None? ==>
      && r.loggingTask == Some(s.nextTask)
      && r.nextTask == s.nextTask + 1
      && r.trace == s.trace + [TaskScheduledAtFixedRate(s.nextTask, 1, 1, Minutes)]
  {
    if s.loggingTask.Some? then s
    else Snapshot(Some(s.nextTask), s.nextTask + 1, s.trace + [TaskScheduledAtFixedRate(s.nextTask, 1, 1, Minutes)])
  }

  /** The selector `close` removes: every topic below the root. */
  function RemovalSelector(root: string): (r: string)
    ensures |r| == |root| + 2 && r[0] == '?' && r[1..|root| + 1] == root && r[|root| + 1] == '/'
  {
    "?" + root + "/"
  }

  /** `close`: removes the topics below the root, then cancels and forgets the task if there is one. */
  function CloseStep(root: string, s: Snapshot): (r: Snapshot)
    ensures r.loggingTask == None && r.nextTask == s.nextTask
    ensures s.loggingTask.None? ==> r.trace == s.trace + [TopicsRemoved(RemovalSelector(root))]
    ensures s.loggingTask.Some? ==>
      r.trace == s.trace + [TopicsRemoved(RemovalSelector(root)), TaskCancelled(s.loggingTask.value)]
  {
    var removed := s.trace + [TopicsRemoved(RemovalSelector(root))];
    if s.loggingTask.Some? then Snapshot(None, s.nextTask, removed + [TaskCancelled(s.loggingTask.value)])
    else Snapshot(None, s.nextTask, removed)
  }

  /** What the add callback's runnable does to the reporter. */
  function RunVerdict(root: string, v: Option<Verdict>, s: Snapshot): Snapshot {
    match v
    case None => s
    case Some(Succeeded) => BeginReportingStep(s)
    case Some(Failed) => CloseStep(root, s)
  }

  /** The published value: the percentile in a one-field JSON object. */
  function PercentileJson(requestTime: int): string {
    "{\"successfulRequestTimeNinetiethPercentile\":" + IntToString(requestTime) + "}"
  }

  /** The topic reports are published to. */
  function PollTopic(root: string): string {
    root + "/poll"
  }

  /** Beginning to report twice schedules one task. */
  lemma BeginReportingIdempotent(s: Snapshot)
    ensures BeginReportingStep(BeginReportingStep(s)) == BeginReportingStep(s)
  {
  }

  /** A duplicate success, as a repeated `onTopicAdded` gives, schedules nothing more. */
  lemma {:induction false} RepeatedSuccessSchedulesOnce(root: string, s: Snapshot, n: nat)
    ensures RepeatVerdict(root, Some(Succeeded), s, n + 1) == BeginReportingStep(s)
    decreases n
  {
    if n > 0 {
      RepeatedSuccessSchedulesOnce(root, s, n - 1);
    }
  }

  function RepeatVerdict(root: string, v: Option<Verdict>, s: Snapshot, n: nat): Snapshot
    decreases n
  {
    if n == 0 then s else RunVerdict(root, v, RepeatVerdict(root, v, s, n - 1))
  }

  /** After `close`, beginning to report schedules a fresh task. */
  lemma ReportingAfterCloseIsFresh(root: string, s: Snapshot)
    ensures BeginReportingStep(CloseStep(root, s)).loggingTask == Some(s.nextTask)
    ensures BeginReportingStep(CloseStep(root, s)).trace ==
      CloseStep(root, s).trace + [TaskScheduledAtFixedRate(s.nextTask, 1, 1, Minutes)]
  {
  }

  class Reporter {
    const root: string
    var loggingTask: Option<TaskId>
    var nextTask: TaskId
    /** Every outside effect performed so far, in order. */
    var trace: seq<Effect>

    constructor (root: string)
      ensures this.root == root && loggingTask == None && nextTask == 0 && trace == []
    {
      this.root := root;
      loggingTask := None;
      nextTask := 0;
      trace := [];
    }

    function Snap(): Snapshot
      reads this
    {
      Snapshot(loggingTask, nextTask, trace)
    }

    /** `start`: asks for the poll topic, with a callback that awaits just that topic. */
    method Start() returns (callback: AddCallback)
      modifies this`trace
      ensures fresh(callback) && callback.reporter == this
      ensures callback.remaining == {PollTopic(root)} && callback.failed == {}
      ensures loggingTask == old(loggingTask) && nextTask == old(nextTask)
      ensures trace == old(trace) + [TopicAddRequested(PollTopic(root))]
    {
      callback := new AddCallback(this, [PollTopic(root)]);
      trace := trace + [TopicAddRequested(PollTopic(root))];
    }

    method Close()
      modifies this`loggingTask, this`trace
      ensures Snap() == CloseStep(root, old(Snap()))
    {
      trace := trace + [TopicsRemoved(RemovalSelector(root))];
      if loggingTask.Some? {
        trace := trace + [TaskCancelled(loggingTask.value)];
        loggingTask := None;
      }
    }

    method BeginReporting()
      modifies this`loggingTask, this`nextTask, this`trace
      ensures Snap() == BeginReportingStep(old(Snap()))
    {
      if loggingTask.Some? {
        return;
      }
      var task := nextTask;
      nextTask := nextTask + 1;
      trace := trace + [TaskScheduledAtFixedRate(task, 1, 1, Minutes)];
      loggingTask := Some(task);
    }

    /** One run of the task: an update of the poll topic exactly when a percentile is present. */
    method ReportPollEvents(percentile: Option<int>)
      modifies this`trace
      ensures percentile.None? ==> trace == old(trace)
      ensures percentile.Some? ==> trace == old(trace) + [TopicUpdated(PollTopic(root), PercentileJson(percentile.value))]
    {
      if percentile.Some? {
        trace := trace + [TopicUpdated(PollTopic(root), PercentileJson(percentile.value))];
      }
    }
  }

  /** The add callback of `createTopics`. */
  class AddCallback {
    const reporter: Reporter
    var remaining: set<string>
    var failed: set<string>

    constructor (reporter: Reporter, paths: seq<string>)
      ensures this.reporter == reporter && remaining == (set p | p in paths) && failed == {}
    {
      this.reporter := reporter;
      remaining := set p | p in paths;
      failed := {};
    }

    function State(): Aggregate
      reads this
    {
      Aggregate(remaining, failed)
    }

    method Run(v: Option<Verdict>)
      modifies reporter
      ensures reporter.Snap() == RunVerdict(reporter.root, v, old(reporter.Snap()))
    {
      match v {
        case None =>
        case Some(Succeeded) => reporter.BeginReporting();
        case Some(Failed) => reporter.Close();
      }
    }

    method OnEvent(e: AddEvent)
      modifies this, reporter
      ensures State() == Handle(old(State()), e).0
      ensures reporter.Snap() == RunVerdict(reporter.root, Handle(old(State()), e).1, old(reporter.Snap()))
    {
      match e {
        case TopicAdded(path) =>
          remaining := remaining - {path};
          Run(Settled(State()));
        case TopicAddFailed(path, reason) =>
          remaining := remaining - {path};
          if reason != EXISTS {
            failed := failed + {path};
          }
          Run(Settled(State()));
        case Discarded =>
          Run(Some(Failed));
      }
    }
  }

  /**
   * Start, the poll topic already exists, then two runs of the task with and without
   * a percentile, then close: one task scheduled, one update, removal then cancellation.
   */
  method ExistingTopicStartsReporting(root: string, requestTime: int)
    returns (scheduled: bool, effects: seq<Effect>, afterClose: Option<TaskId>)
    ensures scheduled
    ensures effects == [
      TopicAddRequested(PollTopic(root)),
      TaskScheduledAtFixedRate(0, 1, 1, Minutes),
      TopicUpdated(PollTopic(root), PercentileJson(requestTime)),
      TopicsRemoved(RemovalSelector(root)),
      TaskCancelled(0)]
    ensures afterClose == None
  {
    var reporter := new Reporter(root);
    var callback := reporter.Start();
    callback.OnEvent(TopicAddFailed(PollTopic(root), EXISTS));
    scheduled := reporter.loggingTask.Some?;
    reporter.ReportPollEvents(Some(requestTime));
    reporter.ReportPollEvents(None);
    reporter.Close();
    effects := reporter.trace;
    afterClose := reporter.loggingTask;
  }
}
