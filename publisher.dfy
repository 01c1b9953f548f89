/** StreamEventPublisher: keeps the registered endpoints, starts them, and
    drives each one cycle after cycle.

    Threads, clocks and the Spring scheduler are not modelled: a delayed
    task handed to the executor and a cron task handed to the registrar are
    appended to a list of pending tasks, and a sleep is recorded as its
    length. The cycles one call of `publishEvent` goes through are given as
    a finite script of collaborators, one per cycle. */
module Publisher {
  import opened Lang
  import opened Model
  import opened Service

  /** `publishEvent(endpoint)`, to be run after `delayMillis` milliseconds. */
  datatype DelayedTask = DelayedTask(endpoint: StreamListenerEndpoint, delayMillis: int)

  /** `publishEvent(endpoint)`, to be run by the cron expression. */
  datatype CronTask = CronTask(endpoint: StreamListenerEndpoint, cron: Option<string>)

  /** The ScheduledExecutorService, as the list of tasks scheduled on it. */
  class ScheduledExecutor {
    var tasks: seq<DelayedTask>

    constructor ()
      ensures tasks == []
    {
      tasks := [];
    }

    method Schedule(endpoint: StreamListenerEndpoint, delayMillis: int)
      modifies this
      ensures tasks == old(tasks) + [DelayedTask(endpoint, delayMillis)]
    {
      tasks := tasks + [DelayedTask(endpoint, delayMillis)];
    }
  }

  /** The ScheduledTaskRegistrar, as the list of cron tasks added to it. */
  class TaskRegistrar {
    var cronTasks: seq<CronTask>
    var destroyed: bool

    constructor ()
      ensures cronTasks == [] && !destroyed
    {
      cronTasks, destroyed := [], false;
    }

    method AddCronTask(endpoint: StreamListenerEndpoint, cron: Option<string>)
      modifies this
      ensures cronTasks == old(cronTasks) + [CronTask(endpoint, cron)]
      ensures destroyed == old(destroyed)
    {
      cronTasks := cronTasks + [CronTask(endpoint, cron)];
    }

    method Destroy()
      modifies this
      ensures destroyed && cronTasks == old(cronTasks)
    {
      destroyed := true;
    }
  }

  /** How one call of `publishEvent` ends:
      - Contended: the id was already taken, no cycle ran;
      - Idle: a cycle found nothing to process;
      - Propagated: a cycle threw, and so does `publishEvent`;
      - Rescheduled: a cycle processed records and, the endpoint not being
        auto-started, one delayed task was scheduled;
      - ScriptEnded: the endpoint kept re-driving itself past the last
        cycle the script describes. */
  datatype Ending = Contended | Idle | Propagated(ex: Exception) | Rescheduled | ScriptEnded

  /** The cycles one call of `publishEvent` ran, the sleeps between them,
      and how it ended. */
  datatype DriveResult = DriveResult(cycles: seq<Step<bool>>, slept: seq<int>, ending: Ending)

  /** What `sleepTill(delay)` sleeps: nothing below one millisecond. */
  function Slept(delay: int): (r: seq<int>)
    ensures r == [] <==> delay < 1
    ensures forall d :: d in r ==> d == delay && d >= 1
  {
    if delay < 1 then [] else [delay]
  }

  /** How a cycle's result decides what follows it: stop (and how), or,
      for an auto-started endpoint that processed records, go on. */
  function Verdict(autoStartup: bool, c: Completion<bool>): (r: Option<Ending>)
    ensures r.None? <==> c == Done(true) && autoStartup
    ensures c.Raised? ==> r == Some(Propagated(c.ex))
    ensures c == Done(false) ==> r == Some(Idle)
    ensures c == Done(true) && !autoStartup ==> r == Some(Rescheduled)
  {
    match c
    case Raised(ex) => Some(Propagated(ex))
    case Done(hasMore) =>
      if !hasMore then Some(Idle)
      else if autoStartup then None
      else Some(Rescheduled)
  }

  /** The results the script's cycles give, one per entry, in order. */
  function Cycles(ep: StreamListenerEndpoint, d: Descriptor, script: seq<Collaborators>): (r: seq<Step<bool>>)
    ensures |r| == |script|
  {
    if script == [] then [] else [Cycle(ep, d, script[0])] + Cycles(ep, d, script[1..])
  }

  /** The `k`-th result is the `k`-th cycle of the script. */
  lemma {:induction false} CyclesAt(ep: StreamListenerEndpoint, d: Descriptor, script: seq<Collaborators>, k: nat)
    requires k < |script|
    ensures Cycles(ep, d, script)[k] == Cycle(ep, d, script[k])
  {
    if k > 0 {
      CyclesAt(ep, d, script[1..], k - 1);
    }
  }

  /** publishEvent once its guard has passed, over the results its cycles
      give: run a cycle, then stop, or sleep and drive the endpoint again. */
  function Drive(autoStartup: bool, delay: int, steps: seq<Step<bool>>): (r: DriveResult)
    ensures |r.cycles| <= |steps|
    ensures r.ending != Contended
    decreases |steps|
  {
    if steps == [] then DriveResult([], [], ScriptEnded)
    else
      match Verdict(autoStartup, steps[0].completion)
      case Some(ending) => DriveResult([steps[0]], [], ending)
      case None =>
        var rest := Drive(autoStartup, delay, steps[1..]);
        DriveResult([steps[0]] + rest.cycles, Slept(delay) + rest.slept, rest.ending)
  }

  /** publishEvent: a call whose endpoint id is already being driven does
      nothing. */
  function Publish(ids: set<Option<string>>, ep: StreamListenerEndpoint, d: Descriptor, script: seq<Collaborators>): (r: DriveResult)
    ensures r.ending == Contended <==> d.id in ids
    ensures |r.cycles| <= |script|
  {
    if d.id in ids then DriveResult([], [], Contended) else Drive(d.autoStartup, d.delay, Cycles(ep, d, script))
  }

  function Join(cycles: seq<Step<bool>>, slept: seq<int>, d: DriveResult): DriveResult {
    DriveResult(cycles + d.cycles, slept + d.slept, d.ending)
  }

  /** One step of a drive, from the `i`-th cycle on. */
  lemma DriveStep(autoStartup: bool, delay: int, steps: seq<Step<bool>>, i: nat)
    requires i < |steps|
    ensures Drive(autoStartup, delay, steps[i..]) ==
      match Verdict(autoStartup, steps[i].completion)
      case Some(ending) => DriveResult([steps[i]], [], ending)
      case None => Join([steps[i]], Slept(delay), Drive(autoStartup, delay, steps[i + 1..]))
  {
    assert steps[i..][0] == steps[i] && steps[i..][1..] == steps[i + 1..];
  }

  lemma JoinJoin(c1: seq<Step<bool>>, s1: seq<int>, c2: seq<Step<bool>>, s2: seq<int>, d: DriveResult)
    ensures Join(c1, s1, Join(c2, s2, d)) == Join(c1 + c2, s1 + s2, d)
  {
  }

  /** The cycles a drive runs are the first cycles of the script, in order. */
  lemma {:induction false} DriveFollowsScript(autoStartup: bool, delay: int, steps: seq<Step<bool>>)
    ensures var d := Drive(autoStartup, delay, steps);
      |d.cycles| <= |steps| && d.cycles == steps[..|d.cycles|]
  {
    if steps != [] && Verdict(autoStartup, steps[0].completion).None? {
      DriveFollowsScript(autoStartup, delay, steps[1..]);
      var rest := Drive(autoStartup, delay, steps[1..]);
      assert steps == [steps[0]] + steps[1..];
      assert steps[..1 + |rest.cycles|] == [steps[0]] + steps[1..][..|rest.cycles|];
    }
  }

  /** A drive goes on exactly as long as its cycles say so: every cycle but
      the last processed records of an auto-started endpoint, and the last
      one decides the ending, unless the script ran out first. It never
      ends Contended. */
  lemma {:induction false} DriveStopsAtFirstVerdict(autoStartup: bool, delay: int, steps: seq<Step<bool>>)
    ensures var d := Drive(autoStartup, delay, steps);
      && d.ending != Contended
      && (d.ending == ScriptEnded ==>
            && |d.cycles| == |steps|
            && forall i :: 0 <= i < |d.cycles| ==> Verdict(autoStartup, d.cycles[i].completion).None?)
      && (d.ending != ScriptEnded ==>
            && d.cycles != []
            && Verdict(autoStartup, d.cycles[|d.cycles| - 1].completion) == Some(d.ending)
            && forall i :: 0 <= i < |d.cycles| - 1 ==> Verdict(autoStartup, d.cycles[i].completion).None?)
  {
    if steps != [] && Verdict(autoStartup, steps[0].completion).None? {
      DriveStopsAtFirstVerdict(autoStartup, delay, steps[1..]);
      var d := Drive(autoStartup, delay, steps);
      var rest := Drive(autoStartup, delay, steps[1..]);
      forall i | 1 <= i < |d.cycles|
        ensures d.cycles[i] == rest.cycles[i - 1]
      {
      }
    }
  }

  /** Without auto-startup a call runs at most one cycle: the next one is
      left to the scheduled task. */
  lemma OneCycleWithoutAutoStartup(delay: int, steps: seq<Step<bool>>)
    ensures |Drive(false, delay, steps).cycles| <= 1
    ensures Drive(false, delay, steps).slept == []
  {
  }

  /** The number of cycles after which the endpoint was driven again. */
  function Continued(d: DriveResult): nat {
    if d.ending == ScriptEnded then |d.cycles| else if d.cycles == [] then 0 else |d.cycles| - 1
  }

  /** Between cycles the drive sleeps the endpoint's delay once per
      re-drive, and not at all when the delay is below one millisecond;
      after the last cycle it never sleeps. */
  lemma {:induction false} DriveSleeps(autoStartup: bool, delay: int, steps: seq<Step<bool>>)
    ensures var d := Drive(autoStartup, delay, steps);
      && (delay < 1 ==> d.slept == [])
      && (delay >= 1 ==> |d.slept| == Continued(d) && forall k :: 0 <= k < |d.slept| ==> d.slept[k] == delay)
  {
    if steps != [] && Verdict(autoStartup, steps[0].completion).None? {
      DriveSleeps(autoStartup, delay, steps[1..]);
      DriveStopsAtFirstVerdict(autoStartup, delay, steps[1..]);
    }
  }

  /** An endpoint whose id is free is driven, whatever its cycles give, and
      the call is not contended; one whose id is taken runs no cycle. */
  lemma GuardDecides(ids: set<Option<string>>, ep: StreamListenerEndpoint, d: Descriptor, script: seq<Collaborators>)
    ensures var p := Publish(ids, ep, d, script);
      && (d.id in ids <==> p.ending == Contended)
      && (d.id in ids ==> p.cycles == [] && p.slept == [])
  {
    DriveStopsAtFirstVerdict(d.autoStartup, d.delay, Cycles(ep, d, script));
  }

  /** What startup did with one endpoint: drove it at once, or added a
      cron task that runs it later. */
  datatype Visit = Driven(result: DriveResult) | Armed(task: CronTask)

  /** The cycles startup's drive of `e` goes through; none for an
      endpoint the map does not mention. */
  function ScriptOf(scripts: map<StreamListenerEndpoint, seq<Collaborators>>, e: StreamListenerEndpoint): seq<Collaborators> {
    if e in scripts then scripts[e] else []
  }

  /** What startup does with endpoint `e` when the ids being driven are
      `ids`: drive it if it is auto-started, else arm its cron expression. */
  function VisitOf(ids: set<Option<string>>, e: StreamListenerEndpoint, scripts: map<StreamListenerEndpoint, seq<Collaborators>>): Visit
    reads e
  {
    if e.autoStartup then Driven(Publish(ids, e, e.Snapshot(), ScriptOf(scripts, e))) else Armed(CronTask(e, e.cron))
  }

  /** Startup is ended by a visit whose drive threw. */
  function FailureOf(v: Visit): Option<Exception> {
    if v.Driven? && v.result.ending.Propagated? then Some(v.result.ending.ex) else None
  }

  /** `visits` are startup's visits of the first endpoints of `order`. */
  ghost predicate VisitsFollow(ids: set<Option<string>>, order: seq<StreamListenerEndpoint>, scripts: map<StreamListenerEndpoint, seq<Collaborators>>, visits: seq<Visit>)
    reads set k | 0 <= k < |order| :: order[k]
  {
    && |visits| <= |order|
    && forall k :: 0 <= k < |visits| ==> visits[k] == VisitOf(ids, order[k], scripts)
  }

  /** None of `visits` ended startup. */
  ghost predicate NoneFailed(visits: seq<Visit>) {
    forall k :: 0 <= k < |visits| ==> FailureOf(visits[k]).None?
  }

  lemma VisitsFollowAppend(ids: set<Option<string>>, order: seq<StreamListenerEndpoint>, scripts: map<StreamListenerEndpoint, seq<Collaborators>>, visits: seq<Visit>, v: Visit)
    requires VisitsFollow(ids, order, scripts, visits) && |visits| < |order|
    requires v == VisitOf(ids, order[|visits|], scripts)
    ensures VisitsFollow(ids, order, scripts, visits + [v])
  {
    var vs := visits + [v];
    forall k | 0 <= k < |vs|
      ensures vs[k] == VisitOf(ids, order[k], scripts)
    {
      if k < |visits| {
        assert vs[k] == visits[k];
      }
    }
  }

  lemma NoneFailedAppend(visits: seq<Visit>, v: Visit)
    requires NoneFailed(visits) && FailureOf(v).None?
    ensures NoneFailed(visits + [v])
  {
    var vs := visits + [v];
    forall k | 0 <= k < |vs|
      ensures FailureOf(vs[k]).None?
    {
      if k < |visits| {
        assert vs[k] == visits[k];
      }
    }
  }

  /** The cron tasks of the visits, in order. */
  function CronTasksOf(vs: seq<Visit>): (r: seq<CronTask>)
    ensures |r| <= |vs|
  {
    if vs == [] then [] else (if vs[0].Armed? then [vs[0].task] else []) + CronTasksOf(vs[1..])
  }

  /** The sleeps of the visits' drives, in order. */
  function SleptDuring(vs: seq<Visit>): seq<int> {
    if vs == [] then [] else (if vs[0].Driven? then vs[0].result.slept else []) + SleptDuring(vs[1..])
  }

  lemma {:induction false} CronTasksOfAppend(vs: seq<Visit>, v: Visit)
    ensures CronTasksOf(vs + [v]) == CronTasksOf(vs) + (if v.Armed? then [v.task] else [])
  {
    if vs == [] {
      assert vs + [v] == [v];
    } else {
      CronTasksOfAppend(vs[1..], v);
      assert (vs + [v])[1..] == vs[1..] + [v];
      AppendAssociative(if vs[0].Armed? then [vs[0].task] else [], CronTasksOf(vs[1..]), if v.Armed? then [v.task] else []);
    }
  }

  lemma {:induction false} SleptDuringAppend(vs: seq<Visit>, v: Visit)
    ensures SleptDuring(vs + [v]) == SleptDuring(vs) + (if v.Driven? then v.result.slept else [])
  {
    if vs == [] {
      assert vs + [v] == [v];
    } else {
      SleptDuringAppend(vs[1..], v);
      assert (vs + [v])[1..] == vs[1..] + [v];
      AppendAssociative(if vs[0].Driven? then vs[0].result.slept else [], SleptDuring(vs[1..]), if v.Driven? then v.result.slept else []);
    }
  }

  /** When `vs` are the visits of `eps`: each endpoint that is not
      auto-started gets exactly one cron task, carrying its own cron
      expression, and auto-started ones get none. */
  lemma {:induction false} CronTasksOfVisits(ids: set<Option<string>>, eps: seq<StreamListenerEndpoint>, vs: seq<Visit>, scripts: map<StreamListenerEndpoint, seq<Collaborators>>)
    requires |vs| == |eps|
    requires forall k :: 0 <= k < |vs| ==> vs[k] == VisitOf(ids, eps[k], scripts)
    ensures var tasks := CronTasksOf(vs);
      && (forall t :: t in tasks ==> t.endpoint in eps && !t.endpoint.autoStartup && t.cron == t.endpoint.cron)
      && (forall e :: e in eps && !e.autoStartup ==> CronTask(e, e.cron) in tasks)
  {
    if eps != [] {
      CronTasksOfVisits(ids, eps[1..], vs[1..], scripts);
    }
  }

  /** The order in which iterating over a set of endpoints visits them:
      each member once. */
  method IterationOrder(s: set<StreamListenerEndpoint>) returns (order: seq<StreamListenerEndpoint>)
    ensures forall e :: e in order <==> e in s
    ensures forall j, k :: 0 <= j < k < |order| ==> order[j] != order[k]
  {
    order := [];
    var remaining := s;
    while remaining != {}
      invariant remaining <= s
      invariant forall e :: e in order <==> e in s && e !in remaining
      invariant forall j, k :: 0 <= j < k < |order| ==> order[j] != order[k]
      decreases remaining
    {
      var e :| e in remaining;
      order := order + [e];
      remaining := remaining - {e};
    }
  }

  class StreamEventPublisher {
    /** The ids of the endpoints being driven right now. */
    var endpointIds: set<Option<string>>
    /** The registered endpoints, by identity. */
    var endpoints: set<StreamListenerEndpoint>
    const executor: ScheduledExecutor
    var registrar: TaskRegistrar?
    /** The `Thread.sleep` calls made so far, by length in milliseconds. */
    var sleeps: seq<int>

    constructor (executor: ScheduledExecutor)
      ensures this.executor == executor
      ensures endpointIds == {} && endpoints == {} && registrar == null && sleeps == []
    {
      this.executor := executor;
      endpointIds, endpoints, registrar, sleeps := {}, {}, null, [];
    }

    /** registerStreamListenerEndpoint: adds the endpoint object to the set;
        registering it again changes nothing. */
    method RegisterStreamListenerEndpoint(endpoint: StreamListenerEndpoint)
      modifies this
      ensures endpoints == old(endpoints) + {endpoint}
      ensures endpointIds == old(endpointIds) && registrar == old(registrar) && sleeps == old(sleeps)
    {
      endpoints := endpoints + {endpoint};
    }

    /** sleepTill: sleeps for the delay, unless it is below one millisecond. */
    method SleepTill(delayInMillis: int)
      modifies this
      ensures sleeps == old(sleeps) + Slept(delayInMillis)
      ensures endpointIds == old(endpointIds) && endpoints == old(endpoints) && registrar == old(registrar)
    {
      if delayInMillis < 1 {
        return;
      }
      sleeps := sleeps + [delayInMillis];
    }

    /** publishEvent: take the endpoint's id (or give up if it is taken),
        run one cycle, release the id whether the cycle returned or threw,
        then stop, drive the endpoint again after `sleepTill(delay)`, or
        schedule one delayed task, as `Verdict` says. The self-call of the
        auto-started case is the next turn of the loop. */
    method PublishEvent(ep: StreamListenerEndpoint, script: seq<Collaborators>) returns (result: DriveResult)
      modifies this, executor
      ensures result == Publish(old(endpointIds), ep, ep.Snapshot(), script)
      ensures endpointIds == old(endpointIds)
      ensures sleeps == old(sleeps) + result.slept
      ensures executor.tasks == old(executor.tasks) + (if result.ending == Rescheduled then [DelayedTask(ep, ep.delay)] else [])
      ensures endpoints == old(endpoints) && registrar == old(registrar)
    {
      ghost var d := ep.Snapshot();
      ghost var steps := Cycles(ep, d, script);
      ghost var auto0, delay0 := ep.autoStartup, ep.delay;
      ghost var target := Drive(auto0, delay0, steps);
      ghost var expected := if ep.id in endpointIds then DriveResult([], [], Contended) else target;
      assert expected == Publish(endpointIds, ep, d, script);
      var cycles: seq<Step<bool>> := [];
      var slept: seq<int> := [];
      var i := 0;
      while true
        invariant 0 <= i <= |script|
        invariant endpointIds == old(endpointIds) && endpoints == old(endpoints) && registrar == old(registrar)
        invariant executor.tasks == old(executor.tasks)
        invariant sleeps == old(sleeps) + slept
        invariant i == 0 ==> cycles == [] && slept == []
        invariant i > 0 ==> ep.id !in endpointIds && auto0
        invariant i > 0 ==> target == Join(cycles, slept, Drive(auto0, delay0, steps[i..]))
        decreases |script| - i
      {
        var listenerId := ep.id;
        var autoStartup := ep.autoStartup;
        var delay := ep.delay;
        if listenerId in endpointIds {
          result := DriveResult(cycles, slept, Contended);
          break;
        }
        if i == |script| {
          result := DriveResult(cycles, slept, ScriptEnded);
          break;
        }
        var step := RunCycle(ep, script, i);
        DriveStep(auto0, delay0, steps, i);
        JoinJoin(cycles, slept, [step], Slept(delay), Drive(auto0, delay0, steps[i + 1..]));
        cycles := cycles + [step];
        match step.completion {
          case Raised(ex) =>
            result := DriveResult(cycles, slept, Propagated(ex));
            break;
          case Done(hasMore) =>
            if !hasMore {
              result := DriveResult(cycles, slept, Idle);
              break;
            }
            if autoStartup {
              SleepTill(delay);
              slept := slept + Slept(delay);
              i := i + 1;
            } else {
              executor.Schedule(ep, delay);
              result := DriveResult(cycles, slept, Rescheduled);
              break;
            }
        }
      }
      assert result == expected;
    }

    /** The guarded part of publishEvent: take the endpoint's id, run the
        `i`-th cycle of the script, and release the id whether the cycle
        returned or threw. */
    method RunCycle(ep: StreamListenerEndpoint, script: seq<Collaborators>, i: nat) returns (step: Step<bool>)
      requires i < |script| && ep.id !in endpointIds
      modifies this
      ensures step == Cycles(ep, ep.Snapshot(), script)[i]
      ensures endpointIds == old(endpointIds) && endpoints == old(endpoints)
      ensures registrar == old(registrar) && sleeps == old(sleeps)
    {
      var listenerId := ep.id;
      endpointIds := endpointIds + {listenerId};
      step := ExecuteEndpointMethod(ep, script[i]);
      endpointIds := endpointIds - {listenerId};
      CyclesAt(ep, ep.Snapshot(), script, i);
    }

    /** startup: store the registrar, then go through the registered
        endpoints in the set's iteration order: drive each auto-started one
        at once, and add a cron task with its cron expression for each
        other one. An exception out of a drive ends startup. `visited` is
        the order taken, `visits` what was done with each. */
    method Startup(reg: TaskRegistrar, scripts: map<StreamListenerEndpoint, seq<Collaborators>>)
      returns (visited: seq<StreamListenerEndpoint>, visits: seq<Visit>, failure: Option<Exception>)
      modifies this, executor, reg
      ensures registrar == reg
      ensures endpoints == old(endpoints) && endpointIds == old(endpointIds)
      ensures executor.tasks == old(executor.tasks)
      ensures forall k :: 0 <= k < |visited| ==> visited[k] in endpoints
      ensures forall j, k :: 0 <= j < k < |visited| ==> visited[j] != visited[k]
      ensures |visits| == |visited|
      ensures forall k :: 0 <= k < |visits| ==> visits[k] == VisitOf(endpointIds, visited[k], scripts)
      ensures forall k :: 0 <= k < |visits| - 1 ==> FailureOf(visits[k]).None?
      ensures failure == if visits == [] then None else FailureOf(visits[|visits| - 1])
      ensures failure.None? ==> forall e :: e in endpoints ==> e in visited
      ensures reg.cronTasks == old(reg.cronTasks) + CronTasksOf(visits)
      ensures sleeps == old(sleeps) + SleptDuring(visits)
    {
      registrar := reg;
      var order := IterationOrder(endpoints);
      visited, visits, failure := StartAll(reg, order, scripts);
      forall k | 0 <= k < |visited|
        ensures visited[k] == order[k]
      {
      }
    }

    /** Startup's loop over the endpoints in `order`, up to the first drive
        that throws. */
    method StartAll(reg: TaskRegistrar, order: seq<StreamListenerEndpoint>, scripts: map<StreamListenerEndpoint, seq<Collaborators>>)
      returns (visited: seq<StreamListenerEndpoint>, visits: seq<Visit>, failure: Option<Exception>)
      modifies this, executor, reg
      ensures registrar == old(registrar)
      ensures endpoints == old(endpoints) && endpointIds == old(endpointIds)
      ensures executor.tasks == old(executor.tasks)
      ensures |visited| <= |order| && visited == order[..|visited|]
      ensures |visits| == |visited|
      ensures forall k :: 0 <= k < |visits| ==> visits[k] == VisitOf(endpointIds, visited[k], scripts)
      ensures forall k :: 0 <= k < |visits| - 1 ==> FailureOf(visits[k]).None?
      ensures failure == if visits == [] then None else FailureOf(visits[|visits| - 1])
      ensures failure.None? ==> visited == order
      ensures reg.cronTasks == old(reg.cronTasks) + CronTasksOf(visits)
      ensures sleeps == old(sleeps) + SleptDuring(visits)
    {
      ghost var ids, tasks0, sleeps0 := endpointIds, reg.cronTasks, sleeps;
      visits, failure := [], None;
      var i := 0;
      while i < |order|
        invariant 0 <= i <= |order|
        invariant registrar == old(registrar)
        invariant endpoints == old(endpoints) && endpointIds == ids
        invariant executor.tasks == old(executor.tasks)
        invariant |visits| == i
        invariant VisitsFollow(ids, order, scripts, visits) && NoneFailed(visits)
        invariant failure.None?
        invariant reg.cronTasks == tasks0 + CronTasksOf(visits)
        invariant sleeps == sleeps0 + SleptDuring(visits)
      {
        var v := StartNext(reg, order[i], scripts, visits, tasks0, sleeps0);
        VisitsFollowAppend(ids, order, scripts, visits, v);
        if FailureOf(v).Some? {
          visits, i, failure := visits + [v], i + 1, FailureOf(v);
          break;
        }
        NoneFailedAppend(visits, v);
        visits, i := visits + [v], i + 1;
      }
      visited := order[..i];
    }

    /** One turn of startup's loop, keeping the account of what the turns
        so far did. */
    method StartNext(reg: TaskRegistrar, endpoint: StreamListenerEndpoint, scripts: map<StreamListenerEndpoint, seq<Collaborators>>,
                     ghost visits: seq<Visit>, ghost tasks0: seq<CronTask>, ghost sleeps0: seq<int>)
      returns (v: Visit)
      requires reg.cronTasks == tasks0 + CronTasksOf(visits)
      requires sleeps == sleeps0 + SleptDuring(visits)
      modifies this, executor, reg
      ensures endpointIds == old(endpointIds) && endpoints == old(endpoints) && registrar == old(registrar)
      ensures executor.tasks == old(executor.tasks)
      ensures v == VisitOf(endpointIds, endpoint, scripts)
      ensures reg.cronTasks == tasks0 + CronTasksOf(visits + [v])
      ensures sleeps == sleeps0 + SleptDuring(visits + [v])
    {
      v := StartEndpoint(reg, endpoint, scripts);
      CronTasksOfAppend(visits, v);
      SleptDuringAppend(visits, v);
      AppendAssociative(tasks0, CronTasksOf(visits), if v.Armed? then [v.task] else []);
      AppendAssociative(sleeps0, SleptDuring(visits), if v.Driven? then v.result.slept else []);
    }

    /** One turn of startup's loop: drive an auto-started endpoint, or add
        its cron task. */
    method StartEndpoint(reg: TaskRegistrar, endpoint: StreamListenerEndpoint, scripts: map<StreamListenerEndpoint, seq<Collaborators>>)
      returns (v: Visit)
      modifies this, executor, reg
      ensures v == VisitOf(endpointIds, endpoint, scripts)
      ensures endpointIds == old(endpointIds) && endpoints == old(endpoints) && registrar == old(registrar)
      ensures executor.tasks == old(executor.tasks)
      ensures reg.cronTasks == old(reg.cronTasks) + (if v.Armed? then [v.task] else [])
      ensures sleeps == old(sleeps) + (if v.Driven? then v.result.slept else [])
    {
      if endpoint.autoStartup {
        var r := PublishEvent(endpoint, ScriptOf(scripts, endpoint));
        DriveStopsAtFirstVerdict(endpoint.autoStartup, endpoint.delay, Cycles(endpoint, endpoint.Snapshot(), ScriptOf(scripts, endpoint)));
        v := Driven(r);
      } else {
        reg.AddCronTask(endpoint, endpoint.cron);
        v := Armed(CronTask(endpoint, endpoint.cron));
      }
    }

    /** destroy: destroys the registrar; before `startup` there is none and
        the call throws a NullPointerException. */
    method Destroy() returns (failure: Option<Exception>)
      modifies registrar
      ensures registrar == null ==> failure == Some(Exception("java.lang.NullPointerException", None))
      ensures registrar != null ==> failure == None && registrar.destroyed && registrar.cronTasks == old(registrar.cronTasks)
    {
      if registrar == null {
        return Some(Exception("java.lang.NullPointerException", None));
      }
      registrar.Destroy();
      failure := None;
    }
  }

  /** Endpoints are kept by identity: two endpoints with the same id are
      two members of the set. */
  method RegisterSameIdTwice(p: StreamEventPublisher, id: Option<string>) returns (a: StreamListenerEndpoint, b: StreamListenerEndpoint)
    modifies p
    ensures a != b && a.id == id && b.id == id
    ensures p.endpoints == old(p.endpoints) + {a, b}
    ensures a !in old(p.endpoints) && b !in old(p.endpoints)
  {
    a := new StreamListenerEndpoint();
    a.SetId(id);
    b := new StreamListenerEndpoint();
    b.SetId(id);
    p.RegisterStreamListenerEndpoint(a);
    p.RegisterStreamListenerEndpoint(b);
  }
}
