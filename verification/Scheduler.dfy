/** The scheduler of one MapReduce phase, as a state machine over its interleaved steps.

  The main loop pops tasks and hands each to a worker; one goroutine per call waits for the answer,
  puts a failed task back, or returns the worker to the channel.  Channel sends that nobody has
  received yet are the `offers`.  `CallFailed` and the `wg.Done` after it are separate steps, since
  the source releases its lock between them.
 */
module Scheduling {

  datatype Call = Call(worker: string, task: nat)

  datatype Main = Checking | Holding(task: nat) | Waiting | Returned

  datatype State = State(
    ntasks: nat, nfiles: nat,
    tasks: seq<nat>, main: Main,
    calls: seq<Call>,        // DoTask calls not yet answered
    requeued: nat,           // goroutines that put a task back but have not called wg.Done
    completed: seq<nat>,     // tasks whose call succeeded
    wg: int,
    workers: seq<string>,    // registered with the master
    forwarded: nat,          // how many of them the forwarder has offered
    offers: multiset<string>,
    lost: multiset<string>)  // workers whose call failed

  datatype Step =
    | Pop | Exit | Dispatch(worker: string)
    | CallSucceeded(call: nat) | CallFailed(call: nat) | Done | Return
    | Register(worker: string) | Forward

  function UpTo(n: nat): seq<nat> {
    seq(n, i requires 0 <= i => i)
  }

  function Init(ntasks: nat, nfiles: nat): State {
    State(ntasks, nfiles, UpTo(ntasks), Checking, [], 0, [], 0, [], 0, multiset{}, multiset{})
  }

  predicate Enabled(s: State, step: Step) {
    match step
    case Pop => s.main == Checking && s.tasks != []
    case Exit => s.main == Checking && s.tasks == []
    case Dispatch(w) => s.main.Holding? && w in s.offers
    case CallSucceeded(c) => c < |s.calls|
    case CallFailed(c) => c < |s.calls|
    case Done => s.requeued > 0
    case Return => s.main == Waiting && s.wg == 0
    case Register(_) => true
    case Forward => s.forwarded < |s.workers|
  }

  function Without<T>(xs: seq<T>, i: nat): seq<T>
    requires i < |xs|
  {
    xs[..i] + xs[i + 1..]
  }

  function Do(s: State, step: Step): State
    requires Enabled(s, step)
  {
    match step
    case Pop => s.(main := Holding(s.tasks[0]), tasks := s.tasks[1..])
    case Exit => s.(main := Waiting)
    case Dispatch(w) =>
      s.(main := Checking, offers := s.offers - multiset{w}, calls := s.calls + [Call(w, s.main.task)], wg := s.wg + 1)
    case CallSucceeded(c) =>
      s.(calls := Without(s.calls, c), completed := s.completed + [s.calls[c].task], wg := s.wg - 1,
         offers := s.offers + multiset{s.calls[c].worker})
    case CallFailed(c) =>
      s.(calls := Without(s.calls, c), tasks := s.tasks + [s.calls[c].task], requeued := s.requeued + 1,
         lost := s.lost + multiset{s.calls[c].worker})
    case Done => s.(requeued := s.requeued - 1, wg := s.wg - 1)
    case Return => s.(main := Returned)
    case Register(w) => s.(workers := s.workers + [w])
    case Forward => s.(forwarded := s.forwarded + 1, offers := s.offers + multiset{s.workers[s.forwarded]})
  }

  /** The states of a run and the steps between them. */
  datatype Run = Run(states: seq<State>, steps: seq<Step>)

  ghost predicate Takes(r: Run, k: nat)
    requires k < |r.steps| && |r.states| == |r.steps| + 1
  {
    Enabled(r.states[k], r.steps[k]) && r.states[k + 1] == Do(r.states[k], r.steps[k])
  }

  ghost predicate IsRun(ntasks: nat, nfiles: nat, r: Run) {
    && |r.states| == |r.steps| + 1 && r.states[0] == Init(ntasks, nfiles)
    && forall k :: 0 <= k < |r.steps| ==> Takes(r, k)
  }

  // ---------------------------------------------------------------- invariant

  function Tasks(calls: seq<Call>): seq<nat> {
    seq(|calls|, i requires 0 <= i < |calls| => calls[i].task)
  }

  function Workers(calls: seq<Call>): seq<string> {
    seq(|calls|, i requires 0 <= i < |calls| => calls[i].worker)
  }

  function Held(m: Main): multiset<nat> {
    if m.Holding? then multiset{m.task} else multiset{}
  }

  /** Every task is in exactly one place: queued, held, in flight or completed. */
  ghost predicate TasksConserved(s: State) {
    multiset(s.tasks) + Held(s.main) + multiset(Tasks(s.calls)) + multiset(s.completed) == multiset(UpTo(s.ntasks))
  }

  /** Every forwarded worker is in exactly one place: offered, working or lost. */
  ghost predicate WorkersConserved(s: State) {
    s.forwarded <= |s.workers| &&
    s.offers + multiset(Workers(s.calls)) + s.lost == multiset(s.workers[..s.forwarded])
  }

  ghost predicate Inv(s: State) {
    && TasksConserved(s) && WorkersConserved(s)
    && s.wg == |s.calls| + s.requeued
    && (s.main == Returned ==> s.calls == [] && s.requeued == 0)
  }

  lemma WithoutTakesOne<T>(xs: seq<T>, i: nat)
    requires i < |xs|
    ensures multiset(xs) == multiset(Without(xs, i)) + multiset{xs[i]}
  {
    assert xs == xs[..i] + [xs[i]] + xs[i + 1..];
  }

  lemma AnsweredCall(calls: seq<Call>, c: nat)
    requires c < |calls|
    ensures multiset(Tasks(calls)) == multiset(Tasks(Without(calls, c))) + multiset{calls[c].task}
    ensures multiset(Workers(calls)) == multiset(Workers(Without(calls, c))) + multiset{calls[c].worker}
  {
    WithoutTakesOne(Tasks(calls), c);
    WithoutTakesOne(Workers(calls), c);
    assert Tasks(Without(calls, c)) == Without(Tasks(calls), c);
    assert Workers(Without(calls, c)) == Without(Workers(calls), c);
  }

  lemma PopKeepsTasks(s: State)
    requires TasksConserved(s) && Enabled(s, Pop)
    ensures TasksConserved(Do(s, Pop))
  {
    assert s.tasks == [s.tasks[0]] + s.tasks[1..];
  }

  lemma DispatchKeepsTasks(s: State, w: string)
    requires TasksConserved(s) && Enabled(s, Dispatch(w))
    ensures TasksConserved(Do(s, Dispatch(w)))
  {
    assert Tasks(s.calls + [Call(w, s.main.task)]) == Tasks(s.calls) + [s.main.task];
  }

  lemma SuccessKeepsTasks(s: State, c: nat)
    requires TasksConserved(s) && c < |s.calls|
    ensures TasksConserved(Do(s, CallSucceeded(c)))
  {
    hide Tasks, Without;
    AnsweredCall(s.calls, c);
  }

  lemma FailureKeepsTasks(s: State, c: nat)
    requires TasksConserved(s) && c < |s.calls|
    ensures TasksConserved(Do(s, CallFailed(c)))
  {
    hide Tasks, Without;
    AnsweredCall(s.calls, c);
  }

  lemma StepKeepsTasks(s: State, step: Step)
    requires TasksConserved(s) && Enabled(s, step)
    ensures TasksConserved(Do(s, step))
  {
    match step
    case Pop => PopKeepsTasks(s);
    case Dispatch(w) => DispatchKeepsTasks(s, w);
    case CallSucceeded(c) => SuccessKeepsTasks(s, c);
    case CallFailed(c) => FailureKeepsTasks(s, c);
    case Exit =>
    case Done =>
    case Return =>
    case Register(_) =>
    case Forward =>
  }

  lemma DispatchKeepsWorkers(s: State, w: string)
    requires WorkersConserved(s) && Enabled(s, Dispatch(w))
    ensures WorkersConserved(Do(s, Dispatch(w)))
  {
    assert Workers(s.calls + [Call(w, s.main.task)]) == Workers(s.calls) + [w];
    assert s.offers == s.offers - multiset{w} + multiset{w};
  }

  lemma SuccessKeepsWorkers(s: State, c: nat)
    requires WorkersConserved(s) && c < |s.calls|
    ensures WorkersConserved(Do(s, CallSucceeded(c)))
  {
    hide Workers, Without, Tasks;
    AnsweredCall(s.calls, c);
  }

  lemma FailureKeepsWorkers(s: State, c: nat)
    requires WorkersConserved(s) && c < |s.calls|
    ensures WorkersConserved(Do(s, CallFailed(c)))
  {
    hide Workers, Without, Tasks;
    AnsweredCall(s.calls, c);
  }

  lemma StepKeepsWorkers(s: State, step: Step)
    requires WorkersConserved(s) && Enabled(s, step)
    ensures WorkersConserved(Do(s, step))
  {
    hide Workers, Without;
    match step
    case Dispatch(w) => DispatchKeepsWorkers(s, w);
    case CallSucceeded(c) => SuccessKeepsWorkers(s, c);
    case CallFailed(c) => FailureKeepsWorkers(s, c);
    case Register(w) => assert (s.workers + [w])[..s.forwarded] == s.workers[..s.forwarded];
    case Forward => assert s.workers[..s.forwarded + 1] == s.workers[..s.forwarded] + [s.workers[s.forwarded]];
    case Pop =>
    case Exit =>
    case Done =>
    case Return =>
  }

  lemma StepInv(s: State, step: Step)
    requires Inv(s) && Enabled(s, step)
    ensures Inv(Do(s, step)) && Do(s, step).ntasks == s.ntasks && Do(s, step).nfiles == s.nfiles
  {
    hide TasksConserved, WorkersConserved;
    StepKeepsTasks(s, step);
    StepKeepsWorkers(s, step);
  }

  lemma InitInv(ntasks: nat, nfiles: nat)
    ensures Inv(Init(ntasks, nfiles))
  {
    assert Tasks([]) == [] && Workers([]) == [];
  }

  lemma {:induction false} RunInv(ntasks: nat, nfiles: nat, r: Run, a: nat)
    requires IsRun(ntasks, nfiles, r) && a < |r.states|
    ensures Inv(r.states[a]) && r.states[a].ntasks == ntasks && r.states[a].nfiles == nfiles
  {
    hide Inv, Do, Enabled;
    if a == 0 {
      InitInv(ntasks, nfiles);
    } else {
      RunInv(ntasks, nfiles, r, a - 1);
      assert Takes(r, a - 1);
      StepInv(r.states[a - 1], r.steps[a - 1]);
    }
  }

  // ---------------------------------------------------------------- guarantees

  lemma {:induction false} OnceEach(n: nat, t: nat)
    ensures multiset(UpTo(n))[t] == if t < n then 1 else 0
  {
    if n == 0 {
      assert UpTo(0) == [];
    } else {
      assert UpTo(n) == UpTo(n - 1) + [n - 1];
      OnceEach(n - 1, t);
    }
  }

  /** Task conservation: at every point of every run each task below ntasks is in exactly one of
      the four places, and nothing else is anywhere. */
  lemma EachTaskOnce(ntasks: nat, nfiles: nat, r: Run, a: nat, t: nat)
    requires IsRun(ntasks, nfiles, r) && a < |r.states|
    ensures var s := r.states[a];
      multiset(s.tasks)[t] + Held(s.main)[t] + multiset(Tasks(s.calls))[t] + multiset(s.completed)[t]
      == if t < ntasks then 1 else 0
  {
    hide IsRun;
    RunInv(ntasks, nfiles, r, a);
    OnceEach(ntasks, t);
  }

  /** Worker exclusivity: with distinct registered names, a worker is offered or busy at most once,
      so it never has two calls outstanding. */
  lemma WorkerExclusive(ntasks: nat, nfiles: nat, r: Run, a: nat, w: string)
    requires IsRun(ntasks, nfiles, r) && a < |r.states|
    requires forall i, j :: 0 <= i < j < |r.states[a].workers| ==> r.states[a].workers[i] != r.states[a].workers[j]
    ensures var s := r.states[a];
      && s.offers[w] + multiset(Workers(s.calls))[w] <= 1
      && forall i, j :: 0 <= i < j < |s.calls| ==> !(s.calls[i].worker == w && s.calls[j].worker == w)
  {
    hide IsRun;
    RunInv(ntasks, nfiles, r, a);
    var s := r.states[a];
    DistinctOnce(s.workers[..s.forwarded], w);
    AtMostOnce(Workers(s.calls), w);
    assert forall i :: 0 <= i < |s.calls| ==> Workers(s.calls)[i] == s.calls[i].worker;
  }

  lemma {:induction false} LostStays(ntasks: nat, nfiles: nat, r: Run, k: nat, a: nat, call: nat)
    requires IsRun(ntasks, nfiles, r) && k < a < |r.states| && r.steps[k] == CallFailed(call) && call < |r.states[k].calls|
    ensures r.states[k].calls[call].worker in r.states[a].lost
    decreases a
  {
    assert Takes(r, a - 1);
    if k < a - 1 {
      LostStays(ntasks, nfiles, r, k, a - 1, call);
    }
  }

  /** A worker whose call has failed is given nothing more: with distinct names it is never offered or
      called again. */
  lemma FailedWorkerUnused(ntasks: nat, nfiles: nat, r: Run, k: nat, a: nat, call: nat)
    requires IsRun(ntasks, nfiles, r) && k < a < |r.states| && r.steps[k] == CallFailed(call) && call < |r.states[k].calls|
    requires forall i, j :: 0 <= i < j < |r.states[a].workers| ==> r.states[a].workers[i] != r.states[a].workers[j]
    ensures var w := r.states[k].calls[call].worker;
      w !in r.states[a].offers && forall c :: 0 <= c < |r.states[a].calls| ==> r.states[a].calls[c].worker != w
  {
    hide IsRun;
    LostStays(ntasks, nfiles, r, k, a, call);
    RunInv(ntasks, nfiles, r, a);
    var s, w := r.states[a], r.states[k].calls[call].worker;
    DistinctOnce(s.workers[..s.forwarded], w);
    assert w !in multiset(Workers(s.calls));
    assert forall c :: 0 <= c < |s.calls| ==> Workers(s.calls)[c] == s.calls[c].worker;
  }

  lemma AtMostOnce<T>(xs: seq<T>, x: T)
    requires multiset(xs)[x] <= 1
    ensures forall i, j :: 0 <= i < j < |xs| ==> !(xs[i] == x && xs[j] == x)
  {
    forall i, j | 0 <= i < j < |xs|
      ensures !(xs[i] == x && xs[j] == x)
    {
      if xs[i] == x && xs[j] == x {
        CountTwo(xs, i, j);
        assert false;
      }
    }
  }

  lemma CountTwo<T>(xs: seq<T>, i: nat, j: nat)
    requires i < j < |xs| && xs[i] == xs[j]
    ensures multiset(xs)[xs[i]] >= 2
  {
    assert xs == xs[..j] + [xs[j]] + xs[j + 1..];
    assert xs[i] in multiset(xs[..j]) by { assert xs[..j][i] == xs[i]; }
  }

  lemma {:induction false} DistinctOnce<T>(xs: seq<T>, x: T)
    requires forall i, j :: 0 <= i < j < |xs| ==> xs[i] != xs[j]
    ensures multiset(xs)[x] <= 1
  {
    if xs != [] {
      var n := |xs| - 1;
      assert xs == xs[..n] + [xs[n]];
      DistinctOnce(xs[..n], x);
      assert xs[n] !in xs[..n];
    }
  }

  /** What the main loop takes from the queue between two moments, in order. */
  ghost function Popped(r: Run, a: nat, b: nat): seq<nat>
    requires a <= b < |r.states| && |r.states| == |r.steps| + 1 && forall k :: 0 <= k < |r.steps| ==> Takes(r, k)
    decreases b
  {
    if a == b then []
    else
      assert Takes(r, b - 1);
      Popped(r, a, b - 1) + (if r.steps[b - 1].Pop? then [r.states[b - 1].tasks[0]] else [])
  }

  /** What failed calls put back between two moments, in order. */
  ghost function PutBack(r: Run, a: nat, b: nat): seq<nat>
    requires a <= b < |r.states| && |r.states| == |r.steps| + 1 && forall k :: 0 <= k < |r.steps| ==> Takes(r, k)
    decreases b
  {
    if a == b then []
    else
      assert Takes(r, b - 1);
      PutBack(r, a, b - 1)
      + (if r.steps[b - 1].CallFailed? then [r.states[b - 1].calls[r.steps[b - 1].call].task] else [])
  }

  /** First in, first out: what was queued and what was put back since is what has been taken since and
      what is queued, in the same order.  A failed call goes to the end of the queue. */
  lemma {:induction false} FirstInFirstOut(ntasks: nat, nfiles: nat, r: Run, a: nat, b: nat)
    requires IsRun(ntasks, nfiles, r) && a <= b < |r.states|
    ensures r.states[a].tasks + PutBack(r, a, b) == Popped(r, a, b) + r.states[b].tasks
    decreases b
  {
    if a < b {
      FirstInFirstOut(ntasks, nfiles, r, a, b - 1);
      assert Takes(r, b - 1);
      var s, s' := r.states[b - 1], r.states[b];
      var taken, back := Popped(r, a, b - 1), PutBack(r, a, b - 1);
      if r.steps[b - 1].Pop? {
        assert s.tasks == [s.tasks[0]] + s'.tasks;
        assert taken + s.tasks == taken + [s.tasks[0]] + s'.tasks;
      } else if r.steps[b - 1].CallFailed? {
        var t := s.calls[r.steps[b - 1].call].task;
        assert r.states[a].tasks + (back + [t]) == taken + s.tasks + [t];
      } else {
        assert s'.tasks == s.tasks && taken + [] == taken && back + [] == back;
      }
    }
  }

  /** The i-th step is a call failing after the main loop had seen an empty queue. */
  ghost predicate LateFailure(r: Run, i: nat) {
    i < |r.steps| && i < |r.states| && r.steps[i].CallFailed? && r.states[i].main == Waiting
  }

  ghost predicate Left(m: Main) {
    m == Waiting || m == Returned
  }

  ghost predicate NoLateFailure(r: Run, a: nat) {
    forall i :: 0 <= i < a ==> !LateFailure(r, i)
  }

  /** What one step does to the queue once the loop has ended. */
  lemma QueueStep(s: State, step: Step)
    requires Inv(s) && Enabled(s, step)
    ensures Left(s.main) ==> Left(Do(s, step).main)
    ensures Left(Do(s, step).main) && !Left(s.main) ==> Do(s, step).tasks == [] && !step.CallFailed?
    ensures Left(s.main) ==> (Do(s, step).tasks == [] <==> s.tasks == [] && !(step.CallFailed? && s.main == Waiting))
  {
    hide TasksConserved, WorkersConserved;
  }

  /** Once the loop has ended the queue is empty exactly if no call has failed since. */
  lemma {:induction false} QueueWhileWaiting(ntasks: nat, nfiles: nat, r: Run, a: nat)
    requires IsRun(ntasks, nfiles, r) && a < |r.states|
    ensures Left(r.states[a].main) ==> (r.states[a].tasks == [] <==> NoLateFailure(r, a))
    ensures !Left(r.states[a].main) ==> NoLateFailure(r, a)
  {
    hide Inv, Do, Enabled;
    if a > 0 {
      QueueWhileWaiting(ntasks, nfiles, r, a - 1);
      RunInv(ntasks, nfiles, r, a - 1);
      assert Takes(r, a - 1);
      QueueStep(r.states[a - 1], r.steps[a - 1]);
      assert NoLateFailure(r, a) <==> NoLateFailure(r, a - 1) && !LateFailure(r, a - 1);
    }
  }

  /** When schedule returns, nothing is in flight, and all tasks are completed if and only if no
      call failed after the loop's last look at the queue.  Every task that is not completed is
      still in the queue. */
  lemma ReturnsCompleteIffNoLateFailure(ntasks: nat, nfiles: nat, r: Run, a: nat)
    requires IsRun(ntasks, nfiles, r) && a < |r.states| && r.states[a].main == Returned
    ensures var s := r.states[a];
      && s.calls == [] && multiset(s.tasks) + multiset(s.completed) == multiset(UpTo(ntasks))
      && (multiset(s.completed) == multiset(UpTo(ntasks)) <==> NoLateFailure(r, a))
  {
    hide IsRun, NoLateFailure;
    RunInv(ntasks, nfiles, r, a);
    QueueWhileWaiting(ntasks, nfiles, r, a);
    var s := r.states[a];
    assert Tasks([]) == [];
    assert s.tasks == [] <==> |multiset(s.tasks)| == 0;
  }

  /** The run ends in the state. */
  ghost predicate Reached(ntasks: nat, nfiles: nat, r: Run, s: State) {
    IsRun(ntasks, nfiles, r) && r.states[|r.steps|] == s
  }

  lemma ReachedIsRun(ntasks: nat, nfiles: nat, r: Run, s: State)
    requires Reached(ntasks, nfiles, r, s)
    ensures IsRun(ntasks, nfiles, r) && |r.states| == |r.steps| + 1 && r.states[|r.steps|] == s
  {
  }

  lemma Begins(ntasks: nat, nfiles: nat, r: Run)
    requires r == Run([Init(ntasks, nfiles)], [])
    ensures Reached(ntasks, nfiles, r, Init(ntasks, nfiles))
  {
  }

  /** A run that has reached a state goes on with any step enabled there. */
  lemma Take(ntasks: nat, nfiles: nat, r: Run, s: State, step: Step) returns (r': Run, s': State)
    requires Reached(ntasks, nfiles, r, s) && Enabled(s, step)
    ensures Reached(ntasks, nfiles, r', s') && s' == Do(s, step)
    ensures r.states <= r'.states && r'.steps == r.steps + [step]
  {
    hide Enabled, Do;
    s' := Do(s, step);
    r' := Run(r.states + [s'], r.steps + [step]);
    forall k | 0 <= k < |r'.steps|
      ensures Takes(r', k)
    {
      assert k < |r.steps| ==> Takes(r, k);
    }
  }

  /** schedule can return with a task undone: its only worker fails after the loop has ended. */
  lemma MayReturnIncomplete() returns (r: Run, s: State)
    ensures Reached(1, 1, r, s) && s.main == Returned && s.completed == [] && s.tasks == [0]
  {
    hide Reached;
    r, s := CanReach(1, 1, 0);
    assert UpTo(1)[1..] == [];
    r, s := Take(1, 1, r, s, Dispatch("w"));
    r, s := Take(1, 1, r, s, Exit);
    r, s := Take(1, 1, r, s, CallFailed(0));
    r, s := Take(1, 1, r, s, Done);
    r, s := Take(1, 1, r, s, Return);
  }

  // ---------------------------------------------------------------- indexing the input files

  /** Dispatching evaluates mapFiles[task], in the reduce phase as well. */
  ghost predicate IndexesFiles(s: State) {
    s.main.Holding? ==> s.main.task < s.nfiles
  }

  lemma HeldIsTask(ntasks: nat, nfiles: nat, r: Run, s: State)
    requires Reached(ntasks, nfiles, r, s)
    ensures s.nfiles == nfiles && (s.main.Holding? ==> s.main.task < ntasks)
  {
    RunInv(ntasks, nfiles, r, |r.steps|);
    if s.main.Holding? {
      EachTaskOnce(ntasks, nfiles, r, |r.steps|, s.main.task);
      assert Held(s.main)[s.main.task] == 1;
    }
  }

  /** One worker can carry the main loop to any task. */
  lemma {:induction false} CanReach(ntasks: nat, nfiles: nat, t: nat) returns (r: Run, s: State)
    requires t < ntasks
    ensures Reached(ntasks, nfiles, r, s)
    ensures s.main == Holding(t) && s.tasks == UpTo(ntasks)[t + 1..] && s.completed == UpTo(t)
    ensures s.calls == [] && s.wg == 0 && s.requeued == 0 && "w" in s.offers
  {
    hide Reached;
    if t == 0 {
      s := Init(ntasks, nfiles);
      r := Run([s], []);
      Begins(ntasks, nfiles, r);
      r, s := Take(ntasks, nfiles, r, s, Register("w"));
      r, s := Take(ntasks, nfiles, r, s, Forward);
      r, s := Take(ntasks, nfiles, r, s, Pop);
    } else {
      r, s := CanReach(ntasks, nfiles, t - 1);
      assert UpTo(ntasks)[t..][0] == t;
      r, s := Take(ntasks, nfiles, r, s, Dispatch("w"));
      r, s := Take(ntasks, nfiles, r, s, CallSucceeded(0));
      r, s := Take(ntasks, nfiles, r, s, Pop);
      assert UpTo(ntasks)[t..][1..] == UpTo(ntasks)[t + 1..];
    }
  }

  /** The scheduler never indexes the file list out of range if and only if there are at least as
      many input files as tasks; in the reduce phase, if nReduce does not exceed the file count. */
  lemma NoPanicIffEnoughFiles(ntasks: nat, nfiles: nat)
    ensures ntasks <= nfiles <==> forall r: Run, s: State :: Reached(ntasks, nfiles, r, s) ==> IndexesFiles(s)
  {
    hide Reached;
    forall r: Run, s: State | Reached(ntasks, nfiles, r, s) && ntasks <= nfiles
      ensures IndexesFiles(s)
    {
      HeldIsTask(ntasks, nfiles, r, s);
    }
    if ntasks > nfiles {
      var r, s := CanReach(ntasks, nfiles, nfiles);
      HeldIsTask(ntasks, nfiles, r, s);
      assert !IndexesFiles(s);
    }
  }

  // ---------------------------------------------------------------- the shared variables

  /** The variables the main loop and the goroutines share, and their critical sections. */
  class Scheduler {
    ghost var state: State
    var tasks: seq<nat>
    var wg: int

    ghost predicate Valid()
      reads this
    {
      tasks == state.tasks && wg == state.wg
    }

    constructor (ntasks: nat, ghost nfiles: nat)
      ensures Valid() && state == Init(ntasks, nfiles)
    {
      wg := 0;
      state := Init(ntasks, nfiles);
      tasks := [];
      new;
      var i := 0;
      while i < ntasks
        invariant 0 <= i <= ntasks && tasks == UpTo(i) && wg == 0 && state == Init(ntasks, nfiles)
      {
        tasks := tasks + [i];
        i := i + 1;
      }
    }

    /** The locked section at the head of the loop: take the next task, or leave the loop. */
    method NextTask() returns (more: bool, task: nat)
      requires Valid() && state.main == Checking
      modifies this
      ensures Valid() && more == (old(tasks) != [])
      ensures more ==> state == Do(old(state), Pop) && state.main == Holding(task)
      ensures !more ==> state == Do(old(state), Exit)
    {
      more, task := false, 0;
      if |tasks| <= 0 {
        state := Do(state, Exit);
        return;
      }
      more, task := true, tasks[0];
      tasks := tasks[1..];
      state := Do(state, Pop);
    }

    /** A worker has been received from the channel; its call starts. */
    method StartCall(worker: string)
      requires Valid() && Enabled(state, Dispatch(worker))
      modifies this
      ensures Valid() && state == Do(old(state), Dispatch(worker))
    {
      wg := wg + 1;
      state := Do(state, Dispatch(worker));
    }

    /** A failed call: the locked section that puts its work back into the queue. */
    method Requeue(ghost call: nat, task: nat)
      requires Valid() && call < |state.calls| && state.calls[call].task == task
      modifies this
      ensures Valid() && state == Do(old(state), CallFailed(call))
    {
      tasks := tasks + [task];
      state := Do(state, CallFailed(call));
    }

    /** The wg.Done of a goroutine that has put its work back, under no lock. */
    method GiveUp()
      requires Valid() && state.requeued > 0
      modifies this
      ensures Valid() && state == Do(old(state), Done)
    {
      wg := wg - 1;
      state := Do(state, Done);
    }

    /** A successful call: the goroutine is done and offers its worker again. */
    method Succeed(ghost call: nat)
      requires Valid() && call < |state.calls|
      modifies this
      ensures Valid() && state == Do(old(state), CallSucceeded(call))
    {
      wg := wg - 1;
      state := Do(state, CallSucceeded(call));
    }
  }
}
