/** A phase run by workers, with the files they write, and a job of two such phases.

  A worker executes its call file by file.  A call may fail at the master at any point of this, and
  then its work is queued again, while the worker may go on writing: any call ever started can write
  any of its files at any later time.  A call only succeeds once it has written all its files.
  What a file of a piece of work may contain is given by a predicate, since executing the same
  reduction twice need not give the same output.  A file is written as a whole.
 */
module Distributed {
  import opened MapReduce
  import Scheduling

  datatype Phase<V> = Phase(
    sched: Scheduling.State,
    store: Store<V>,             // files, by task number and file number
    progress: seq<set<nat>>,     // files written so far, by outstanding call
    started: set<nat>)           // everything ever handed to a worker

  datatype Event<V> =
    | Schedule(step: Scheduling.Step)
    | Write(call: nat, file: nat, contents: V)
    | Straggle(owner: nat, file: nat, contents: V)

  type Store<V> = map<(nat, nat), V>

  function Begin<V>(ntasks: nat, nfiles: nat): Phase<V> {
    Phase(Scheduling.Init(ntasks, nfiles), map[], [], {})
  }

  ghost predicate CanHappen<V>(p: Phase<V>, e: Event<V>, width: nat, right: (nat, nat, V) -> bool) {
    |p.progress| == |p.sched.calls| &&
    match e
    case Schedule(step) =>
      && Scheduling.Enabled(p.sched, step)
      && (step.CallSucceeded? ==> forall f :: 0 <= f < width ==> f in p.progress[step.call])
    case Write(c, f, v) => c < |p.sched.calls| && f < width && right(p.sched.calls[c].task, f, v)
    case Straggle(t, f, v) => t in p.started && f < width && right(t, f, v)
  }

  function Scheduled<V>(p: Phase<V>, step: Scheduling.Step): Phase<V>
    requires Scheduling.Enabled(p.sched, step) && |p.progress| == |p.sched.calls|
  {
    var q := p.(sched := Scheduling.Do(p.sched, step));
    match step
    case Dispatch(_) => q.(progress := p.progress + [{}], started := p.started + {p.sched.main.task})
    case CallSucceeded(c) => q.(progress := Scheduling.Without(p.progress, c))
    case CallFailed(c) => q.(progress := Scheduling.Without(p.progress, c))
    case _ => q
  }

  ghost function Happen<V>(p: Phase<V>, e: Event<V>, width: nat, right: (nat, nat, V) -> bool): Phase<V>
    requires CanHappen(p, e, width, right)
  {
    match e
    case Schedule(step) => Scheduled(p, step)
    case Write(c, f, v) =>
      p.(store := p.store[(p.sched.calls[c].task, f) := v], progress := p.progress[c := p.progress[c] + {f}])
    case Straggle(t, f, v) => p.(store := p.store[(t, f) := v])
  }

  datatype Trace<V> = Trace(states: seq<Phase<V>>, events: seq<Event<V>>)

  ghost predicate Takes<V>(r: Trace<V>, k: nat, width: nat, right: (nat, nat, V) -> bool)
    requires k < |r.events| && |r.states| == |r.events| + 1
  {
    CanHappen(r.states[k], r.events[k], width, right) && r.states[k + 1] == Happen(r.states[k], r.events[k], width, right)
  }

  ghost predicate IsTrace<V>(ntasks: nat, nfiles: nat, width: nat, right: (nat, nat, V) -> bool, r: Trace<V>) {
    && |r.states| == |r.events| + 1 && r.states[0] == Begin(ntasks, nfiles)
    && forall k :: 0 <= k < |r.events| ==> Takes(r, k, width, right)
  }

  // ---------------------------------------------------------------- files

  ghost predicate Stored<V>(store: Store<V>, t: nat, f: nat, right: (nat, nat, V) -> bool) {
    (t, f) in store && right(t, f, store[(t, f)])
  }

  ghost predicate AllStored<V>(store: Store<V>, t: nat, width: nat, right: (nat, nat, V) -> bool) {
    forall f :: 0 <= f < width ==> Stored(store, t, f, right)
  }

  ghost predicate FilesOk<V>(p: Phase<V>, width: nat, right: (nat, nat, V) -> bool) {
    && |p.progress| == |p.sched.calls|
    && (forall t, f :: (t, f) in p.store ==> Stored(p.store, t, f, right))
    && (forall c, f :: 0 <= c < |p.progress| && f in p.progress[c] ==> Stored(p.store, p.sched.calls[c].task, f, right))
    && (forall x :: 0 <= x < |p.sched.completed| ==> AllStored(p.store, p.sched.completed[x], width, right))
  }

  lemma WriteKeeps<V>(store: Store<V>, t: nat, f: nat, v: V, width: nat, right: (nat, nat, V) -> bool)
    requires right(t, f, v)
    ensures Stored(store[(t, f) := v], t, f, right)
    ensures forall u, g :: Stored(store, u, g, right) ==> Stored(store[(t, f) := v], u, g, right)
    ensures forall u: nat :: AllStored(store, u, width, right) ==> AllStored(store[(t, f) := v], u, width, right)
  {
    var store' := store[(t, f) := v];
    forall u: nat | AllStored(store, u, width, right)
      ensures AllStored(store', u, width, right)
    {
      forall g | 0 <= g < width
        ensures Stored(store', u, g, right)
      {
        assert Stored(store, u, g, right);
      }
    }
  }

  lemma HappenKeeps<V>(p: Phase<V>, e: Event<V>, width: nat, right: (nat, nat, V) -> bool)
    requires FilesOk(p, width, right) && CanHappen(p, e, width, right)
    ensures FilesOk(Happen(p, e, width, right), width, right)
  {
    match e
    case Schedule(step) => ScheduleKeeps(p, step, width, right);
    case Write(c, f, v) => WriteKeeps(p.store, p.sched.calls[c].task, f, v, width, right);
    case Straggle(t, f, v) => WriteKeeps(p.store, t, f, v, width, right);
  }

  /** An answered call takes its progress with it. */
  lemma AnswerKeeps<V>(p: Phase<V>, c: nat, d: nat, f: nat, width: nat, right: (nat, nat, V) -> bool)
    requires FilesOk(p, width, right) && c < |p.progress| && d < |p.progress| - 1 && f in Scheduling.Without(p.progress, c)[d]
    ensures Stored(p.store, Scheduling.Without(p.sched.calls, c)[d].task, f, right)
  {
    hide Stored, AllStored;
    var o := if d < c then d else d + 1;
    assert f in p.progress[o] && Scheduling.Without(p.sched.calls, c)[d] == p.sched.calls[o];
  }

  lemma AnsweredKeeps<V>(p: Phase<V>, q: Phase<V>, c: nat, width: nat, right: (nat, nat, V) -> bool)
    requires FilesOk(p, width, right) && c < |p.progress| && q.store == p.store
    requires q.progress == Scheduling.Without(p.progress, c) && q.sched.calls == Scheduling.Without(p.sched.calls, c)
    requires forall x :: 0 <= x < |q.sched.completed| ==> AllStored(q.store, q.sched.completed[x], width, right)
    ensures FilesOk(q, width, right)
  {
    hide Stored, AllStored;
    forall d, f | 0 <= d < |q.progress| && f in q.progress[d]
      ensures Stored(q.store, q.sched.calls[d].task, f, right)
    {
      AnswerKeeps(p, c, d, f, width, right);
    }
  }

  lemma WroteAll<V>(p: Phase<V>, c: nat, width: nat, right: (nat, nat, V) -> bool)
    requires FilesOk(p, width, right) && c < |p.progress| && forall f :: 0 <= f < width ==> f in p.progress[c]
    ensures AllStored(p.store, p.sched.calls[c].task, width, right)
  {
    hide Stored;
  }

  lemma ScheduleKeeps<V>(p: Phase<V>, step: Scheduling.Step, width: nat, right: (nat, nat, V) -> bool)
    requires FilesOk(p, width, right) && CanHappen(p, Schedule(step), width, right)
    ensures FilesOk(Scheduled(p, step), width, right)
  {
    hide Stored, AllStored, Scheduling.Without;
    var q := Scheduled(p, step);
    if step.CallSucceeded? {
      WroteAll(p, step.call, width, right);
      AnsweredKeeps(p, q, step.call, width, right);
    } else if step.CallFailed? {
      AnsweredKeeps(p, q, step.call, width, right);
    }
  }

  lemma {:induction false} TraceFiles<V>(ntasks: nat, nfiles: nat, width: nat, right: (nat, nat, V) -> bool, r: Trace<V>, a: nat)
    requires IsTrace(ntasks, nfiles, width, right, r) && a < |r.states|
    ensures FilesOk(r.states[a], width, right)
  {
    hide CanHappen, Happen;
    if a > 0 {
      TraceFiles(ntasks, nfiles, width, right, r, a - 1);
      assert Takes(r, a - 1, width, right);
      HappenKeeps(r.states[a - 1], r.events[a - 1], width, right);
    }
  }

  // ---------------------------------------------------------------- the schedule of a trace

  /** A call has failed after the main loop had seen an empty queue. */
  ghost predicate LateFailure<V>(r: Trace<V>, i: nat) {
    && i < |r.events| && i < |r.states| && r.events[i].Schedule? && r.events[i].step.CallFailed?
    && r.states[i].sched.main == Scheduling.Waiting
  }

  ghost predicate NoLateFailure<V>(r: Trace<V>, a: nat) {
    forall i :: 0 <= i < a ==> !LateFailure(r, i)
  }

  /** Without its writes a trace is a run of the scheduler. */
  lemma {:induction false} ScheduleOf<V>(ntasks: nat, nfiles: nat, width: nat, right: (nat, nat, V) -> bool, r: Trace<V>, a: nat)
    returns (s: Scheduling.Run)
    requires IsTrace(ntasks, nfiles, width, right, r) && a < |r.states|
    ensures Scheduling.Reached(ntasks, nfiles, s, r.states[a].sched)
    ensures NoLateFailure(r, a) ==> Scheduling.NoLateFailure(s, |s.steps|)
  {
    hide Scheduling.Do, Scheduling.Enabled;
    if a == 0 {
      s := Scheduling.Run([Scheduling.Init(ntasks, nfiles)], []);
    } else {
      s := ScheduleOf(ntasks, nfiles, width, right, r, a - 1);
      assert Takes(r, a - 1, width, right);
      if r.events[a - 1].Schedule? {
        var step, before := r.events[a - 1].step, s;
        var after;
        s, after := Scheduling.Take(ntasks, nfiles, s, r.states[a - 1].sched, step);
        if NoLateFailure(r, a) {
          assert !LateFailure(r, a - 1);
          StillNone(before, s, r.states[a - 1].sched, step);
        }
      }
    }
  }

  lemma StillNone(s: Scheduling.Run, s': Scheduling.Run, last: Scheduling.State, step: Scheduling.Step)
    requires |s.states| == |s.steps| + 1 && s.states[|s.steps|] == last && Scheduling.NoLateFailure(s, |s.steps|)
    requires s.states <= s'.states && s'.steps == s.steps + [step] && |s'.states| == |s'.steps| + 1
    requires !(step.CallFailed? && last.main == Scheduling.Waiting)
    ensures Scheduling.NoLateFailure(s', |s'.steps|)
  {
    forall i | 0 <= i < |s'.steps|
      ensures !Scheduling.LateFailure(s', i)
    {
      assert i < |s.steps| ==> !Scheduling.LateFailure(s, i);
    }
  }

  /** When a phase returns and no call failed late, every file of every piece of work is there, with
      right contents, however often and by whomever it was written. */
  lemma PhaseComplete<V>(ntasks: nat, nfiles: nat, width: nat, right: (nat, nat, V) -> bool, r: Trace<V>, a: nat, t: nat, f: nat)
    requires IsTrace(ntasks, nfiles, width, right, r) && a < |r.states| && NoLateFailure(r, a)
    requires r.states[a].sched.main == Scheduling.Returned && t < ntasks && f < width
    ensures Stored(r.states[a].store, t, f, right)
  {
    hide IsTrace, Scheduling.IsRun, NoLateFailure, Scheduling.NoLateFailure, Stored;
    var s := ScheduleOf(ntasks, nfiles, width, right, r, a);
    var p := r.states[a];
    assert Scheduling.IsRun(ntasks, nfiles, s) && |s.steps| < |s.states| && s.states[|s.steps|] == p.sched by {
      Scheduling.ReachedIsRun(ntasks, nfiles, s, p.sched);
    }
    Scheduling.ReturnsCompleteIffNoLateFailure(ntasks, nfiles, s, |s.steps|);
    Scheduling.OnceEach(ntasks, t);
    assert t in multiset(p.sched.completed);
    var x :| 0 <= x < |p.sched.completed| && p.sched.completed[x] == t;
    TraceFiles(ntasks, nfiles, width, right, r, a);
  }

  // ---------------------------------------------------------------- a job

  /** What file `r` of map task `m` has to contain. */
  ghost function MapRight(files: seq<InputFile>, nReduce: nat, hash: Hash, mapF: MapFunction): (nat, nat, seq<KeyValue>) -> bool
    requires nReduce >= 1
  {
    (m: nat, r: nat, v: seq<KeyValue>) => m < |files| && v == Bucket(mapF(files[m].name, files[m].contents), hash, nReduce, r)
  }

  /** What reduce task `r` reads: its file of every map task. */
  ghost function Inputs(nmap: nat, store: Store<seq<KeyValue>>, r: nat): seq<seq<KeyValue>> {
    seq(nmap, m requires 0 <= m < nmap => if (m, r) in store then store[(m, r)] else [])
  }

  /** What the output file of reduce task `r` may contain. */
  ghost function ReduceRight(nmap: nat, store: Store<seq<KeyValue>>, reduceF: ReduceFunction): (nat, nat, seq<KeyValue>) -> bool {
    (r: nat, f: nat, out: seq<KeyValue>) => GroupedBy(Concat(Inputs(nmap, store, r)), reduceF, out)
  }

  /** Once the map phase is complete, a straggler that writes again changes nothing, so all reduce
      tasks read the same. */
  lemma StragglersChangeNothing(files: seq<InputFile>, nReduce: nat, hash: Hash, mapF: MapFunction,
                                store: Store<seq<KeyValue>>, m: nat, r: nat, v: seq<KeyValue>)
    requires nReduce >= 1 && Stored(store, m, r, MapRight(files, nReduce, hash, mapF))
    requires MapRight(files, nReduce, hash, mapF)(m, r, v)
    ensures store[(m, r) := v] == store
  {
  }

  ghost function Matrix(nmap: nat, nReduce: nat, store: Store<seq<KeyValue>>): seq<seq<seq<KeyValue>>> {
    seq(nmap, m requires 0 <= m < nmap =>
      seq(nReduce, r requires 0 <= r < nReduce => if (m, r) in store then store[(m, r)] else []))
  }

  lemma ColumnIsInputs(nmap: nat, nReduce: nat, store: Store<seq<KeyValue>>, r: nat)
    requires r < nReduce
    ensures Column(Matrix(nmap, nReduce, store), r) == Inputs(nmap, store, r)
  {
  }

  /** The map phase leaves every bucket. */
  lemma MapPhase(files: seq<InputFile>, nReduce: nat, hash: Hash, mapF: MapFunction, t: Trace<seq<KeyValue>>, a: nat)
    requires nReduce >= 1 && a < |t.states| && NoLateFailure(t, a) && t.states[a].sched.main == Scheduling.Returned
    requires IsTrace(|files|, |files|, nReduce, MapRight(files, nReduce, hash, mapF), t)
    ensures Mapped(files, nReduce, hash, mapF, Matrix(|files|, nReduce, t.states[a].store))
  {
    hide IsTrace, NoLateFailure, Bucket;
    var right := MapRight(files, nReduce, hash, mapF);
    forall m, r | 0 <= m < |files| && 0 <= r < nReduce
      ensures Matrix(|files|, nReduce, t.states[a].store)[m][r] == Bucket(mapF(files[m].name, files[m].contents), hash, nReduce, r)
    {
      PhaseComplete(|files|, |files|, nReduce, right, t, a, m, r);
    }
  }

  /** A distributed job: if neither phase loses a call late, merging what the reduce phase has left
      gives the group-by of everything emitted, although work may have been done several times. */
  method DistributedJob(ghost files: seq<InputFile>, nReduce: nat, ghost hash: Hash, ghost mapF: MapFunction,
                        ghost reduceF: ReduceFunction, ghost mapping: Trace<seq<KeyValue>>, ghost a: nat,
                        ghost reducing: Trace<seq<KeyValue>>, ghost b: nat, store: Store<seq<KeyValue>>)
    returns (lines: seq<KeyValue>)
    requires nReduce >= 1
    requires IsTrace(|files|, |files|, nReduce, MapRight(files, nReduce, hash, mapF), mapping)
    requires a < |mapping.states| && mapping.states[a].sched.main == Scheduling.Returned && NoLateFailure(mapping, a)
    requires IsTrace(nReduce, |files|, 1, ReduceRight(|files|, mapping.states[a].store, reduceF), reducing)
    requires b < |reducing.states| && reducing.states[b].sched.main == Scheduling.Returned && NoLateFailure(reducing, b)
    requires store == reducing.states[b].store
    ensures GroupedBy(Emitted(files, mapF), reduceF, lines)
  {
    hide IsTrace, NoLateFailure, GroupedBy, Mapped, Matrix, Inputs;
    ghost var inter := Matrix(|files|, nReduce, mapping.states[a].store);
    MapPhase(files, nReduce, hash, mapF, mapping, a);
    var outs: seq<seq<KeyValue>> := [];
    var r := 0;
    MatrixShape(|files|, nReduce, mapping.states[a].store);
    while r < nReduce
      invariant 0 <= r == |outs| <= nReduce && Reduced(inter, nReduce, reduceF, outs)
    {
      PhaseComplete(nReduce, |files|, 1, ReduceRight(|files|, mapping.states[a].store, reduceF), reducing, b, r, 0);
      ColumnIsInputs(|files|, nReduce, mapping.states[a].store, r);
      outs := outs + [store[(r, 0)]];
      r := r + 1;
    }
    lines := Merge(outs);
    MergedIsGrouped(files, nReduce, hash, mapF, reduceF, inter, outs, lines);
  }

  lemma MatrixShape(nmap: nat, nReduce: nat, store: Store<seq<KeyValue>>)
    ensures forall m :: 0 <= m < |Matrix(nmap, nReduce, store)| ==> |Matrix(nmap, nReduce, store)[m]| == nReduce
  {
  }
}
