/** Runs that show what can happen: a leader is elected and a command is replicated, committed and
    applied; a goroutine is rejected more often than the bound for an undisturbed one; matchIndex
    falls. */
module Scenario {
  import opened Logs
  import opened Node
  import opened Cluster
  import opened Repair
  import opened Theorems
  import opened Indices
  import opened Progress
  import opened Paths

  const COMMAND := Client("x")

  const FRESH := [SENTINEL]

  function Made(t: nat): Entry { Entry(COMMAND, t) }

  // ---------------------------------------------------------------- normal operation

  const BATCH := AppendArgs(1, 0, 0, 0, [Made(1)], 0)

  /** Server 0 of two wins term 1 and takes a command. */
  lemma Submits() returns (r: Run, s: System)
    ensures Path(Init(2), r, s) && Small(s) && s.n == 2
    ensures s.peers[1] == Voted(Boot(1, 2, Empty), 1, 0)
    ensures s.peers[0] == Elected(Boot(0, 2, Empty), 1).(log := [SENTINEL, Made(1)], disk := Saved(1, 0, [SENTINEL, Made(1)]),
                                                         broadcasts := [Broadcast(1, 1, 0, 1, false, map[], {})])
  {
    hide Path;
    r, s := FreshCluster(2);
    r, s := Elects(Init(2), r, s, 0, 1);
    r, s := Take(Init(2), r, s, Submit(0, COMMAND));
    assert s.peers[0].log == [SENTINEL, Made(1)];
  }

  /** It replicates and commits it. */
  lemma Commits() returns (r: Run, s: System)
    ensures Path(Init(2), r, s) && |s.peers| == 2
    ensures s.peers[0].log == [SENTINEL, Made(1)] == s.peers[1].log
    ensures s.peers[0].commitIndex == 1 && s.peers[0].lastApplied == 0 == s.peers[0].applyTo && s.peers[0].stream == []
  {
    hide Path;
    r, s := Submits();
    assert Filled(2, 1) == [1, 1] && Filled(2, 0) == [0, 0];
    assert Request(s.peers[0], s.peers[0].broadcasts[0], 1) == BATCH;
    assert !HeldAt(FRESH, 1 + 0, [Made(1)][0]);
    r, s := Exchanges(Init(2), r, s, 0, 0, 1);
    assert s.peers[1].log == [SENTINEL, Made(1)];
    r, s := Take(Init(2), r, s, ReturnAppend(AppendRep(0, 1, 0, BATCH, AppendReply(1, 0, 0, true))));
  }

  /** And applies it. */
  lemma Applies() returns (r: Run, s: System)
    ensures IsRun(2, r) && r.states[|r.steps|] == s && |s.peers| == 2
    ensures s.peers[0].stream == [ApplyMsg(1, COMMAND)]
  {
    hide Path;
    r, s := Commits();
    r, s := Take(Init(2), r, s, Collect(0));
    r, s := Take(Init(2), r, s, Deliver(0));
    PathIsRun(2, r, s);
  }

  /** Then it crashes: its log is still there, and it will apply everything again from the start. */
  lemma Recovers() returns (r: Run, s: System)
    ensures IsRun(2, r) && |r.steps| > 0 && r.steps[|r.steps| - 1] == Crash(0) && r.states[|r.steps|] == s && |s.peers| == 2
    ensures s.peers[0].log == [SENTINEL, Made(1)] && s.peers[0].role == Follower
    ensures s.peers[0].stream == [] && s.peers[0].commitIndex == 0 == s.peers[0].lastApplied
  {
    hide Path;
    r, s := Commits();
    PathIsRun(2, r, s);
    CrashLosesNothingDurable(2, r, |r.steps|, 0);
    r, s := Take(Init(2), r, s, Collect(0));
    r, s := Take(Init(2), r, s, Deliver(0));
    r, s := Take(Init(2), r, s, Crash(0));
    PathIsRun(2, r, s);
  }

  /** With one of three servers never taking part, both others apply the command. */
  lemma TwoOfThreeApply() returns (r: Run, k: nat)
    ensures IsRun(3, r) && |r.states| == |r.steps| + 1 && |r.states[|r.steps|].peers| == 3 && k >= 1
    ensures var s := r.states[|r.steps|];
      && k <= |s.peers[0].stream| && s.peers[0].stream[k - 1] == ApplyMsg(k, COMMAND)
      && k <= |s.peers[1].stream| && s.peers[1].stream[k - 1] == ApplyMsg(k, COMMAND)
      && s.peers[2] == Boot(2, 3, Empty)
  {
    var start := Run([Init(3)], []);
    assert IsRun(3, start);
    var q := {0, 1};
    assert |q| == 2;
    hide IsRun;
    r, k := CanProgress(3, start, q, COMMAND);
  }

  // ---------------------------------------------------------------- matchIndex falls

  const TWO := [SENTINEL, Made(1), Made(1)]
  const THREE := [SENTINEL, Made(1), Made(1), Made(2)]
  const LATE_PROBE := AppendArgs(2, 0, 2, 1, [], 0)
  const TOO_SHORT := AppendReply(2, 0, 1, false)
  const LATE_REJECTION := AppendRep(0, 1, 2, LATE_PROBE, TOO_SHORT)

  /** Server 0 of two leads term 2 with the given log and indices. */
  ghost predicate Leading(s: System, log: Log, next: seq<nat>, match_: seq<nat>) {
    && Small(s) && s.n == 2 && s.peers[0].role == Leader && s.peers[0].currentTerm == 2 && s.peers[0].log == log
    && s.peers[0].nextIndex == next && s.peers[0].matchIndex == match_
    && s.peers[1].currentTerm == 2 && s.peers[1].commitIndex == 0
  }

  /** A leader of term 1 appends two entries, tells nobody, and is elected again. */
  lemma Reelected() returns (r: Run, s: System)
    ensures Path(Init(2), r, s) && Leading(s, TWO, [3, 3], [0, 0]) && s.peers[1].log == FRESH
    ensures s.peers[0].commitIndex == 0 && |s.peers[0].broadcasts| == 2
  {
    hide Path;
    r, s := FreshCluster(2);
    r, s := Elects(Init(2), r, s, 0, 1);
    r, s := Take(Init(2), r, s, Submit(0, COMMAND));
    r, s := Take(Init(2), r, s, Submit(0, COMMAND));
    assert s.peers[0].log == TWO;
    r, s := Elects(Init(2), r, s, 0, 1);
    assert Filled(2, 3) == [3, 3] && Filled(2, 0) == [0, 0];
  }

  /** A heartbeat for index 2 is rejected, but the rejection is delayed; a command is added at 3. */
  lemma Delayed() returns (r: Run, s: System)
    ensures Path(Init(2), r, s) && Leading(s, THREE, [3, 3], [0, 0]) && s.peers[1].log == FRESH
    ensures LATE_REJECTION in s.net && |s.peers[0].broadcasts| == 4
    ensures s.peers[0].broadcasts[2] == Broadcast(2, 2, 0, 1, false, map[1 := LATE_PROBE], {})
    ensures s.peers[0].broadcasts[3] == Broadcast(3, 2, 0, 1, false, map[], {})
  {
    hide Path;
    r, s := Reelected();
    r, s := Take(Init(2), r, s, Beat(0));
    assert Request(s.peers[0], s.peers[0].broadcasts[2], 1) == LATE_PROBE;
    r, s := Exchanges(Init(2), r, s, 0, 2, 1);
    r, s := Take(Init(2), r, s, Submit(0, COMMAND));
    assert s.peers[0].log == THREE;
  }

  /** The command for index 3 is rejected once. */
  lemma BackedUp() returns (r: Run, s: System)
    ensures Path(Init(2), r, s) && Leading(s, THREE, [3, 1], [0, 0]) && s.peers[1].log == FRESH
    ensures LATE_REJECTION in s.net && |s.peers[0].broadcasts| == 4
    ensures s.peers[0].broadcasts[2] == Broadcast(2, 2, 0, 1, false, map[1 := LATE_PROBE], {})
    ensures s.peers[0].broadcasts[3] == Broadcast(3, 2, 0, 1, false, map[], {})
  {
    hide Path;
    r, s := Delayed();
    var a := Request(s.peers[0], s.peers[0].broadcasts[3], 1);
    assert a.prevLogIndex == 2;
    r, s := Exchanges(Init(2), r, s, 0, 3, 1);
    r, s := Take(Init(2), r, s, ReturnAppend(AppendRep(0, 1, 3, a, TOO_SHORT)));
    assert map[1 := a] - {1} == map[];
  }

  /** Then it is accepted. */
  lemma Matched() returns (r: Run, s: System)
    ensures Path(Init(2), r, s) && Leading(s, THREE, [3, 4], [0, 3]) && s.peers[1].log == THREE
    ensures LATE_REJECTION in s.net && |s.peers[0].broadcasts| == 4
    ensures s.peers[0].broadcasts[2] == Broadcast(2, 2, 0, 1, false, map[1 := LATE_PROBE], {})
  {
    hide Path;
    r, s := BackedUp();
    var b := Request(s.peers[0], s.peers[0].broadcasts[3], 1);
    assert b == AppendArgs(2, 0, 0, 0, [Made(1), Made(1), Made(2)], 0);
    assert !HeldAt(FRESH, 1 + 0, b.entries[0]);
    r, s := Exchanges(Init(2), r, s, 0, 3, 1);
    assert s.peers[1].log == THREE;
    r, s := Take(Init(2), r, s, ReturnAppend(AppendRep(0, 1, 3, b, AppendReply(2, 0, 0, true))));
  }

  /** The delayed rejection arrives, the heartbeat is sent again and accepted: matchIndex falls from
      3 to 2 within one leadership. */
  lemma MatchIndexFalls() returns (r: Run, k: nat)
    ensures IsRun(2, r) && k < |r.steps| && k + 1 < |r.states|
    ensures LeadsIn(r.states[k], 0, 2) && LeadsIn(r.states[k + 1], 0, 2)
    ensures MatchOf(r.states[k], 0, 1) == 3 && MatchOf(r.states[k + 1], 0, 1) == 2
  {
    hide Path;
    var s;
    r, s := Matched();
    r, s := Take(Init(2), r, s, ReturnAppend(LATE_REJECTION));
    assert map[1 := LATE_PROBE] - {1} == map[];
    assert Leading(s, THREE, [3, 1], [0, 3]);
    var a := Request(s.peers[0], s.peers[0].broadcasts[2], 1);
    assert a == AppendArgs(2, 0, 0, 0, [Made(1), Made(1)], 0);
    r, s := Exchanges(Init(2), r, s, 0, 2, 1);
    k := |r.steps|;
    var s' := s;
    r, s := Take(Init(2), r, s, ReturnAppend(AppendRep(0, 1, 2, a, AppendReply(2, 0, 0, true))));
    PathIsRun(2, r, s);
    assert r.states[k] == s';
  }

  // ---------------------------------------------------------------- the bound is exceeded

  const OLD := [SENTINEL, Made(1)]
  const NEW := [SENTINEL, Made(2), Made(2)]
  const FIRST_TRY := AppendArgs(3, 0, 2, 2, [], 0)
  const SECOND_TRY := AppendArgs(3, 0, 1, 2, [Made(2)], 0)

  /** What goroutine `bid` of server 0 is told about each try. */
  function FirstAnswer(bid: nat): Message { AppendRep(0, 1, bid, FIRST_TRY, AppendReply(3, 0, 2, false)) }
  function SecondAnswer(bid: nat): Message { AppendRep(0, 1, bid, SECOND_TRY, AppendReply(3, 1, 1, false)) }

  function Waiting(calls: map<nat, AppendArgs>): Broadcast { Broadcast(2, 3, 0, 1, false, calls, {}) }

  ghost predicate NoReplies(net: set<Message>) {
    forall m :: m in net ==> !m.AppendRep?
  }

  /** Server 0 of three leads term 3 with log NEW, server 1 has log OLD of term 1, and the goroutines
      2 and 3 of server 0 wait for the given calls. */
  ghost predicate Probing(s: System, next: nat, calls2: map<nat, AppendArgs>, calls3: map<nat, AppendArgs>) {
    && Small(s) && s.n == 3 && s.peers[0].role == Leader && s.peers[0].currentTerm == 3 && s.peers[0].log == NEW
    && s.peers[0].nextIndex == [3, next, 3] && |s.peers[0].matchIndex| == 3 && |s.peers[0].broadcasts| == 4
    && s.peers[0].broadcasts[2] == Waiting(calls2) && s.peers[0].broadcasts[3] == Waiting(calls3)
    && s.peers[1].log == OLD && s.peers[1].currentTerm == 3
  }

  /** Server 1 leads term 1 and appends an entry that nobody else has. */
  lemma OneAhead() returns (r: Run, s: System)
    ensures Path(Init(3), r, s) && Small(s) && s.n == 3 && NoReplies(s.net)
    ensures s.peers[0] == Boot(0, 3, Empty)
    ensures s.peers[1].log == OLD && s.peers[1].currentTerm == 1
    ensures s.peers[2].log == FRESH && s.peers[2].currentTerm == 1
  {
    hide Path;
    r, s := FreshCluster(3);
    r, s := Elects(Init(3), r, s, 1, 2);
    r, s := Take(Init(3), r, s, Submit(1, COMMAND));
    assert s.peers[1].log == OLD;
  }

  /** Server 0 leads term 2 and appends two. */
  lemma Diverged() returns (r: Run, s: System)
    ensures Path(Init(3), r, s) && Small(s) && s.n == 3 && NoReplies(s.net)
    ensures s.peers[0].log == NEW && s.peers[0].currentTerm == 2 && s.peers[0].commitIndex == 0 && |s.peers[0].broadcasts| == 2
    ensures s.peers[1].log == OLD && s.peers[1].currentTerm == 1
    ensures s.peers[2].log == FRESH && s.peers[2].currentTerm == 2
  {
    hide Path;
    r, s := OneAhead();
    r, s := Take(Init(3), r, s, Timeout(0));
    assert Small(s) && NoReplies(s.net);
    r, s := Elects(Init(3), r, s, 0, 2);
    r, s := Take(Init(3), r, s, Submit(0, COMMAND));
    r, s := Take(Init(3), r, s, Submit(0, COMMAND));
    assert s.peers[0].log == NEW;
  }

  /** From `a` on server 1 has log OLD, nothing had been answered by then, and `ks` are rejections of
      goroutine 2. */
  ghost predicate Told(r: Run, a: nat, ks: seq<nat>) {
    && |r.states| == |r.steps| + 1 && a <= |r.steps| && NoReplies(r.states[a].net) && LogFixed(r, a, |r.steps|, 1, OLD)
    && (forall x :: 0 <= x < |ks| ==> a <= ks[x] && Retries(r, ks[x], 0, 2, 1, 3))
    && (forall x :: 0 < x < |ks| ==> ks[x - 1] < ks[x])
  }

  lemma StillFixed(r: Run, r': Run, a: nat, s': System)
    requires |r.states| == |r.steps| + 1 && r'.states == r.states + [s'] && |r'.steps| == |r.steps| + 1
    requires LogFixed(r, a, |r.steps|, 1, OLD) && |s'.peers| == 3 && s'.peers[1].log == OLD
    ensures LogFixed(r', a, |r'.steps|, 1, OLD)
  {
    forall c | a <= c <= |r'.steps| && c < |r'.states|
      ensures 1 < |r'.states[c].peers| && LogOf(r'.states[c], 1) == OLD
    {
      assert c < |r.states| ==> LogOf(r.states[c], 1) == OLD;
    }
  }

  lemma StillRetries(r: Run, r': Run, k: nat)
    requires Begins(r, r') && Retries(r, k, 0, 2, 1, 3)
    ensures Retries(r', k, 0, 2, 1, 3) && k < |r.steps|
  {
    hide IsRetry;
  }

  lemma Goes(r: Run, s: System, a: nat, ks: seq<nat>, step: Step) returns (r': Run, s': System, ks': seq<nat>)
    requires Path(Init(3), r, s) && Told(r, a, ks) && Enabled(s, step) && InBounds(s, step)
    requires |Do(s, step).peers| == 3 && Do(s, step).peers[1].log == OLD
    ensures Path(Init(3), r', s') && Told(r', a, ks') && s' == Do(s, step)
    ensures ks' == if IsRetry(s, step, 0, 2, 1, 3) then ks + [|r.steps|] else ks
  {
    hide Enabled, InBounds, Do, Path, LogFixed, Retries, IsRetry, NoReplies, Init;
    assert r.states[|r.steps|] == s by { PathIsRun(3, r, s); }
    r', s' := Take(Init(3), r, s, step);
    StillFixed(r, r', a, s');
    ks' := if IsRetry(s, step, 0, 2, 1, 3) then ks + [|r.steps|] else ks;
    assert IsRetry(s, step, 0, 2, 1, 3) ==> Retries(r', |r.steps|, 0, 2, 1, 3) by { NowRetries(r', |r.steps|); }
    forall x | 0 <= x < |ks|
      ensures Retries(r', ks[x], 0, 2, 1, 3) && ks[x] < |r.steps|
    {
      StillRetries(r, r', ks[x]);
    }
  }

  lemma NowRetries(r: Run, k: nat)
    requires k < |r.steps| && k + 1 < |r.states|
    ensures IsRetry(r.states[k], r.steps[k], 0, 2, 1, 3) ==> Retries(r, k, 0, 2, 1, 3)
  {
  }

  /** Server 0 leads again, in term 3, and sends two heartbeats, from nextIndex 3. */
  lemma BothSent() returns (r: Run, s: System, a: nat)
    ensures Path(Init(3), r, s) && Told(r, a, [])
    ensures Small(s) && s.n == 3 && s.peers[0].role == Leader && s.peers[0].currentTerm == 3 && s.peers[0].log == NEW
    ensures s.peers[0].nextIndex == [3, 3, 3] && |s.peers[0].matchIndex| == 3 && |s.peers[0].broadcasts| == 4
    ensures s.peers[0].broadcasts[2] == Waiting(map[]) && s.peers[0].broadcasts[3] == Waiting(map[])
    ensures s.peers[1].log == OLD && s.peers[1].currentTerm == 1
  {
    hide Path;
    r, s := Diverged();
    r, s := Elects(Init(3), r, s, 0, 2);
    a := |r.steps|;
    assert Filled(3, 3) == [3, 3, 3];
    assert Told(r, a, []) by { PathIsRun(3, r, s); }
    var ks;
    r, s, ks := Goes(r, s, a, [], Beat(0));
    r, s, ks := Goes(r, s, a, [], Beat(0));
  }

  const FIRST_CALL := AppendReq(0, 1, 2, FIRST_TRY)

  /** Both are rejected. */
  lemma BothRejected() returns (r: Run, s: System, a: nat)
    ensures Path(Init(3), r, s) && Told(r, a, [])
    ensures Probing(s, 3, map[1 := FIRST_TRY], map[1 := FIRST_TRY]) && FirstAnswer(2) in s.net && FirstAnswer(3) in s.net
  {
    hide Path, Told;
    r, s, a := BothSent();
    var ks;
    assert IsOther(3, 0, 1);
    r, s, ks := Goes(r, s, a, [], Issue(0, 2, 1));
    r, s, ks := Goes(r, s, a, [], Issue(0, 3, 1));
    r, s, ks := Goes(r, s, a, [], AdoptTerm(FIRST_CALL));
    r, s, ks := Goes(r, s, a, [], ReceiveAppend(FIRST_CALL));
    r, s, ks := Goes(r, s, a, [], ReceiveAppend(AppendReq(0, 1, 3, FIRST_TRY)));
  }

  /** Goroutine 2, rejected, goes back to index 2, is rejected again and goes back to 1. */
  lemma OneReturns() returns (r: Run, s: System, a: nat, ks: seq<nat>)
    ensures Path(Init(3), r, s) && Told(r, a, ks) && |ks| == 2
    ensures Probing(s, 1, map[], map[1 := FIRST_TRY]) && FirstAnswer(3) in s.net
  {
    hide Path, Told;
    r, s, a := BothRejected();
    r, s, ks := Goes(r, s, a, [], ReturnAppend(FirstAnswer(2)));
    assert map[1 := FIRST_TRY] - {1} == map[];
    assert Probing(s, 2, map[], map[1 := FIRST_TRY]);
    r, s, ks := TriesAgain(r, s, a, ks, map[1 := FIRST_TRY]);
    r, s, ks := Goes(r, s, a, ks, ReturnAppend(SecondAnswer(2)));
    assert map[1 := SECOND_TRY] - {1} == map[];
  }

  /** At nextIndex 2, goroutine 2 sends its second try, which is rejected as well. */
  lemma TriesAgain(r: Run, s: System, a: nat, ks: seq<nat>, calls3: map<nat, AppendArgs>) returns (r': Run, s': System, ks': seq<nat>)
    requires Path(Init(3), r, s) && Told(r, a, ks) && Probing(s, 2, map[], calls3)
    ensures Path(Init(3), r', s') && Told(r', a, ks') && ks' == ks && s.net <= s'.net
    ensures Probing(s', 2, map[1 := SECOND_TRY], calls3) && SecondAnswer(2) in s'.net
  {
    hide Path, Told;
    assert IsOther(3, 0, 1);
    assert Request(s.peers[0], s.peers[0].broadcasts[2], 1) == SECOND_TRY;
    r', s', ks' := Goes(r, s, a, ks, Issue(0, 2, 1));
    r', s', ks' := Goes(r', s', a, ks', ReceiveAppend(AppendReq(0, 1, 2, SECOND_TRY)));
  }

  /** Then the rejection of goroutine 3 arrives and moves nextIndex up to 2 again, and goroutine 2 is
      rejected a third time: more often than one plus the number of terms of an unchanging log. */
  lemma BoundExceeded() returns (r: Run, a: nat, ks: seq<nat>)
    ensures IsRun(3, r) && Told(r, a, ks) && |ks| == 3 && |ks| > 1 + |Terms(OLD)|
  {
    hide Path, Told;
    var s;
    r, s, a, ks := OneReturns();
    r, s, ks := Goes(r, s, a, ks, ReturnAppend(FirstAnswer(3)));
    assert map[1 := FIRST_TRY] - {1} == map[];
    assert Probing(s, 2, map[], map[]);
    r, s, ks := TriesAgain(r, s, a, ks, map[]);
    r, s, ks := Goes(r, s, a, ks, ReturnAppend(SecondAnswer(2)));
    PathIsRun(3, r, s);
    assert Terms(OLD) == {1} by { assert OLD[1].term == 1; }
  }
}
