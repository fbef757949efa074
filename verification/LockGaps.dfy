/** What the atomicity assumption of module Cluster buys.

  In two places the source checks a guard under the peer's lock, releases the lock, and acts under a
  later lock without repeating the guard: when an AppendEntries call is rejected by a newer term, and
  when Start appends a command.  Here the guard holds at one moment of a run and the effect happens
  at a later one.  Which steps taken in between make the effect differ from a guarded one is stated
  exactly, and for each window a run shows what is then lost.
 */
module LockGaps {
  import opened Logs
  import opened Consensus
  import opened Node
  import opened Cluster
  import opened Invariants
  import opened Refinement
  import opened Theorems
  import opened Reigns
  import opened Paths

  // ---------------------------------------------------------------- a rejection by a newer term

  /** The term check on a rejection by a peer that is in a newer term passes. */
  ghost predicate StepDownGuard(s: System, m: Message) {
    && m.AppendRep? && Enabled(s, ReturnAppend(m)) && s.peers[m.src].currentTerm == m.args.term
    && !m.reply.success && m.args.term < m.reply.term
  }

  /** The step-down that follows, as it runs under the later lock. */
  function LateStepDown(p: Peer, t: nat): Peer {
    Persist(p.(currentTerm := t, voteFor := NOBODY, role := Follower))
  }

  /** The term does not fall and no vote of the current term is forgotten. */
  ghost predicate TermAndVoteKept(p: Peer, q: Peer) {
    && p.currentTerm <= q.currentTerm
    && (q.currentTerm == p.currentTerm && p.voteFor != NOBODY ==> q.voteFor == p.voteFor)
  }

  /** Peer `i` votes in term `t`, for itself or another, or learns of a term beyond `t`. */
  ghost predicate MovesOn(s: System, step: Step, i: nat, t: nat) {
    i < |s.peers| && Enabled(s, step) && InBounds(s, step) &&
    match step
    case Timeout(k) => k == i && s.peers[i].currentTerm + 1 >= t
    case AdoptTerm(m) => m.dst == i && RequestTerm(m) > t
    case ReceiveVote(m) => m.dst == i && s.peers[i].currentTerm == t && Grants(s.peers[i], m.vargs)
    case ReturnVote(m) =>
      m.src == i && s.peers[i].currentTerm == m.vargs.term && !m.vreply.granted && m.vreply.term > t
    case ReturnAppend(m) =>
      m.src == i && s.peers[i].currentTerm == m.args.term && !m.reply.success && m.args.term < m.reply.term && m.reply.term > t
    case _ => false
  }

  lemma {:induction false} StepBehind(s: System, step: Step, i: nat, t: nat)
    requires Enabled(s, step) && InBounds(s, step) && i < |s.peers| && i < |Do(s, step).peers|
    requires Durable(s.peers[i]) && s.peers[i].me == i
    ensures TermAndVoteKept(Do(s, step).peers[i], LateStepDown(Do(s, step).peers[i], t))
            <==> TermAndVoteKept(s.peers[i], LateStepDown(s.peers[i], t)) && !MovesOn(s, step, i, t)
  {
    hide Reconcile, Consistent, UpToDate, Rejection, Ballots, SendInBounds, ReturnInBounds, Request, GetNextIndex, Commits;
  }

  /** No step from `a` to before `b` moves peer `i` on. */
  ghost predicate StaysBehind(r: Run, a: nat, b: nat, i: nat, t: nat) {
    forall c :: a <= c < b && c < |r.steps| && c < |r.states| ==> !MovesOn(r.states[c], r.steps[c], i, t)
  }

  /** The late step-down keeps term and vote if and only if, between the two locks, the peer has
      neither voted in the reply's term nor learned of a later one. */
  lemma {:induction false} LateStepDownKeepsIff(n: nat, r: Run, a: nat, b: nat, m: Message)
    requires IsRun(n, r) && a <= b < |r.states| && StepDownGuard(r.states[a], m) && m.src < |r.states[b].peers|
    ensures TermAndVoteKept(r.states[b].peers[m.src], LateStepDown(r.states[b].peers[m.src], m.reply.term))
            <==> StaysBehind(r, a, b, m.src, m.reply.term)
    decreases b
  {
    hide IsRun, Do, MovesOn, InBounds, SystemOk, Inv, PeerOk;
    var i, t := m.src, m.reply.term;
    if a < b {
      hide Enabled;
      var c := b - 1;
      RunLength(n, r);
      ClusterSize(n, r, b);
      ClusterSize(n, r, c);
      LateStepDownKeepsIff(n, r, a, c, m);
      StepAt(n, r, c);
      CrashLosesNothingDurable(n, r, c, i);
      assert r.states[c].peers[i].me == i by {
        var h := Record(n, r, c);
        PeerAt(r.states[c], h, i);
      }
      StepBehind(r.states[c], r.steps[c], i, t);
    }
  }

  const BEAT := AppendArgs(1, 0, 0, 0, [], 0)
  const NEWER := AppendRep(0, 2, 0, BEAT, AppendReply(2, 0, 0, false))

  /** Server 0 of three leads term 1; server 2 has moved to term 2. */
  lemma LeftBehind() returns (r: Run, s: System)
    ensures Path(Init(3), r, s) && Small(s) && s.n == 3
    ensures s.peers[0] == Elected(Boot(0, 3, Empty), 1) && s.peers[1].currentTerm == 1 && s.peers[2].currentTerm == 2
    ensures s.peers[1].log == s.peers[2].log == [SENTINEL]
  {
    hide Path;
    r, s := FreshCluster(3);
    r, s := Elects(Init(3), r, s, 0, 1);
    r, s := Take(Init(3), r, s, Timeout(2));
    r, s := Take(Init(3), r, s, Timeout(2));
  }

  /** Server 2 rejects a heartbeat of server 0. */
  lemma GuardPasses() returns (r: Run, s: System)
    ensures Path(Init(3), r, s) && Small(s) && s.n == 3 && StepDownGuard(s, NEWER)
    ensures s.peers[0].currentTerm == 1 && s.peers[1].currentTerm == 1 && s.peers[2].currentTerm == 2
    ensures s.peers[0].log == s.peers[1].log == s.peers[2].log == [SENTINEL]
  {
    hide Path;
    r, s := LeftBehind();
    assert Filled(3, 1) == [1, 1, 1];
    r, s := Take(Init(3), r, s, Beat(0));
    assert IsOther(3, 0, 2);
    assert Request(s.peers[0], s.peers[0].broadcasts[0], 2) == BEAT;
    r, s := Take(Init(3), r, s, Issue(0, 0, 2));
    r, s := Take(Init(3), r, s, ReceiveAppend(AppendReq(0, 2, 0, BEAT)));
  }

  /** Before the effect, server 0 votes for server 1 in term 3. */
  lemma VotesInGap() returns (r: Run, a: nat, s: System)
    ensures Path(Init(3), r, s) && a < |r.states| && StepDownGuard(r.states[a], NEWER) && Small(s) && s.n == 3
    ensures s.peers[0].currentTerm == 3 && s.peers[0].voteFor == 1
    ensures s.peers[1].role == Leader && s.peers[1].currentTerm == 3 && s.peers[2].currentTerm == 2
    ensures s.peers[0].log == s.peers[2].log == [SENTINEL]
  {
    hide Path, StepDownGuard;
    r, s := GuardPasses();
    PathIsRun(3, r, s);
    a := |r.steps|;
    r, s := Take(Init(3), r, s, Timeout(1));
    r, s := Elects(Init(3), r, s, 1, 0);
  }

  /** The late step-down takes server 0 back to term 2 with its vote forgotten; it votes again in term
      3, and the cluster has two leaders in one term. */
  lemma LateStepDownElectsTwo() returns (r: Run, a: nat, b: nat, after: Run, s: System)
    ensures IsRun(3, r) && a <= b < |r.states| && StepDownGuard(r.states[a], NEWER)
    ensures |r.states[b].peers| == 3 && r.states[b].peers[0].currentTerm == 3 && r.states[b].peers[0].voteFor == 1
    ensures Path(Set(r.states[b], 0, LateStepDown(r.states[b].peers[0], NEWER.reply.term), {}), after, s)
    ensures LeadsIn(s, 1, 3) && LeadsIn(s, 2, 3)
  {
    hide Path, StepDownGuard;
    r, a, s := VotesInGap();
    PathIsRun(3, r, s);
    b := |r.steps|;
    var s0 := Set(s, 0, LateStepDown(s.peers[0], 2), {});
    var here := Here(s0);
    assert Small(s0);
    after, s := Elects(s0, here, s0, 2, 0);
  }

  // ---------------------------------------------------------------- Start

  /** Start's append, as it runs under the lock after the one under which leadership was checked. */
  function LateAppend(p: Peer, command: Command): Peer {
    NewBroadcast(Persist(p.(log := p.log + [Entry(command, p.currentTerm)])))
  }

  ghost predicate Uninterrupted(r: Run, a: nat, b: nat, i: nat) {
    forall c :: a <= c < b && c < |r.steps| && c < |r.states| ==> !Interrupts(r.states[c], r.steps[c], i)
  }

  /** From moment `c` on peer `i` has led, and `c` is `a` or the moment of an election it won since. */
  ghost predicate LedSince(r: Run, a: nat, c: nat, b: nat, i: nat) {
    && a <= c <= b && Uninterrupted(r, c, b, i)
    && (c == a || (c - 1 < |r.steps| && c - 1 < |r.states| && WinsBy(r.states[c - 1], r.steps[c - 1], i)))
  }

  lemma {:induction false} LeadsIff(n: nat, r: Run, a: nat, b: nat, i: nat)
    requires IsRun(n, r) && a <= b < |r.states| && i < n && i < |r.states[a].peers| && i < |r.states[b].peers|
    requires r.states[a].peers[i].role == Leader
    ensures r.states[b].peers[i].role == Leader <==> exists c :: LedSince(r, a, c, b, i)
    decreases b
  {
    hide IsRun, Do, Interrupts, WinsBy, InBounds, Enabled, SystemOk;
    if a == b {
      assert LedSince(r, a, a, b, i);
    } else {
      var x := b - 1;
      RunLength(n, r);
      ClusterSize(n, r, x);
      LeadsIff(n, r, a, x, i);
      StepAt(n, r, x);
      var h := Record(n, r, x);
      StepLeads(r.states[x], h, r.steps[x], i);
      if WinsBy(r.states[x], r.steps[x], i) {
        assert LedSince(r, a, b, b, i);
      }
      assert forall c: nat :: c <= x ==>
               (LedSince(r, a, c, b, i) <==> LedSince(r, a, c, x, i) && !Interrupts(r.states[x], r.steps[x], i));
      assert LedSince(r, a, b, b, i) ==> WinsBy(r.states[x], r.steps[x], i);
    }
  }

  /** Leadership was checked at `a` and the command is appended at `b`: this is what a guarded Start at
      `b` does if and only if, since the check or since a later election won, nothing has interrupted
      the leadership. */
  lemma LateAppendIff(n: nat, r: Run, a: nat, b: nat, i: nat, command: Command)
    requires IsRun(n, r) && a <= b < |r.states| && i < n && i < |r.states[a].peers| && i < |r.states[b].peers|
    requires r.states[a].peers[i].role == Leader
    ensures LateAppend(r.states[b].peers[i], command) == Start(r.states[b].peers[i], command)
            <==> exists c :: LedSince(r, a, c, b, i)
  {
    hide IsRun, LedSince;
    LeadsIff(n, r, a, b, i);
    assert |LateAppend(r.states[b].peers[i], command).log| == |r.states[b].peers[i].log| + 1;
  }

  /** Server 0 of three leads term 1 when its guard passes, and has then voted for server 1, which
      leads term 2. */
  lemma Deposed() returns (r: Run, a: nat, s: System)
    ensures Path(Init(3), r, s) && a < |r.states| && LeadsIn(r.states[a], 0, 1) && Small(s) && s.n == 3
    ensures s.peers[0].currentTerm == 2 && s.peers[0].role == Follower && LeadsIn(s, 1, 2)
    ensures s.peers[0].log == s.peers[1].log == [SENTINEL]
  {
    hide Path;
    r, s := FreshCluster(3);
    r, s := Elects(Init(3), r, s, 0, 1);
    PathIsRun(3, r, s);
    a := |r.steps|;
    r, s := Elects(Init(3), r, s, 1, 0);
  }

  /** The late append breaks Log Matching: server 0 appends as if it led term 2, and so does the real
      leader, and two logs have different entries of one term at one index. */
  lemma LateAppendBreaksLogMatching() returns (r: Run, a: nat, b: nat, after: Run, s: System)
    ensures IsRun(3, r) && a <= b < |r.states| && LeadsIn(r.states[a], 0, 1) && |r.states[b].peers| == 3
    ensures Path(Set(r.states[b], 0, LateAppend(r.states[b].peers[0], Client("x")), {}), after, s)
    ensures |s.peers| == 3 && Has(s.peers[0].log, 2, 1) && Has(s.peers[1].log, 2, 1) && !Agree(s.peers[0].log, s.peers[1].log, 1)
  {
    hide Path;
    r, a, s := Deposed();
    PathIsRun(3, r, s);
    b := |r.steps|;
    var s0 := Set(s, 0, LateAppend(s.peers[0], Client("x")), {});
    var here := Here(s0);
    after, s := Take(s0, here, s0, Submit(1, Client("y")));
    assert s.peers[0].log[1] != s.peers[1].log[1] by { assert "x"[0] != "y"[0]; }
  }
}
