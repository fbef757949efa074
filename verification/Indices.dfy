/** What happens to a leader's nextIndex and matchIndex in a run.

  All goroutines that talk to one follower share its nextIndex: each retry starts from the value
  found there, and each rejection writes it, whatever it is by then.  The bound on rejections
  therefore holds for a goroutine that nobody else disturbs, and a rejection or a success can also
  undo what another goroutine has achieved.  This module says exactly when.
 */
module Indices {
  import opened Logs
  import opened Consensus
  import opened Node
  import opened Cluster
  import opened Origins
  import opened Invariants
  import opened Refinement
  import opened Repair
  import opened Theorems
  import opened Answers
  import opened Reigns

  ghost function NextOf(s: System, i: nat, j: nat): nat {
    if i < |s.peers| && j < |s.peers[i].nextIndex| then s.peers[i].nextIndex[j] else 0
  }

  ghost function MatchOf(s: System, i: nat, j: nat): nat {
    if i < |s.peers| && j < |s.peers[i].matchIndex| then s.peers[i].matchIndex[j] else 0
  }

  ghost function LogOf(s: System, i: nat): Log {
    if i < |s.peers| then s.peers[i].log else []
  }

  // ---------------------------------------------------------------- the bound on rejections

  /** The step hands goroutine `bid` of leader `i`, in term `t`, a rejection by `j` on which it retries. */
  ghost predicate IsRetry(s: System, step: Step, i: nat, bid: nat, j: nat, t: nat) {
    && step.ReturnAppend? && step.m.AppendRep? && step.m.src == i && step.m.dst == j && step.m.bid == bid
    && step.m.args.term == t && !step.m.reply.success && step.m.reply.term <= t
    && i < |s.peers| && s.peers[i].currentTerm == t
  }

  ghost predicate Retries(r: Run, k: nat, i: nat, bid: nat, j: nat, t: nat) {
    k < |r.steps| && k + 1 < |r.states| && IsRetry(r.states[k], r.steps[k], i, bid, j, t)
  }

  /** The index the rejected request was sent for. */
  ghost function Tried(r: Run, k: nat): nat
    requires k < |r.steps| && r.steps[k].ReturnAppend? && r.steps[k].m.AppendRep?
  {
    r.steps[k].m.args.prevLogIndex + 1
  }

  /** The follower's log is `f` at every moment from `a` to `b`. */
  ghost predicate LogFixed(r: Run, a: nat, b: nat, j: nat, f: Log) {
    forall c :: a <= c <= b && c < |r.states| ==> j < |r.states[c].peers| && LogOf(r.states[c], j) == f
  }

  /** A rejection sent while the follower's log was `f` moves nextIndex as `Retry` says. */
  lemma RetryStep(n: nat, r: Run, a: nat, k: nat, i: nat, bid: nat, j: nat, t: nat, f: Log)
    requires IsRun(n, r) && a <= k && Retries(r, k, i, bid, j, t)
    requires r.steps[k].m !in r.states[a].net && LogFixed(r, a, k, j, f)
    ensures LeadsIn(r.states[k], i, t)
    ensures Rejected(r.states[k].peers[i].log, f, Tried(r, k))
    ensures NextOf(r.states[k + 1], i, j) == Retry(r.states[k].peers[i].log, f, Tried(r, k))
  {
    hide SystemOk, IsRun, Rejected, Shaped, Retry, Probe, GetNextIndex, Rejection;
    var m := r.steps[k].m;
    var s := r.states[k];
    StepAt(n, r, k);
    var h := Record(n, r, k);
    ReplyToLeader(s, h, m);
    var c := ReplySent(n, r, a, k, m);
    assert LogOf(r.states[c], j) == f;
    RunLogShaped(n, r, c, j);
    RunLogShaped(n, r, k, i);
    RetryIsGetNextIndex(s.peers[i].log, f, r.states[c].peers[j].currentTerm, m.args);
  }

  /** While nextIndex stays, a goroutine that has just been rejected can only ask for that index. */
  ghost predicate AsksFor(s: System, i: nat, bid: nat, j: nat, next: nat) {
    && NextOf(s, i, j) == next
    && (i < |s.peers| && bid < |s.peers[i].broadcasts| && j in s.peers[i].broadcasts[bid].calls ==>
          s.peers[i].broadcasts[bid].calls[j].prevLogIndex + 1 == next)
  }

  lemma ReturnAsksFor(s: System, m: Message, i: nat, bid: nat, j: nat, next: nat)
    requires Enabled(s, ReturnAppend(m)) && InBounds(s, ReturnAppend(m)) && AsksFor(s, i, bid, j, next)
    requires NextOf(Do(s, ReturnAppend(m)), i, j) == next
    ensures AsksFor(Do(s, ReturnAppend(m)), i, bid, j, next)
  {
    hide GetNextIndex, Commits;
  }

  lemma IssueAsksFor(s: System, k: nat, b: nat, dst: nat, i: nat, bid: nat, j: nat, next: nat)
    requires Enabled(s, Issue(k, b, dst)) && InBounds(s, Issue(k, b, dst)) && AsksFor(s, i, bid, j, next)
    ensures AsksFor(Do(s, Issue(k, b, dst)), i, bid, j, next)
  {
  }

  /** Every other step leaves the calls of a broadcast alone, or ends or starts all of them. */
  lemma OtherAsksFor(s: System, step: Step, i: nat, bid: nat, j: nat, next: nat)
    requires Enabled(s, step) && InBounds(s, step) && AsksFor(s, i, bid, j, next) && NextOf(Do(s, step), i, j) == next
    requires !step.ReturnAppend? && !step.Issue?
    ensures AsksFor(Do(s, step), i, bid, j, next)
  {
    hide Reconcile, Consistent, Grants, Rejection, Ballots, SendInBounds, ReturnInBounds;
    assert i < |s.peers| && bid < |Do(s, step).peers[i].broadcasts| && j in Do(s, step).peers[i].broadcasts[bid].calls ==>
             bid < |s.peers[i].broadcasts| && Do(s, step).peers[i].broadcasts[bid] == s.peers[i].broadcasts[bid];
  }

  lemma StepAsksFor(s: System, step: Step, i: nat, bid: nat, j: nat, next: nat)
    requires Enabled(s, step) && InBounds(s, step) && AsksFor(s, i, bid, j, next) && NextOf(Do(s, step), i, j) == next
    ensures AsksFor(Do(s, step), i, bid, j, next)
  {
    hide Do, Enabled, InBounds, AsksFor, NextOf;
    if step.ReturnAppend? {
      ReturnAsksFor(s, step.m, i, bid, j, next);
    } else if step.Issue? {
      IssueAsksFor(s, step.i, step.bid, step.dst, i, bid, j, next);
    } else {
      OtherAsksFor(s, step, i, bid, j, next);
    }
  }

  lemma RejectedAsksFor(n: nat, r: Run, k: nat, i: nat, bid: nat, j: nat, t: nat)
    requires IsRun(n, r) && Retries(r, k, i, bid, j, t)
    ensures AsksFor(r.states[k + 1], i, bid, j, NextOf(r.states[k + 1], i, j))
  {
    hide IsRun, GetNextIndex;
    StepAt(n, r, k);
  }

  /** No step from `a` to before `b` changes the nextIndex of `i` for `j`. */
  ghost predicate Undisturbed(r: Run, a: nat, b: nat, i: nat, j: nat) {
    forall c :: a <= c < b && c + 1 < |r.states| ==> NextOf(r.states[c + 1], i, j) == NextOf(r.states[c], i, j)
  }

  lemma {:induction false} KeepsAsking(n: nat, r: Run, a: nat, b: nat, i: nat, bid: nat, j: nat, next: nat)
    requires IsRun(n, r) && a <= b < |r.states| && Undisturbed(r, a, b, i, j) && AsksFor(r.states[a], i, bid, j, next)
    ensures AsksFor(r.states[b], i, bid, j, next)
    decreases b
  {
    hide Enabled, InBounds, Do, AsksFor;
    if a < b {
      KeepsAsking(n, r, a, b - 1, i, bid, j, next);
      StepAt(n, r, b - 1);
      assert NextOf(r.states[b - 1], i, j) == next by { NextAsked(r.states[b - 1], i, bid, j, next); }
      assert NextOf(r.states[b - 1 + 1], i, j) == NextOf(r.states[b - 1], i, j);
      StepAsksFor(r.states[b - 1], r.steps[b - 1], i, bid, j, next);
    }
  }

  lemma NextAsked(s: System, i: nat, bid: nat, j: nat, next: nat)
    requires AsksFor(s, i, bid, j, next)
    ensures NextOf(s, i, j) == next
  {
  }

  /** Between two rejections of one goroutine with nextIndex left alone in between, the second was
      sent for the index the first one set. */
  lemma TriesNext(n: nat, r: Run, k: nat, k': nat, i: nat, bid: nat, j: nat, t: nat)
    requires IsRun(n, r) && k < k' && Retries(r, k, i, bid, j, t) && Retries(r, k', i, bid, j, t)
    requires Undisturbed(r, k + 1, k', i, j)
    ensures Tried(r, k') == NextOf(r.states[k + 1], i, j)
  {
    hide IsRun, Undisturbed, InBounds, Do;
    RejectedAsksFor(n, r, k, i, bid, j, t);
    KeepsAsking(n, r, k + 1, k', i, bid, j, NextOf(r.states[k + 1], i, j));
    StepAt(n, r, k');
  }

  /** The rejections at the steps `ks`: in order, all of one goroutine, all sent since `a`, while the
      follower's log was `f`, and with no other write to nextIndex between them. */
  ghost predicate RetriesAlone(r: Run, a: nat, ks: seq<nat>, i: nat, bid: nat, j: nat, t: nat, f: Log) {
    && (forall x :: 0 <= x < |ks| ==>
          a <= ks[x] && Retries(r, ks[x], i, bid, j, t) && r.steps[ks[x]].m !in r.states[a].net && LogFixed(r, a, ks[x], j, f))
    && (forall x :: 0 < x < |ks| ==> ks[x - 1] < ks[x] && Undisturbed(r, ks[x - 1] + 1, ks[x], i, j))
  }

  lemma {:induction false} RetriesFrom(n: nat, r: Run, a: nat, ks: seq<nat>, i: nat, bid: nat, j: nat, t: nat, f: Log, x: nat)
    requires IsRun(n, r) && RetriesAlone(r, a, ks, i, bid, j, t, f) && x < |ks|
    ensures |ks| - x <= Weight(f, Tried(r, ks[x]))
    decreases |ks| - x
  {
    hide IsRun, Weight, Retry, LogFixed, Undisturbed, Rejected;
    var lead := r.states[ks[x]].peers[i].log;
    RetryStep(n, r, a, ks[x], i, bid, j, t, f);
    WeightPositive(lead, f, Tried(r, ks[x]));
    if x + 1 < |ks| {
      var k, k' := ks[x], ks[x + 1];
      assert ks[x + 1 - 1] < ks[x + 1] && Undisturbed(r, ks[x + 1 - 1] + 1, ks[x + 1], i, j);
      RetriesFrom(n, r, a, ks, i, bid, j, t, f, x + 1);
      RetryStep(n, r, a, k', i, bid, j, t, f);
      TriesNext(n, r, k, k', i, bid, j, t);
      LeaderLogGrows(n, r, k, k', i);
      WeightDrops(lead, r.states[k'].peers[i].log, f, Tried(r, k));
    }
  }

  /** The fast-backup bound, for every run: a goroutine whose nextIndex nobody else writes between its
      rejections is rejected, by a follower whose log stays the same, at most once more often than
      that log has terms.  The leader may append meanwhile. */
  lemma FastBackup(n: nat, r: Run, a: nat, ks: seq<nat>, i: nat, bid: nat, j: nat, t: nat, f: Log)
    requires IsRun(n, r) && RetriesAlone(r, a, ks, i, bid, j, t, f)
    ensures |ks| <= 1 + |Terms(f)|
  {
    hide IsRun, Terms, Weight, LogFixed, Undisturbed;
    if |ks| > 0 {
      RetriesFrom(n, r, a, ks, i, bid, j, t, f, 0);
      WeightAtMost(f, Tried(r, ks[0]));
    }
  }

  // ---------------------------------------------------------------- when a rejection helps

  /** The log has an entry of term `t` at an index from 1 to `c`. */
  ghost predicate HasUpTo(log: Log, t: nat, c: nat) {
    exists k :: 1 <= k <= c && Has(log, t, k)
  }

  /** The rejection leads below `x`: either the leader has an entry of the conflicting term no later
      than the index reported, and its entry before `x` is of a later term, or it has no such entry
      and the index reported is below `x`. */
  ghost predicate LeadsBelow(log: Log, r: AppendReply, x: nat) {
    if r.conflictTerm != 0 && HasUpTo(log, r.conflictTerm, r.conflictFirstIndex)
    then 1 <= x <= |log| && log[x - 1].term > r.conflictTerm
    else r.conflictFirstIndex < x
  }

  lemma NextBelowIff(log: Log, r: AppendReply, next: nat, x: nat)
    requires Shaped(log) && NextIndexInBounds(log, r, next) && 1 <= x < next <= |log|
    ensures GetNextIndex(log, r, next) < x <==> LeadsBelow(log, r, x)
  {
    var t, c := r.conflictTerm, r.conflictFirstIndex;
    if t != 0 {
      var j := SearchBack(log, c, t);
      if HasUpTo(log, t, c) {
        var k :| 1 <= k <= c && Has(log, t, k);
        assert log[k].term <= log[c].term && j != 0;
        var m := SearchForward(log, j, next, t);
        assert log[m].term == t;
        assert m + 1 < next ==> log[m + 1].term > t;
      } else {
        assert j != 0 ==> Has(log, t, j);
      }
    }
  }

  /** Exactly when a rejection lowers nextIndex: if the request was sent for an index no larger than
      the present one, always; if another goroutine has lowered it since the request was sent, only
      if the rejection leads below the present value.  Otherwise progress is undone. */
  lemma RejectionLowersIff(n: nat, r: Run, k: nat, i: nat, bid: nat, j: nat, t: nat)
    requires IsRun(n, r) && Retries(r, k, i, bid, j, t)
    ensures NextOf(r.states[k + 1], i, j) < NextOf(r.states[k], i, j)
            <==> Tried(r, k) <= NextOf(r.states[k], i, j)
                 || LeadsBelow(r.states[k].peers[i].log, r.steps[k].m.reply, NextOf(r.states[k], i, j))
  {
    hide SystemOk, IsRun, Shaped, GetNextIndex, LeadsBelow;
    var m := r.steps[k].m;
    var p := r.states[k].peers[i];
    StepAt(n, r, k);
    var h := Record(n, r, k);
    ReplyToLeader(r.states[k], h, m);
    NextIndexDecreases(p.log, m.args, m.reply);
    RunLogShaped(n, r, k, i);
    if NextOf(r.states[k], i, j) < Tried(r, k) {
      NextBelowIff(p.log, m.reply, Tried(r, k), p.nextIndex[j]);
    }
  }

  // ---------------------------------------------------------------- when matchIndex falls

  /** The step is a success counted for a broadcast whose index is below matchIndex, at a time when
      nextIndex has been moved back to that index or further. */
  ghost predicate Overwrites(s: System, step: Step, i: nat, j: nat) {
    && step.ReturnAppend? && step.m.AppendRep? && step.m.src == i && step.m.dst == j && step.m.reply.success
    && i < |s.peers| && s.peers[i].currentTerm == step.m.args.term && step.m.bid < |s.peers[i].broadcasts|
    && NextOf(s, i, j) <= s.peers[i].broadcasts[step.m.bid].index < MatchOf(s, i, j)
  }

  lemma OtherStepKeepsMatch(s: System, step: Step, i: nat)
    requires Enabled(s, step) && InBounds(s, step) && i < |s.peers| && !step.ReturnAppend?
    requires s.peers[i].role == Leader && i < |Do(s, step).peers| && Do(s, step).peers[i].role == Leader
    ensures Do(s, step).peers[i].matchIndex == s.peers[i].matchIndex
  {
    hide Reconcile, Consistent, Grants, Rejection, Ballots, SendInBounds, ReturnInBounds, Request;
  }

  lemma ReturnMatch(s: System, m: Message, i: nat, j: nat)
    requires Enabled(s, ReturnAppend(m)) && InBounds(s, ReturnAppend(m)) && i < |s.peers|
    requires j < |s.peers[i].nextIndex| && j < |s.peers[i].matchIndex|
    ensures MatchOf(Do(s, ReturnAppend(m)), i, j) < MatchOf(s, i, j) <==> Overwrites(s, ReturnAppend(m), i, j)
  {
    hide GetNextIndex, Commits;
  }

  /** matchIndex is not monotone: within one leadership a step lowers it if and only if it overwrites
      it with the index of an older broadcast, after nextIndex has moved back. */
  lemma MatchIndexFallsIff(n: nat, r: Run, a: nat, i: nat, j: nat, t: nat)
    requires IsRun(n, r) && a < |r.steps| && a + 1 < |r.states| && j < n
    requires LeadsIn(r.states[a], i, t) && LeadsIn(r.states[a + 1], i, t)
    ensures MatchOf(r.states[a + 1], i, j) < MatchOf(r.states[a], i, j) <==> Overwrites(r.states[a], r.steps[a], i, j)
  {
    hide IsRun, Do, Enabled, InBounds, HeldBy;
    StepAt(n, r, a);
    LeaderIndicesSound(n, r, a, i, j);
    if r.steps[a].ReturnAppend? {
      hide Overwrites, MatchOf;
      ReturnMatch(r.states[a], r.steps[a].m, i, j);
    } else {
      OtherStepKeepsMatch(r.states[a], r.steps[a], i);
    }
  }

  // ---------------------------------------------------------------- how the indices start and rise

  lemma WinResets(s: System, step: Step, i: nat)
    requires WinsBy(s, step, i) && InBounds(s, step)
    ensures i < |Do(s, step).peers| && Do(s, step).peers[i].nextIndex == Filled(s.peers[i].n, |s.peers[i].log|)
    ensures Do(s, step).peers[i].matchIndex == Filled(s.peers[i].n, 0)
  {
  }

  /** A new leader assumes that every server's log ends where its own does, and knows of no copy. */
  lemma NewLeaderIndices(n: nat, r: Run, a: nat, i: nat, j: nat)
    requires IsRun(n, r) && a < |r.steps| && a + 1 < |r.states| && j < n && WinsBy(r.states[a], r.steps[a], i)
    ensures NextOf(r.states[a + 1], i, j) == |LogOf(r.states[a], i)| && MatchOf(r.states[a + 1], i, j) == 0
  {
    hide IsRun, Do, InBounds, Enabled;
    StepAt(n, r, a);
    WinResets(r.states[a], r.steps[a], i);
    assert r.states[a].peers[i].n == n by { KnowsSize(n, r, a, i); }
  }

  lemma KnowsSize(n: nat, r: Run, a: nat, i: nat)
    requires IsRun(n, r) && a < |r.states| && i < |r.states[a].peers|
    ensures r.states[a].peers[i].n == n
  {
    hide IsRun, SystemOk, Inv, PeerOk;
    ClusterSize(n, r, a);
    var h := Record(n, r, a);
    SystemWellFormed(r.states[a], h);
    PeerAt(r.states[a], h, i);
    PeerMirrors(h, r.states[a].peers[i]);
  }

  /** A counted success leaves nextIndex beyond the broadcast's index, and sets matchIndex to that index
      if nextIndex was not beyond it already. */
  lemma SuccessRaises(n: nat, r: Run, a: nat, m: Message)
    requires IsRun(n, r) && a < |r.steps| && a + 1 < |r.states| && r.steps[a] == ReturnAppend(m) && m.AppendRep?
    requires m.src < |r.states[a].peers| && r.states[a].peers[m.src].currentTerm == m.args.term && m.reply.success
    requires m.bid < |r.states[a].peers[m.src].broadcasts|
    ensures var index := r.states[a].peers[m.src].broadcasts[m.bid].index;
      var next := NextOf(r.states[a], m.src, m.dst);
      && NextOf(r.states[a + 1], m.src, m.dst) == (if next <= index then index + 1 else next)
      && MatchOf(r.states[a + 1], m.src, m.dst) == (if next <= index then index else MatchOf(r.states[a], m.src, m.dst))
  {
    hide IsRun, GetNextIndex, Commits;
    StepAt(n, r, a);
  }
}
