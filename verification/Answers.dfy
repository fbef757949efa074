/** What peers answer in a run, and what becomes of what they hear: the other half of the guarantees of
    module Theorems, which say what peers never do. */
module Answers {
  import opened Logs
  import opened Consensus
  import opened Node
  import opened Cluster
  import opened Origins
  import opened Invariants
  import opened Refinement
  import opened Repair
  import opened Theorems
  import opened Reigns

  // ---------------------------------------------------------------- votes

  /** The log ends with an entry of a later term than `lastTerm`, or of the same at a larger index. */
  ghost predicate Ahead(log: Log, lastIndex: nat, lastTerm: nat) {
    |log| >= 1 && (log[|log| - 1].term > lastTerm || (log[|log| - 1].term == lastTerm && |log| - 1 > lastIndex))
  }

  /** A vote is refused if and only if the request is of an older term, the vote of this term has gone
      to another candidate, or the voter's own log is ahead of the candidate's. */
  lemma VoteRefusedIff(n: nat, r: Run, a: nat, m: Message) returns (granted: bool)
    requires IsRun(n, r) && a < |r.steps| && a + 1 < |r.states| && r.steps[a] == ReceiveVote(m) && m.VoteReq?
    requires m.dst < |r.states[a].peers| && m.dst < |r.states[a + 1].peers|
    ensures r.states[a + 1].net
            == r.states[a].net + {VoteRep(m.src, m.dst, m.vargs, VoteReply(r.states[a].peers[m.dst].currentTerm, granted))}
    ensures var p := r.states[a].peers[m.dst];
      !granted <==> m.vargs.term < p.currentTerm || (p.voteFor != NOBODY && p.voteFor != m.src)
                    || Ahead(p.log, m.vargs.lastLogIndex, m.vargs.lastLogTerm)
    ensures granted ==> r.states[a + 1].peers[m.dst].voteFor == m.src
    ensures !granted ==> r.states[a + 1].peers[m.dst] == r.states[a].peers[m.dst]
  {
    hide IsRun, SystemOk, ClaimOk, Inv;
    StepAt(n, r, a);
    var h := Record(n, r, a);
    MessageAt(r.states[a], h, m);
    granted := HandleVote(r.states[a].peers[m.dst], m.vargs).1.granted;
  }

  /** Every vote request describes the log its sender had when it started the election. */
  lemma BallotSent(n: nat, r: Run, a: nat, m: Message) returns (c: nat)
    requires IsRun(n, r) && a < |r.states| && m in r.states[a].net && m.VoteReq?
    ensures c < a && c < |r.steps| && r.steps[c] == Timeout(m.src) && m.src < |r.states[c].peers|
    ensures var p := r.states[c].peers[m.src];
      |p.log| >= 1 && m.vargs == VoteArgs(p.currentTerm + 1, m.src, |p.log| - 1, p.log[|p.log| - 1].term)
  {
    hide Enabled, InBounds, After, SystemOk, Inv, PeerOk;
    c := Entered(r, 0, a, m);
    assert Takes(r, c);
    StepAt(n, r, c);
    var h := Record(n, r, c);
    forall i | 0 <= i < |r.states[c].peers|
      ensures r.states[c].peers[i].me == i
    {
      PeerAt(r.states[c], h, i);
    }
    NewBallot(r.states[c], r.steps[c], m);
  }

  lemma NewBallot(s: System, step: Step, m: Message)
    requires Enabled(s, step) && InBounds(s, step) && m.VoteReq? && m !in s.net && m in Do(s, step).net
    requires forall i :: 0 <= i < |s.peers| ==> s.peers[i].me == i
    ensures step == Timeout(m.src) && m.src < |s.peers| && |s.peers[m.src].log| >= 1
    ensures var p := s.peers[m.src]; m.vargs == VoteArgs(p.currentTerm + 1, m.src, |p.log| - 1, p.log[|p.log| - 1].term)
  {
    hide Request, SendInBounds, HandleAppend, HandleVote, AppendReturn, VoteReturn;
  }

  /** Of any two logs at least one is not behind the other, so of any two servers at least one can get
      the other's vote. */
  lemma OneNotBehind(a: Log, b: Log)
    requires |a| >= 1 && |b| >= 1
    ensures !Ahead(a, |b| - 1, LastTerm(b)) || !Ahead(b, |a| - 1, LastTerm(a))
    ensures UpToDate(|b| - 1, LastTerm(b), a) || UpToDate(|a| - 1, LastTerm(a), b)
    ensures Ahead(a, |b| - 1, LastTerm(b)) <==> !UpToDate(|b| - 1, LastTerm(b), a)
  {
  }

  // ---------------------------------------------------------------- batches

  /** What a peer in term `t` with this log answers to a request: yes if it has the entry before the
      batch; otherwise where its log ends, or the term it has there and the first index of that term. */
  ghost predicate Tells(log: Log, t: nat, a: AppendArgs, reply: AppendReply) {
    && reply.term == t
    && (reply.success <==> t == a.term && Has(log, a.prevLogTerm, a.prevLogIndex))
    && (!reply.success && t == a.term && |log| <= a.prevLogIndex ==> reply.conflictTerm == 0 && reply.conflictFirstIndex == |log|)
    && (!reply.success && t == a.term && a.prevLogIndex < |log| ==>
          && reply.conflictTerm == log[a.prevLogIndex].term && Has(log, reply.conflictTerm, reply.conflictFirstIndex)
          && forall k :: 0 <= k < reply.conflictFirstIndex ==> log[k].term < reply.conflictTerm)
  }

  lemma HandlerTells(p: Peer, a: AppendArgs)
    requires Shaped(p.log) && a.term <= p.currentTerm
    ensures Tells(p.log, p.currentTerm, a, HandleAppend(p, a).1)
  {
    hide Reconcile;
    if a.prevLogIndex < |p.log| {
      BelowRun(p.log, a.prevLogIndex);
    }
  }

  /** Every reply in a run tells about the log its sender had at some earlier moment. */
  lemma ReplyTells(n: nat, r: Run, a: nat, m: Message) returns (c: nat)
    requires IsRun(n, r) && a < |r.states| && m in r.states[a].net && m.AppendRep?
    ensures c < a && m.dst < |r.states[c].peers|
    ensures Tells(r.states[c].peers[m.dst].log, r.states[c].peers[m.dst].currentTerm, m.args, m.reply)
  {
    hide Tells, Shaped, HandleAppend, Do, InBounds;
    c := ReplySent(n, r, 0, a, m);
    StepAt(n, r, c);
    RunLogShaped(n, r, c, m.dst);
    HandlerTells(r.states[c].peers[m.dst], m.args);
  }

  lemma RunLogShaped(n: nat, r: Run, a: nat, i: nat)
    requires IsRun(n, r) && a < |r.states| && i < |r.states[a].peers|
    ensures Shaped(r.states[a].peers[i].log)
  {
    hide SystemOk, Inv, PeerOk, IsRun, Shaped, Backed, LeaderLogsOk;
    var h := Record(n, r, a);
    PeerAt(r.states[a], h, i);
    BackedIsShaped(h.glog, r.states[a].peers[i].log);
  }

  /** Every handled request is answered, by what the receiver's log says at that moment; a request that
      is not accepted changes nothing at the receiver, so a candidate stays one. */
  lemma RequestAnswered(n: nat, r: Run, a: nat, m: Message) returns (reply: AppendReply)
    requires IsRun(n, r) && a < |r.steps| && a + 1 < |r.states| && r.steps[a] == ReceiveAppend(m) && m.AppendReq?
    requires m.dst < |r.states[a].peers| && m.dst < |r.states[a + 1].peers|
    ensures r.states[a + 1].net == r.states[a].net + {AppendRep(m.src, m.dst, m.bid, m.args, reply)}
    ensures Tells(r.states[a].peers[m.dst].log, r.states[a].peers[m.dst].currentTerm, m.args, reply)
    ensures !reply.success ==> r.states[a + 1].peers == r.states[a].peers
  {
    hide IsRun, Tells, Reconcile, Shaped;
    StepAt(n, r, a);
    reply := HandleAppend(r.states[a].peers[m.dst], m.args).1;
    RunLogShaped(n, r, a, m.dst);
    HandlerTells(r.states[a].peers[m.dst], m.args);
  }

  /** The step lets peer `m.dst` accept a batch of its own term. */
  ghost predicate Accepts(r: Run, a: nat, m: Message) {
    && a < |r.steps| && a + 1 < |r.states| && r.steps[a] == ReceiveAppend(m) && m.AppendReq?
    && m.dst < |r.states[a].peers| && m.dst < |r.states[a + 1].peers|
    && r.states[a].peers[m.dst].currentTerm == m.args.term
    && Has(r.states[a].peers[m.dst].log, m.args.prevLogTerm, m.args.prevLogIndex)
  }

  /** A peer that accepts a batch says so, and takes over the leader's commit index if it is larger than
      its own: the clamp is never needed. */
  lemma CommitFollowsLeader(n: nat, r: Run, a: nat, m: Message)
    requires IsRun(n, r) && Accepts(r, a, m)
    ensures var p, q := r.states[a].peers[m.dst], r.states[a + 1].peers[m.dst];
      && q.commitIndex == (if p.commitIndex < m.args.leaderCommit then m.args.leaderCommit else p.commitIndex)
      && q.role == Follower && q.currentTerm == p.currentTerm
    ensures r.states[a + 1].net
            == r.states[a].net + {AppendRep(m.src, m.dst, m.bid, m.args, AppendReply(m.args.term, 0, 0, true))}
  {
    hide IsRun, Reconcile;
    StepAt(n, r, a);
    LeaderCommitCovered(n, r, a, m);
  }

  /** Commitment spreads: a peer that accepts a request of a broadcast its leader created after
      committing `k` has committed `k` as well. */
  lemma CommitSpreads(n: nat, r: Run, b: nat, a: nat, m: Message)
    requires IsRun(n, r) && Accepts(r, a, m)
    requires b < |r.states| && LeadsIn(r.states[b], m.src, m.args.term) && |r.states[b].peers[m.src].broadcasts| <= m.bid
    ensures r.states[b].peers[m.src].commitIndex <= r.states[a + 1].peers[m.dst].commitIndex
  {
    hide IsRun, Do, InBounds;
    StepAt(n, r, a);
    CommitFollowsLeader(n, r, a, m);
    AnnouncesAtLeast(n, r, b, a, m);
  }

  // ---------------------------------------------------------------- commands

  /** Step `c` submits the command at server `j`, which leads the entry's term and puts it at index `k`. */
  ghost predicate SubmittedAt(r: Run, c: nat, j: nat, k: nat, e: Entry) {
    c < |r.steps| && c < |r.states| && r.steps[c] == Submit(j, e.command) && LeadsIn(r.states[c], j, e.term)
    && |r.states[c].peers[j].log| == k
  }

  /** Where an entry of a log comes from: it was there, was just submitted, or was in an accepted batch. */
  lemma EntrySource(s: System, step: Step, i: nat, k: nat)
    requires Enabled(s, step) && InBounds(s, step) && i < |s.peers| && i < |Do(s, step).peers| && Durable(s.peers[i])
    requires k < |Do(s, step).peers[i].log|
    ensures var e := Do(s, step).peers[i].log[k];
      || (k < |s.peers[i].log| && s.peers[i].log[k] == e)
      || (step == Submit(i, e.command) && LeadsIn(s, i, e.term) && |s.peers[i].log| == k)
      || (step.ReceiveAppend? && step.m.dst == i && step.m.args.prevLogIndex < k
          && k - step.m.args.prevLogIndex - 1 < |step.m.args.entries|
          && step.m.args.entries[k - step.m.args.prevLogIndex - 1] == e)
  {
    hide AlreadyHeld, Grants, Rejection, Ballots, SendInBounds, ReturnInBounds, Request, GetNextIndex, Commits;
  }

  lemma RequestEntries(n: nat, r: Run, a: nat, m: Message, x: nat) returns (c: nat)
    requires IsRun(n, r) && a < |r.states| && m in r.states[a].net && m.AppendReq? && x < |m.args.entries|
    ensures c < a && m.src < |r.states[c].peers| && m.args.prevLogIndex + 1 + x < |r.states[c].peers[m.src].log|
    ensures r.states[c].peers[m.src].log[m.args.prevLogIndex + 1 + x] == m.args.entries[x]
  {
    hide IsRun;
    c := RequestSent(n, r, a, m);
  }

  /** No entry is invented: every entry after the sentinel, in any log at any moment, was submitted, as
      this command, at this index, to the leader of its term. */
  lemma {:induction false} EntryWasSubmitted(n: nat, r: Run, a: nat, i: nat, k: nat) returns (c: nat, j: nat)
    requires IsRun(n, r) && a < |r.states| && i < |r.states[a].peers| && 1 <= k < |r.states[a].peers[i].log|
    ensures c < a && SubmittedAt(r, c, j, k, r.states[a].peers[i].log[k])
    decreases a
  {
    hide Do, InBounds, Enabled;
    StepAt(n, r, a - 1);
    ClusterSize(n, r, a);
    ClusterSize(n, r, a - 1);
    CrashLosesNothingDurable(n, r, a - 1, i);
    EntrySource(r.states[a - 1], r.steps[a - 1], i, k);
    var s, e := r.states[a - 1], r.states[a].peers[i].log[k];
    if k < |s.peers[i].log| && s.peers[i].log[k] == e {
      c, j := EntryWasSubmitted(n, r, a - 1, i, k);
    } else if r.steps[a - 1].ReceiveAppend? {
      var m := r.steps[a - 1].m;
      assert m in s.net && m.AppendReq? by { ReceivedIsSent(s, r.steps[a - 1]); }
      var d := RequestEntries(n, r, a - 1, m, k - m.args.prevLogIndex - 1);
      c, j := EntryWasSubmitted(n, r, d, m.src, k);
    } else {
      c, j := a - 1, i;
    }
  }

  lemma ReceivedIsSent(s: System, step: Step)
    requires Enabled(s, step) && step.ReceiveAppend?
    ensures step.m in s.net && step.m.AppendReq?
  {
  }

  /** Every command a server applies was submitted before, to the leader of some term. */
  lemma AppliedWasSubmitted(n: nat, r: Run, a: nat, i: nat, x: nat) returns (c: nat, j: nat)
    requires IsRun(n, r) && a < |r.states| && i < |r.states[a].peers| && x < |r.states[a].peers[i].stream|
    ensures c < a && c < |r.steps| && r.steps[c] == Submit(j, r.states[a].peers[i].stream[x].command)
    ensures j < |r.states[c].peers| && r.states[c].peers[j].role == Leader
    ensures r.states[a].peers[i].stream[x].index == |r.states[c].peers[j].log|
  {
    hide IsRun;
    AppliesInOrder(n, r, a, i);
    c, j := EntryWasSubmitted(n, r, a, i, x + 1);
  }
}
