/** How a leader finds the point where a follower's log still agrees with its own.

  Pure reasoning about one leader log, one follower log and the indices tried: a rejected probe
  strictly lowers a weight that is at most one more than the number of distinct terms of the
  follower's log.  Module Indices carries this over to the goroutines of a run, which share the
  nextIndex they retry from, and shows when it does and when it does not bound them.
 */
module Repair {
  import opened Logs
  import opened Consensus
  import opened Node
  import opened Invariants
  import opened Refinement

  /** A log with its sentinel, whose terms never decrease and are nonzero after the sentinel. */
  ghost predicate Shaped(log: Log) {
    && |log| >= 1 && log[0].term == 0
    && (forall i, j :: 0 <= i <= j < |log| ==> log[i].term <= log[j].term)
    && (forall i :: 1 <= i < |log| ==> log[i].term >= 1)
  }

  /** The probe sent for a given nextIndex. */
  function Probe(lead: Log, next: nat): AppendArgs
    requires 1 <= next <= |lead|
  {
    AppendArgs(0, 0, next - 1, lead[next - 1].term, [], 0)
  }

  /** Where the leader continues after the follower rejects the probe at `next`. */
  function Retry(lead: Log, follower: Log, next: nat): (r: nat)
    requires 1 <= next <= |lead| && Shaped(lead) && Shaped(follower)
    requires !Consistent(follower, Probe(lead, next))
    ensures 1 <= r < next
  {
    var a := Probe(lead, next);
    var reply := Rejection(follower, 0, a);
    RejectionLandsBelow(lead, follower, next);
    NextIndexDecreases(lead, a, reply);
    GetNextIndex(lead, reply, next)
  }

  lemma RejectionLandsBelow(lead: Log, follower: Log, next: nat)
    requires 1 <= next <= |lead| && Shaped(lead) && Shaped(follower)
    requires !Consistent(follower, Probe(lead, next))
    ensures RejectionOk(Probe(lead, next), Rejection(follower, 0, Probe(lead, next)))
  {
    if |follower| > next - 1 {
      assert follower[next - 1].term != follower[0].term;
    }
  }

  /** Number of rejections before a probe is accepted. */
  ghost function Rejections(lead: Log, follower: Log, next: nat): nat
    requires 1 <= next <= |lead| && Shaped(lead) && Shaped(follower)
    decreases next
  {
    if Consistent(follower, Probe(lead, next)) then 0
    else 1 + Rejections(lead, follower, Retry(lead, follower, next))
  }

  ghost function TermsUpTo(log: Log, t: nat): set<nat> {
    set i | 0 <= i < |log| && 1 <= log[i].term <= t :: log[i].term
  }

  ghost function Terms(log: Log): set<nat> {
    set i | 0 <= i < |log| && 1 <= log[i].term :: log[i].term
  }

  /** After a conflict in term t, the next probe is accepted or meets a strictly smaller term. */
  lemma ConflictTermDrops(lead: Log, follower: Log, next: nat)
    requires 1 <= next <= |lead| && next <= |follower| && Shaped(lead) && Shaped(follower)
    requires !Consistent(follower, Probe(lead, next))
    ensures var r := Retry(lead, follower, next);
      && r <= |follower|
      && (Consistent(follower, Probe(lead, r)) || follower[r - 1].term < follower[next - 1].term)
  {
    var a := Probe(lead, next);
    var t := follower[next - 1].term;
    var first := FirstOfRun(follower, next - 1);
    var reply := Rejection(follower, 0, a);
    assert reply == AppendReply(0, t, first, false);
    assert t != 0 by { RejectionLandsBelow(lead, follower, next); }
    BelowRun(follower, next - 1);
    RejectionLandsBelow(lead, follower, next);
    if lead[first].term >= t {
      var j := SearchBack(lead, first, t);
      if j != 0 {
        var m := SearchForward(lead, j, next, t);
        assert lead[m].term == t;
        assert Retry(lead, follower, next) == m + 1;
      }
    }
  }

  lemma BelowRun(log: Log, i: nat)
    requires Shaped(log) && i < |log|
    ensures forall k :: 0 <= k < FirstOfRun(log, i) ==> log[k].term < log[i].term
  {
    var j := FirstOfRun(log, i);
    if j > 0 {
      assert log[j - 1].term <= log[i].term;
    }
  }

  /** How many more probes a follower can reject, the one at `next` included. */
  ghost function Weight(follower: Log, next: nat): nat
    requires next >= 1
  {
    if next <= |follower| then |TermsUpTo(follower, follower[next - 1].term)| else 1 + |Terms(follower)|
  }

  lemma WeightAtMost(follower: Log, next: nat)
    requires next >= 1
    ensures Weight(follower, next) <= 1 + |Terms(follower)|
  {
    if next <= |follower| {
      SubsetCard(TermsUpTo(follower, follower[next - 1].term), Terms(follower));
    }
  }

  ghost predicate Rejected(lead: Log, follower: Log, next: nat) {
    1 <= next <= |lead| && Shaped(lead) && Shaped(follower) && !Consistent(follower, Probe(lead, next))
  }

  lemma WeightPositive(lead: Log, follower: Log, next: nat)
    requires Rejected(lead, follower, next)
    ensures Weight(follower, next) >= 1
  {
    if next <= |follower| {
      var t := follower[next - 1].term;
      RejectionLandsBelow(lead, follower, next);
      assert t in TermsUpTo(follower, t);
    }
  }

  /** If the retry after a rejection is rejected as well, the weight has dropped.  The leader's log may
      have grown meanwhile. */
  lemma WeightDrops(lead: Log, lead': Log, follower: Log, next: nat)
    requires Rejected(lead, follower, next) && lead <= lead'
    requires Rejected(lead', follower, Retry(lead, follower, next))
    ensures 1 + Weight(follower, Retry(lead, follower, next)) <= Weight(follower, next)
  {
    var r := Retry(lead, follower, next);
    if next <= |follower| {
      assert Probe(lead, r) == Probe(lead', r);
      ConflictTermDrops(lead, follower, next);
      var t, u := follower[next - 1].term, follower[r - 1].term;
      assert t in TermsUpTo(follower, t) && t !in TermsUpTo(follower, u);
      assert TermsUpTo(follower, u) + {t} <= TermsUpTo(follower, t);
      SubsetCard(TermsUpTo(follower, u) + {t}, TermsUpTo(follower, t));
    } else {
      assert r == |follower|;
      SubsetCard(TermsUpTo(follower, follower[r - 1].term), Terms(follower));
    }
  }

  /** The bound on rejected probes of two fixed logs. */
  lemma {:induction false} RejectionsBounded(lead: Log, follower: Log, next: nat)
    requires 1 <= next <= |lead| && Shaped(lead) && Shaped(follower)
    ensures Rejections(lead, follower, next) <= Weight(follower, next) <= 1 + |Terms(follower)|
    decreases next
  {
    WeightAtMost(follower, next);
    if !Consistent(follower, Probe(lead, next)) {
      var r := Retry(lead, follower, next);
      RejectionsBounded(lead, follower, r);
      WeightPositive(lead, follower, next);
      if !Consistent(follower, Probe(lead, r)) {
        WeightDrops(lead, lead, follower, next);
      }
    }
  }

  /** What a lone goroutine does that nobody disturbs, against two fixed logs: it ends, within the
      bound, at an index from 1 to the first one tried where the follower accepts. */
  method FindAgreement(lead: Log, follower: Log, next: nat) returns (r: nat, rejected: nat)
    requires 1 <= next <= |lead| && Shaped(lead) && Shaped(follower)
    ensures 1 <= r <= next && Consistent(follower, Probe(lead, r))
    ensures rejected == Rejections(lead, follower, next) <= 1 + |Terms(follower)|
  {
    r, rejected := next, 0;
    while !Consistent(follower, Probe(lead, r))
      invariant 1 <= r <= next
      invariant rejected + Rejections(lead, follower, r) == Rejections(lead, follower, next)
      decreases r
    {
      r := Retry(lead, follower, r);
      rejected := rejected + 1;
    }
    RejectionsBounded(lead, follower, next);
  }

  /** The reply of a follower to any request, whatever its term and entries, makes the leader retry
      where the probe says. */
  lemma RetryIsGetNextIndex(lead: Log, follower: Log, t: nat, a: AppendArgs)
    requires a.prevLogIndex < |lead| && a.prevLogTerm == lead[a.prevLogIndex].term && Shaped(lead) && Shaped(follower)
    requires !Consistent(follower, a)
    ensures Rejected(lead, follower, a.prevLogIndex + 1)
    ensures NextIndexInBounds(lead, Rejection(follower, t, a), a.prevLogIndex + 1)
    ensures GetNextIndex(lead, Rejection(follower, t, a), a.prevLogIndex + 1) == Retry(lead, follower, a.prevLogIndex + 1)
  {
    var probe := Probe(lead, a.prevLogIndex + 1);
    RejectionLandsBelow(lead, follower, a.prevLogIndex + 1);
    NextIndexDecreases(lead, probe, Rejection(follower, 0, probe));
  }

  /** Repair converges: once a probe is accepted, one batch makes the follower's log equal to the
      leader's through `index`. */
  lemma RepairConverges(g: LeaderLogs, lead: Log, follower: Log, next: nat, index: nat)
    requires Backed(g, lead) && Backed(g, follower)
    requires 1 <= next <= index + 1 <= |lead| && Consistent(follower, Probe(lead, next))
    ensures Agree(Reconcile(follower, next - 1, lead[next..index + 1]), lead, index)
  {
    ReconcileWithLeader(g, lead, follower, next - 1, index);
  }

  /** Backed logs have the shape the bound needs. */
  lemma BackedIsShaped(g: LeaderLogs, log: Log)
    requires LeaderLogsOk(g) && Backed(g, log)
    ensures Shaped(log)
  {
    forall i, j | 0 <= i <= j < |log|
      ensures log[i].term <= log[j].term
    {
      TermsSorted(g, log, i, j);
    }
  }
}
