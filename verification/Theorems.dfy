/** The guarantees of the protocol, for every run of every cluster size.

  The statements speak only of the states and steps of runs; the history exists inside the proofs.
  A run may lose, delay, reorder and duplicate messages and crash any peer at any point.
 */
module Theorems {
  import opened Logs
  import opened Consensus
  import opened Node
  import opened Cluster
  import opened Invariants
  import opened Refinement
  import opened Origins

  /** Server `v` was, at some moment up to `a`, in term `t` holding the entries of `lead` up to `k`. */
  ghost predicate HeldBy(r: Run, a: nat, v: nat, t: nat, lead: Log, k: nat) {
    exists c :: 0 <= c <= a && c < |r.states| && Holds(r.states[c], v, t, lead, k)
  }

  ghost predicate Holds(s: System, v: nat, t: nat, lead: Log, k: nat) {
    v < |s.peers| && s.peers[v].currentTerm == t && Agree(s.peers[v].log, lead, k)
  }

  // ---------------------------------------------------------------- the history of a run

  ghost predicate Witnessed(r: Run, a: nat, h: History) {
    forall key :: key in h.ack ==>
      key.term in h.glog && HeldBy(r, a, key.server, key.term, h.glog[key.term], h.ack[key])
  }

  ghost predicate Recorded(r: Run, a: nat, h: History)
    requires a < |r.states|
  {
    SystemOk(r.states[a], h) && Witnessed(r, a, h)
  }

  lemma HeldByLater(r: Run, a: nat, b: nat, v: nat, t: nat, lead: Log, lead': Log, k: nat)
    requires HeldBy(r, a, v, t, lead, k) && a <= b && lead <= lead'
    ensures HeldBy(r, b, v, t, lead', k)
  {
    var c :| 0 <= c <= a && c < |r.states| && Holds(r.states[c], v, t, lead, k);
    assert Holds(r.states[c], v, t, lead', k);
  }

  lemma HeldLess(r: Run, a: nat, v: nat, t: nat, lead: Log, k: nat, k': nat)
    requires HeldBy(r, a, v, t, lead, k) && k' <= k
    ensures HeldBy(r, a, v, t, lead, k')
  {
    var c :| 0 <= c <= a && c < |r.states| && Holds(r.states[c], v, t, lead, k);
    assert Holds(r.states[c], v, t, lead, k');
  }

  lemma HeldNow(r: Run, a: nat, h: History, key: Slot)
    requires a < |r.states| && SystemOk(r.states[a], h) && Sizes(h) && key in h.ack && key.term in h.glog
    requires key.server < h.n && h.term[key.server] == key.term
    requires Agree(h.log[key.server], h.glog[key.term], h.ack[key])
    ensures HeldBy(r, a, key.server, key.term, h.glog[key.term], h.ack[key])
  {
    hide Inv, ClaimsAgree, MessageOk, PeerOk;
    PeerMirrors(h, r.states[a].peers[key.server]);
    assert Holds(r.states[a], key.server, key.term, h.glog[key.term], h.ack[key]);
  }

  lemma WitnessedMoves(r: Run, a: nat, h: History, h': History)
    requires a + 1 < |r.states| && WellFormed(h) && Witnessed(r, a, h) && Moves(h, h') && WellFormed(h')
    requires SystemOk(r.states[a + 1], h')
    ensures Witnessed(r, a + 1, h')
  {
    hide SystemOk, HeldBy, VotesOk, LeadersOk;
    forall key | key in h'.ack
      ensures key.term in h'.glog && HeldBy(r, a + 1, key.server, key.term, h'.glog[key.term], h'.ack[key])
    {
      if key in h.ack && h'.ack[key] == h.ack[key] {
        assert h.glog[key.term] <= h'.glog[key.term];
        HeldByLater(r, a, a + 1, key.server, key.term, h.glog[key.term], h'.glog[key.term], h.ack[key]);
      } else {
        HeldNow(r, a + 1, h', key);
      }
    }
  }

  lemma SystemWellFormed(s: System, h: History)
    requires SystemOk(s, h)
    ensures Inv(h) && WellFormed(h) && Grows(h, h) && |s.peers| == h.n == s.n
  {
    hide LogsOk, Settled, Elections, ChosenOk, VotesOk, AcksOk, LeadersOk, PeerOk, MessageOk;
  }

  lemma OneMore(n: nat, r: Run, a: nat, h: History) returns (h': History)
    requires IsRun(n, r) && a < |r.steps| && Recorded(r, a, h)
    ensures Recorded(r, a + 1, h') && Grows(h, h')
  {
    hide SystemOk, Witnessed, Do, Enabled, InBounds, Inv;
    assert Takes(r, a);
    SystemWellFormed(r.states[a], h);
    h' := AnyStep(r.states[a], h, r.steps[a]);
    SystemWellFormed(r.states[a + 1], h');
    WitnessedMoves(r, a, h, h');
  }

  /** A history up to one moment of a run extends to every later one. */
  lemma {:induction false} Continue(n: nat, r: Run, a: nat, ha: History, b: nat) returns (h: History)
    requires IsRun(n, r) && a <= b < |r.states| && Recorded(r, a, ha)
    ensures Recorded(r, b, h) && Grows(ha, h)
    decreases b
  {
    hide SystemOk, Witnessed;
    if a == b {
      h := ha;
      SystemWellFormed(r.states[a], h);
    } else {
      var h1 := Continue(n, r, a, ha, b - 1);
      h := OneMore(n, r, b - 1, h1);
      GrowsTransitive(ha, h1, h);
    }
  }

  /** Every run has a history. */
  lemma Record(n: nat, r: Run, a: nat) returns (h: History)
    requires IsRun(n, r) && a < |r.states|
    ensures Recorded(r, a, h)
  {
    hide SystemOk;
    InitOk(n);
    h := Continue(n, r, 0, Genesis(n), a);
  }

  /** Histories for two moments of a run, the later extending the earlier. */
  lemma RecordTwo(n: nat, r: Run, a: nat, b: nat) returns (ha: History, hb: History)
    requires IsRun(n, r) && a <= b < |r.states|
    ensures Recorded(r, a, ha) && Recorded(r, b, hb) && Grows(ha, hb)
  {
    hide Recorded;
    ha := Record(n, r, a);
    hb := Continue(n, r, a, ha, b);
  }

  /** What a sound cluster says about one peer. */
  lemma PeerAt(s: System, h: History, i: nat)
    requires SystemOk(s, h) && i < |s.peers|
    ensures Inv(h) && s.peers[i].me == i && i < h.n && PeerOk(h, s.peers[i])
    ensures Backed(h.glog, s.peers[i].log) && LeaderLogsOk(h.glog)
  {
    hide Settled, Elections, ChosenOk, ClaimsAgree, MessageOk, Backed, LeaderLogsOk, BroadcastOk, CommitBacked, UpToDate;
  }

  /** What a sound cluster says about one message. */
  lemma MessageAt(s: System, h: History, m: Message)
    requires SystemOk(s, h) && m in s.net
    ensures Inv(h) && MessageOk(h, m)
  {
    hide Inv, PeerOk, ClaimsAgree, MessageOk;
  }

  // ---------------------------------------------------------------- no panic

  /** No step that the source can take ever indexes a log, nextIndex or matchIndex out of range. */
  lemma NoPanic(n: nat, r: Run, a: nat, step: Step)
    requires IsRun(n, r) && a < |r.states| && Enabled(r.states[a], step)
    ensures InBounds(r.states[a], step)
  {
    hide SystemOk, InBounds, IsRun;
    var h := Record(n, r, a);
    Bounds(r.states[a], h, step);
  }

  /** Consecutive states are related by the step between them. */
  lemma StepAt(n: nat, r: Run, a: nat)
    requires IsRun(n, r) && a < |r.steps|
    ensures Enabled(r.states[a], r.steps[a]) && InBounds(r.states[a], r.steps[a])
    ensures r.states[a + 1] == Do(r.states[a], r.steps[a])
  {
    hide Enabled, InBounds, Do;
    assert Takes(r, a);
    NoPanic(n, r, a, r.steps[a]);
  }

  /** The cluster keeps its size. */
  lemma {:induction false} ClusterSize(n: nat, r: Run, a: nat)
    requires IsRun(n, r) && a < |r.states|
    ensures r.states[a].n == n && |r.states[a].peers| == n
  {
    hide Enabled, InBounds, Do;
    if a > 0 {
      ClusterSize(n, r, a - 1);
      StepAt(n, r, a - 1);
      SameSize(r.states[a - 1], r.steps[a - 1]);
    }
  }

  lemma SameSize(s: System, step: Step)
    requires Enabled(s, step) && InBounds(s, step)
    ensures Do(s, step).n == s.n && |Do(s, step).peers| == |s.peers|
  {
    hide HandleAppend, HandleVote, AppendReturn, VoteReturn, ReturnInBounds, SendInBounds;
  }

  // ---------------------------------------------------------------- elections (section 5.2)

  /** Election Safety: at most one server is ever leader in a term. */
  lemma ElectionSafety(n: nat, r: Run, a: nat, b: nat, i: nat, j: nat)
    requires IsRun(n, r) && a <= b < |r.states|
    requires i < |r.states[a].peers| && j < |r.states[b].peers|
    requires r.states[a].peers[i].role == Leader && r.states[b].peers[j].role == Leader
    requires r.states[a].peers[i].currentTerm == r.states[b].peers[j].currentTerm
    ensures i == j
  {
    hide SystemOk, Inv, PeerOk, IsRun;
    var ha, hb := RecordTwo(n, r, a, b);
    PeerAt(r.states[a], ha, i);
    PeerAt(r.states[b], hb, j);
    PeerMirrors(ha, r.states[a].peers[i]);
    PeerMirrors(hb, r.states[b].peers[j]);
  }

  /** Terms never decrease, and within a term a vote, once cast, is never changed or forgotten,
      crashes included. */
  lemma TermsAndVotesStick(n: nat, r: Run, a: nat, b: nat, i: nat)
    requires IsRun(n, r) && a <= b < |r.states|
    requires i < |r.states[a].peers| && i < |r.states[b].peers|
    ensures r.states[a].peers[i].currentTerm <= r.states[b].peers[i].currentTerm
    ensures r.states[a].peers[i].currentTerm == r.states[b].peers[i].currentTerm && r.states[a].peers[i].voteFor != NOBODY
            ==> r.states[b].peers[i].voteFor == r.states[a].peers[i].voteFor
  {
    hide SystemOk, Inv, PeerOk, IsRun;
    var ha, hb := RecordTwo(n, r, a, b);
    PeerAt(r.states[a], ha, i);
    PeerAt(r.states[b], hb, i);
    PeerMirrors(ha, r.states[a].peers[i]);
    PeerMirrors(hb, r.states[b].peers[i]);
    assert ha.term[i] <= hb.term[i];
  }

  // ---------------------------------------------------------------- logs (section 5.3)

  /** Log Matching, between any two logs at any two moments. */
  lemma LogMatching(n: nat, r: Run, a: nat, b: nat, i: nat, j: nat, k: nat)
    requires IsRun(n, r) && a <= b < |r.states|
    requires i < |r.states[a].peers| && j < |r.states[b].peers|
    requires k < |r.states[a].peers[i].log| && k < |r.states[b].peers[j].log|
    requires r.states[a].peers[i].log[k].term == r.states[b].peers[j].log[k].term
    ensures Agree(r.states[a].peers[i].log, r.states[b].peers[j].log, k)
  {
    hide SystemOk, Inv, PeerOk, Backed, LeaderLogsOk, IsRun;
    var ha, hb := RecordTwo(n, r, a, b);
    PeerAt(r.states[a], ha, i);
    PeerAt(r.states[b], hb, j);
    BackedGrows(ha.glog, hb.glog, r.states[a].peers[i].log);
    SameTermSamePrefix(hb.glog, r.states[a].peers[i].log, r.states[b].peers[j].log, k);
  }

  /** Terms never decrease along a log. */
  lemma LogTermsSorted(n: nat, r: Run, a: nat, i: nat, j: nat, k: nat)
    requires IsRun(n, r) && a < |r.states| && i < |r.states[a].peers| && j <= k < |r.states[a].peers[i].log|
    ensures r.states[a].peers[i].log[j].term <= r.states[a].peers[i].log[k].term
  {
    hide SystemOk, Inv, PeerOk, Backed, LeaderLogsOk, IsRun;
    var h := Record(n, r, a);
    PeerAt(r.states[a], h, i);
    TermsSorted(h.glog, r.states[a].peers[i].log, j, k);
  }

  lemma CutMatches(h: History, log: Log, t: nat, prev: nat, prevTerm: nat, entries: seq<Entry>, x: nat)
    requires LeaderLogsOk(h.glog) && Backed(h.glog, log) && CutFrom(h, t, prev, prevTerm, entries)
    requires x < |entries| && Has(log, entries[x].term, prev + 1 + x)
    ensures log[prev].term == prevTerm
    ensures forall y :: 0 <= y <= x ==> log[prev + 1 + y] == entries[y]
  {
    hide Backed, LeaderLogsOk;
    var lead := h.glog[t];
    LeaderLogBacked(h.glog, t);
    assert entries[x] == lead[prev + 1 + x];
    SameTermSamePrefix(h.glog, log, lead, prev + 1 + x);
  }

  /** Log Matching between a log at one moment and a batch in flight at any other: where the terms of
      an entry agree, the entries and everything before them in the batch agree, and the batch fits
      the log. */
  lemma BatchMatching(n: nat, r: Run, a: nat, m: Message, b: nat, i: nat, x: nat)
    requires IsRun(n, r) && a < |r.states| && m in r.states[a].net && m.AppendReq?
    requires b < |r.states| && i < |r.states[b].peers| && x < |m.args.entries|
    requires Has(r.states[b].peers[i].log, m.args.entries[x].term, m.args.prevLogIndex + 1 + x)
    ensures var log := r.states[b].peers[i].log;
      && log[m.args.prevLogIndex].term == m.args.prevLogTerm
      && forall y :: 0 <= y <= x ==> log[m.args.prevLogIndex + 1 + y] == m.args.entries[y]
  {
    hide SystemOk, Inv, PeerOk, Backed, LeaderLogsOk, RequestOk, IsRun, Grows, Witnessed;
    var log, args := r.states[b].peers[i].log, m.args;
    var h: History;
    if a <= b {
      var ha;
      ha, h := RecordTwo(n, r, a, b);
      MessageAt(r.states[a], ha, m);
      PeerAt(r.states[b], h, i);
      RequestOkGrows(ha, h, m.src, args);
    } else {
      var hb;
      hb, h := RecordTwo(n, r, b, a);
      MessageAt(r.states[a], h, m);
      PeerAt(r.states[b], hb, i);
      GrowsLogs(hb, h);
      BackedGrows(hb.glog, h.glog, log);
      LeaderLogsSound(h);
    }
    RequestIsCut(h, m.src, args);
    CutMatches(h, log, args.term, args.prevLogIndex, args.prevLogTerm, args.entries, x);
  }

  lemma GrowsLogs(h: History, h': History)
    requires Grows(h, h')
    ensures LogsGrow(h.glog, h'.glog)
  {
  }

  lemma RequestIsCut(h: History, src: nat, a: AppendArgs)
    requires RequestOk(h, src, a)
    ensures CutFrom(h, a.term, a.prevLogIndex, a.prevLogTerm, a.entries)
  {
  }

  lemma CutsMatch(h: History, p: AppendArgs, q: AppendArgs, x: nat, y: nat, d: nat)
    requires LeaderLogsOk(h.glog)
    requires CutFrom(h, p.term, p.prevLogIndex, p.prevLogTerm, p.entries)
    requires CutFrom(h, q.term, q.prevLogIndex, q.prevLogTerm, q.entries)
    requires x < |p.entries| && y < |q.entries| && p.prevLogIndex + x == q.prevLogIndex + y
    requires p.entries[x].term == q.entries[y].term && d <= x && d <= y
    ensures p.entries[x - d] == q.entries[y - d]
  {
    hide Backed, LeaderLogsOk;
    var k := p.prevLogIndex + 1 + x;
    LeaderLogBacked(h.glog, p.term);
    LeaderLogBacked(h.glog, q.term);
    SameTermSamePrefix(h.glog, h.glog[p.term], h.glog[q.term], k);
    assert p.entries[x - d] == h.glog[p.term][k - d] && q.entries[y - d] == h.glog[q.term][k - d];
  }

  /** Log Matching between any two batches in flight: where they have an entry of the same index and
      term, they agree on it and on everything before it that both carry. */
  lemma BatchesMatch(n: nat, r: Run, a: nat, m: Message, m': Message, x: nat, y: nat, d: nat)
    requires IsRun(n, r) && a < |r.states| && m in r.states[a].net && m' in r.states[a].net && m.AppendReq? && m'.AppendReq?
    requires x < |m.args.entries| && y < |m'.args.entries| && m.args.prevLogIndex + x == m'.args.prevLogIndex + y
    requires m.args.entries[x].term == m'.args.entries[y].term && d <= x && d <= y
    ensures m.args.entries[x - d] == m'.args.entries[y - d]
  {
    hide SystemOk, Inv, PeerOk, Backed, LeaderLogsOk, CommitBacked, CutFrom, IsRun;
    var h := Record(n, r, a);
    MessageAt(r.states[a], h, m);
    MessageAt(r.states[a], h, m');
    LeaderLogsSound(h);
    CutsMatch(h, m.args, m'.args, x, y, d);
  }

  lemma LeaderLogsSound(h: History)
    requires Inv(h)
    ensures LeaderLogsOk(h.glog)
  {
    hide Settled, Elections, ChosenOk, LeaderLogsOk, Backed;
  }

  /** On every batch a peer accepts in a run, the source's rule equals Figure 2's. */
  lemma AcceptsLikeFigure2(n: nat, r: Run, a: nat, m: Message)
    requires IsRun(n, r) && a < |r.states| && m in r.states[a].net && m.AppendReq? && m.dst < |r.states[a].peers|
    requires Consistent(r.states[a].peers[m.dst].log, m.args)
    ensures var log := r.states[a].peers[m.dst].log;
      Reconcile(log, m.args.prevLogIndex, m.args.entries) == TruncateAndAppend(log, m.args.prevLogIndex + 1, m.args.entries)
  {
    hide TruncateAndAppend, Reconcile, IsRun;
    var log, args := r.states[a].peers[m.dst].log, m.args;
    forall i | 0 <= i < |args.entries| && args.prevLogIndex + 1 + i < |log|
               && log[args.prevLogIndex + 1 + i].term == args.entries[i].term
      ensures log[args.prevLogIndex + 1 + i] == args.entries[i]
    {
      BatchMatching(n, r, a, m, a, m.dst, i);
    }
    ReconcileIsFigure2(log, args.prevLogIndex, args.entries);
  }

  // ---------------------------------------------------------------- commitment (section 5.4)

  /** The committed part of a log, in the later of two histories. */
  lemma CommitLater(ha: History, hb: History, p: Peer)
    requires Grows(ha, hb) && PeerOk(ha, p)
    ensures p.commitIndex < |p.log| && CommitBacked(hb, p.log, p.commitIndex, p.currentTerm)
  {
    hide BroadcastOk, CommitBacked;
    CommitBackedGrows(ha, hb, p.log, p.log, p.commitIndex, p.currentTerm, p.currentTerm);
  }

  /** A committed prefix is in the log of a leader of the same or a later term. */
  lemma LaterLeaderCovers(h: History, p: Log, k: nat, t: nat, q: Log, u: nat)
    requires Inv(h) && Backed(h.glog, p) && Backed(h.glog, q) && CommitBacked(h, p, k, t)
    requires u in h.glog && h.glog[u] == q && t <= u
    ensures Agree(q, p, k)
  {
    hide Inv, Backed;
    if k == 0 {
      SentinelAgree(h.glog, q, p);
    } else {
      var e :| e in h.chosen && e.term <= t && k <= e.index && e.term in h.glog && Agree(p, h.glog[e.term], k);
      LeaderCompleteness(h, e, u);
    }
  }

  /** A committed prefix was in the log of a leader of a later term already before it was committed. */
  lemma EarlierLeaderCovers(h: History, h': History, p: Log, k: nat, t: nat, q: Log, u: nat)
    requires Inv(h') && Grows(h, h') && Backed(h'.glog, p) && Backed(h'.glog, q) && CommitBacked(h', p, k, t)
    requires u in h.glog && h.glog[u] == q && t < u
    ensures Agree(q, p, k)
  {
    hide Inv, Backed, Grows;
    if k == 0 {
      SentinelAgree(h'.glog, q, p);
    } else {
      var e :| e in h'.chosen && e.term <= t && k <= e.index && e.term in h'.glog && Agree(p, h'.glog[e.term], k);
      EarlierLeaderHas(h, h', e, u);
    }
  }

  /** Leader Completeness: whatever a peer ever considers committed is in the log of every leader of
      a later term, at every moment of the run, also before the peer learned of the commitment; and
      in the log of the leader of its own term from then on. */
  lemma LeadersHaveCommitted(n: nat, r: Run, a: nat, b: nat, i: nat, j: nat)
    requires IsRun(n, r) && a < |r.states| && b < |r.states|
    requires i < |r.states[a].peers| && j < |r.states[b].peers|
    requires r.states[b].peers[j].role == Leader
    requires r.states[a].peers[i].currentTerm < r.states[b].peers[j].currentTerm
             || (r.states[a].peers[i].currentTerm == r.states[b].peers[j].currentTerm && a <= b)
    ensures Agree(r.states[b].peers[j].log, r.states[a].peers[i].log, r.states[a].peers[i].commitIndex)
  {
    hide SystemOk, Inv, PeerOk, Backed, LeaderLogsOk, IsRun, CommitBacked, Agree, Witnessed;
    var p, q := r.states[a].peers[i], r.states[b].peers[j];
    if a <= b {
      var ha, hb := RecordTwo(n, r, a, b);
      PeerAt(r.states[a], ha, i);
      PeerAt(r.states[b], hb, j);
      PeerMirrors(hb, q);
      CommitLater(ha, hb, p);
      BackedGrows(ha.glog, hb.glog, p.log);
      LaterLeaderCovers(hb, p.log, p.commitIndex, p.currentTerm, q.log, q.currentTerm);
    } else {
      var hb, ha := RecordTwo(n, r, b, a);
      PeerAt(r.states[a], ha, i);
      PeerAt(r.states[b], hb, j);
      PeerMirrors(hb, q);
      PeerMirrors(ha, p);
      BackedGrows(hb.glog, ha.glog, q.log);
      EarlierLeaderCovers(hb, ha, p.log, p.commitIndex, p.currentTerm, q.log, q.currentTerm);
    }
  }

  /** Two committed prefixes agree as far as both reach. */
  lemma BackedCommitsAgree(h: History, p: Log, kp: nat, tp: nat, q: Log, kq: nat, tq: nat, k: nat)
    requires Inv(h) && Backed(h.glog, p) && Backed(h.glog, q) && LeaderLogsOk(h.glog)
    requires CommitBacked(h, p, kp, tp) && CommitBacked(h, q, kq, tq) && k <= kp && k <= kq
    ensures Agree(p, q, k)
  {
    hide Inv, Backed, LeaderLogsOk;
    if k == 0 {
      SentinelAgree(h.glog, p, q);
    } else {
      var d :| d in h.chosen && d.term <= tp && kp <= d.index && d.term in h.glog && Agree(p, h.glog[d.term], kp);
      var e :| e in h.chosen && e.term <= tq && kq <= e.index && e.term in h.glog && Agree(q, h.glog[e.term], kq);
      ChosenAgree(h, d, e, k);
    }
  }

  /** The committed parts of any two logs, at any two moments, are prefixes of one log. */
  lemma CommittedAgree(n: nat, r: Run, a: nat, b: nat, i: nat, j: nat, k: nat)
    requires IsRun(n, r) && a <= b < |r.states|
    requires i < |r.states[a].peers| && j < |r.states[b].peers|
    requires k <= r.states[a].peers[i].commitIndex && k <= r.states[b].peers[j].commitIndex
    ensures Agree(r.states[a].peers[i].log, r.states[b].peers[j].log, k)
  {
    hide SystemOk, Inv, PeerOk, Backed, LeaderLogsOk, IsRun, CommitBacked, Agree, Witnessed;
    var ha, hb := RecordTwo(n, r, a, b);
    var p, q := r.states[a].peers[i], r.states[b].peers[j];
    PeerAt(r.states[a], ha, i);
    PeerAt(r.states[b], hb, j);
    CommitLater(ha, hb, p);
    SystemWellFormed(r.states[b], hb);
    CommitLater(hb, hb, q);
    BackedGrows(ha.glog, hb.glog, p.log);
    BackedCommitsAgree(hb, p.log, p.commitIndex, p.currentTerm, q.log, q.commitIndex, q.currentTerm, k);
  }

  /** Only accepting a batch can take anything away from a log. */
  lemma LogOnlyGrows(s: System, step: Step, i: nat)
    requires Enabled(s, step) && InBounds(s, step) && i < |s.peers| && Durable(s.peers[i])
    requires !(step.ReceiveAppend? && step.m.dst == i)
    ensures i < |Do(s, step).peers| && s.peers[i].log <= Do(s, step).peers[i].log
  {
    hide HandleAppend, Grants, SendInBounds, ReturnInBounds, GetNextIndex, Commits;
  }

  /** One step keeps a committed prefix of any log. */
  lemma StepKeepsCommitted(s: System, h: History, step: Step, i: nat, k: nat)
    requires SystemOk(s, h) && Enabled(s, step) && InBounds(s, step) && i < |s.peers|
    requires k < |s.peers[i].log| && CommitBacked(h, s.peers[i].log, k, s.peers[i].currentTerm)
    ensures i < |Do(s, step).peers| && Agree(Do(s, step).peers[i].log, s.peers[i].log, k)
  {
    hide SystemOk, Inv, CommitBacked, PeerOk, Reconcile, InBounds;
    var p := s.peers[i];
    PeerAt(s, h, i);
    PeerMirrors(h, p);
    if step.ReceiveAppend? && step.m.dst == i {
      var a := step.m.args;
      MessageAt(s, h, step.m);
      if a.term == p.currentTerm && Consistent(p.log, a) {
        CommittedKept(h, i, a.prevLogIndex, a.entries, k);
      }
    } else {
      hide Do, Enabled;
      LogOnlyGrows(s, step, i);
    }
  }

  /** Nothing a peer considered committed ever disappears from its log or changes there, whatever
      it receives and however often it crashes. */
  lemma {:induction false} CommittedStays(n: nat, r: Run, a: nat, b: nat, i: nat)
    requires IsRun(n, r) && a <= b < |r.states| && i < |r.states[a].peers|
    ensures i < |r.states[b].peers|
    ensures Agree(r.states[b].peers[i].log, r.states[a].peers[i].log, r.states[a].peers[i].commitIndex)
    decreases b
  {
    hide SystemOk, Inv, PeerOk, Enabled, InBounds, Do, Backed, LeaderLogsOk, IsRun;
    var p := r.states[a].peers[i];
    if a == b {
      var h := Record(n, r, a);
      PeerAt(r.states[a], h, i);
      SystemWellFormed(r.states[a], h);
      CommitLater(h, h, p);
    } else {
      var c := b - 1;
      CommittedStays(n, r, a, c, i);
      RunLength(n, r);
      StepAt(n, r, c);
      var ha, hc := RecordTwo(n, r, a, c);
      PeerAt(r.states[a], ha, i);
      CommitLater(ha, hc, p);
      TermsAndVotesStick(n, r, a, c, i);
      var q := r.states[c].peers[i];
      SystemWellFormed(r.states[c], hc);
      CommitBackedGrows(hc, hc, p.log, q.log, p.commitIndex, p.currentTerm, q.currentTerm);
      StepKeepsCommitted(r.states[c], hc, r.steps[c], i, p.commitIndex);
    }
  }

  lemma RunLength(n: nat, r: Run)
    requires IsRun(n, r)
    ensures |r.states| == |r.steps| + 1
  {
  }

  /** Every request in a run covers the commit index it carries. */
  lemma LeaderCommitCovered(n: nat, r: Run, a: nat, m: Message)
    requires IsRun(n, r) && a < |r.states| && m in r.states[a].net && m.AppendReq?
    ensures m.args.leaderCommit <= m.args.prevLogIndex + |m.args.entries|
  {
    hide SystemOk, Inv, CommitBacked, CutFrom, IsRun;
    var h := Record(n, r, a);
    MessageAt(r.states[a], h, m);
  }

  /** Within an incarnation the commit index, the apply position and the stream never move back;
      in particular the clamp on the leader's commit index never lowers it. */
  lemma CommitIndexMonotone(n: nat, r: Run, a: nat, i: nat)
    requires IsRun(n, r) && a + 1 < |r.states| && a < |r.steps|
    requires i < |r.states[a].peers| && i < |r.states[a + 1].peers| && r.steps[a] != Crash(i)
    ensures r.states[a].peers[i].commitIndex <= r.states[a + 1].peers[i].commitIndex
    ensures r.states[a].peers[i].lastApplied <= r.states[a + 1].peers[i].lastApplied
    ensures r.states[a].peers[i].stream <= r.states[a + 1].peers[i].stream
  {
    hide SystemOk, Inv, CommitBacked, PeerOk, IsRun, Reconcile, SendInBounds;
    StepAt(n, r, a);
    if r.steps[a].ReceiveAppend? {
      LeaderCommitCovered(n, r, a, r.steps[a].m);
    }
  }

  // ---------------------------------------------------------------- applying (section 5.4.3)

  /** Each incarnation applies entries 1, 2, 3, ... of its committed log, without gap or repetition. */
  lemma AppliesInOrder(n: nat, r: Run, a: nat, i: nat)
    requires IsRun(n, r) && a < |r.states| && i < |r.states[a].peers|
    ensures var p := r.states[a].peers[i];
      && |p.stream| == p.lastApplied <= p.commitIndex < |p.log|
      && forall x :: 0 <= x < |p.stream| ==> p.stream[x] == ApplyMsg(x + 1, p.log[x + 1].command)
  {
    hide SystemOk, Inv, PeerOk, IsRun;
    var h := Record(n, r, a);
    PeerAt(r.states[a], h, i);
    PeerMirrors(h, r.states[a].peers[i]);
  }

  /** State Machine Safety: of any two apply streams in a run, of one server or two, of one
      incarnation or two, one is a prefix of the other; so no index is ever applied with two
      different commands. */
  lemma StateMachineSafety(n: nat, r: Run, a: nat, b: nat, i: nat, j: nat)
    requires IsRun(n, r) && a <= b < |r.states|
    requires i < |r.states[a].peers| && j < |r.states[b].peers|
    ensures r.states[a].peers[i].stream <= r.states[b].peers[j].stream
            || r.states[b].peers[j].stream <= r.states[a].peers[i].stream
  {
    hide IsRun, Agree;
    var p, q := r.states[a].peers[i], r.states[b].peers[j];
    AppliesInOrder(n, r, a, i);
    AppliesInOrder(n, r, b, j);
    forall x | 0 <= x < |p.stream| && x < |q.stream|
      ensures p.stream[x] == q.stream[x]
    {
      CommittedAgree(n, r, a, b, i, j, x + 1);
      AgreeAt(p.log, q.log, x + 1);
    }
  }

  lemma AgreeAt(a: Log, b: Log, k: nat)
    requires Agree(a, b, k)
    ensures k < |a| && k < |b| && a[k] == b[k]
  {
  }

  // ---------------------------------------------------------------- durability

  /** After every step the disk decodes to the current term, vote and log, so a crash at any point
      changes none of them. */
  lemma CrashLosesNothingDurable(n: nat, r: Run, a: nat, i: nat)
    requires IsRun(n, r) && a < |r.states| && i < |r.states[a].peers|
    ensures Durable(r.states[a].peers[i])
    ensures var p, q := r.states[a].peers[i], Restart(r.states[a].peers[i]);
      q.currentTerm == p.currentTerm && q.voteFor == p.voteFor && q.log == p.log
  {
    hide SystemOk, Inv, PeerOk, IsRun;
    var h := Record(n, r, a);
    PeerAt(r.states[a], h, i);
    PeerMirrors(h, r.states[a].peers[i]);
  }

  // ---------------------------------------------------------------- counting acknowledgements

  /** What a leader's counters stand for.  Each broadcast of the leader's term has counted distinct
      other servers, nReplica of them with the leader itself, each of which has at some point of the
      run held, in this term, the leader's log through the broadcast's index. */
  lemma CountsAreSound(n: nat, r: Run, a: nat, i: nat, bid: nat)
    requires IsRun(n, r) && a < |r.states| && i < |r.states[a].peers| && r.states[a].peers[i].role == Leader
    requires bid < |r.states[a].peers[i].broadcasts|
    requires r.states[a].peers[i].broadcasts[bid].term == r.states[a].peers[i].currentTerm
    ensures var p := r.states[a].peers[i]; var b := p.broadcasts[bid];
      && b.nReplica == |b.acked + {i}| && i !in b.acked && b.index < |p.log|
      && forall v :: v in b.acked ==> v < n && HeldBy(r, a, v, p.currentTerm, p.log, b.index)
  {
    hide SystemOk, Inv, PeerOk, HeldBy, IsRun, CommitBacked, Backed, LeaderLogsOk;
    var h := Record(n, r, a);
    var p := r.states[a].peers[i];
    PeerAt(r.states[a], h, i);
    PeerMirrors(h, p);
    var b := p.broadcasts[bid];
    ClusterSize(n, r, a);
    SystemWellFormed(r.states[a], h);
    forall v | v in b.acked
      ensures v < n && HeldBy(r, a, v, p.currentTerm, p.log, b.index)
    {
      assert Slot(v, b.term) in h.ack;
      HeldLess(r, a, v, p.currentTerm, p.log, h.ack[Slot(v, b.term)], b.index);
    }
  }

  /** A leader's nextIndex entries stay within its log, and a matchIndex entry is an index through
      which that server has held the leader's log in this term. */
  lemma LeaderIndicesSound(n: nat, r: Run, a: nat, i: nat, j: nat)
    requires IsRun(n, r) && a < |r.states| && j < n && i < |r.states[a].peers| && r.states[a].peers[i].role == Leader
    ensures var p := r.states[a].peers[i];
      && |p.nextIndex| == n && |p.matchIndex| == n && 1 <= p.nextIndex[j] <= |p.log|
      && (p.matchIndex[j] == 0 || HeldBy(r, a, j, p.currentTerm, p.log, p.matchIndex[j]))
  {
    hide SystemOk, Inv, PeerOk, HeldBy, IsRun, CommitBacked, BroadcastOk, Backed, LeaderLogsOk;
    var h := Record(n, r, a);
    var p := r.states[a].peers[i];
    PeerAt(r.states[a], h, i);
    PeerMirrors(h, p);
    ClusterSize(n, r, a);
    SystemWellFormed(r.states[a], h);
    if p.matchIndex[j] != 0 {
      assert Slot(j, p.currentTerm) in h.ack;
      HeldLess(r, a, j, p.currentTerm, p.log, h.ack[Slot(j, p.currentTerm)], p.matchIndex[j]);
    }
  }

  /** A reply that moves the commit index is the one that completes a count. */
  lemma CommitIsDecision(s: System, h: History, m: Message)
    requires SystemOk(s, h) && Enabled(s, ReturnAppend(m)) && InBounds(s, ReturnAppend(m))
    requires Do(s, ReturnAppend(m)).peers[m.src].commitIndex != s.peers[m.src].commitIndex
    ensures s.peers[m.src].currentTerm == m.args.term && s.peers[m.src].broadcasts[m.bid].index < |s.peers[m.src].log|
    ensures Decides(s.peers[m.src], m.bid, m.args, m.reply)
    ensures Do(s, ReturnAppend(m)).peers[m.src].commitIndex == s.peers[m.src].broadcasts[m.bid].index
  {
    hide SystemOk;
    if s.peers[m.src].currentTerm == m.args.term {
      ReplyToLeader(s, h, m);
    }
  }

  /** Whenever counting advances a leader's commit index, the entry there is of its own term and a
      majority of servers, itself included, has held its log through that index in its term. */
  lemma CommitHasMajority(n: nat, r: Run, a: nat, m: Message) returns (q: set<nat>)
    requires IsRun(n, r) && a < |r.steps| && a + 1 < |r.states| && r.steps[a] == ReturnAppend(m)
    requires m.AppendRep? && m.src < |r.states[a].peers| && m.src < |r.states[a + 1].peers|
    requires r.states[a + 1].peers[m.src].commitIndex != r.states[a].peers[m.src].commitIndex
    ensures |q| >= Majority(n) && m.src in q
    ensures var p := r.states[a + 1].peers[m.src];
      && p.role == Leader && Has(p.log, p.currentTerm, p.commitIndex)
      && forall v :: v in q ==> v < n && HeldBy(r, a, v, p.currentTerm, p.log, p.commitIndex)
  {
    hide SystemOk, Inv, PeerOk, HeldBy, IsRun, CommitBacked, MessageOk, BroadcastOk;
    var h := Record(n, r, a);
    StepAt(n, r, a);
    var s := r.states[a];
    var p := s.peers[m.src];
    var b := p.broadcasts[m.bid];
    CommitIsDecision(s, h, m);
    PeerAt(s, h, m.src);
    PeerMirrors(h, p);
    ReplyToLeader(s, h, m);
    ClusterSize(n, r, a);
    SystemWellFormed(s, h);
    CountedFresh(h, p, b, m.dst);
    CountedMajority(h, p, b, m.dst);
    q := Ackers(h, p.currentTerm, b.index);
    assert Acked(h, m.src, p.currentTerm, b.index) by {
      assert Slot(h.leader[b.term], b.term) in h.ack;
    }
    forall v | v in q
      ensures v < n && HeldBy(r, a, v, p.currentTerm, p.log, b.index)
    {
      HeldLess(r, a, v, p.currentTerm, p.log, h.ack[Slot(v, p.currentTerm)], b.index);
    }
  }

  // ---------------------------------------------------------------- repairing a follower

  /** A rejection always moves the leader's nextIndex for that peer to an index from 1 to below
      the one it tried. */
  lemma RejectionMovesBack(n: nat, r: Run, a: nat, m: Message)
    requires IsRun(n, r) && a < |r.steps| && a + 1 < |r.states| && r.steps[a] == ReturnAppend(m) && m.AppendRep?
    requires m.src < |r.states[a].peers| && m.src < |r.states[a + 1].peers|
    requires r.states[a].peers[m.src].currentTerm == m.args.term && !m.reply.success && m.reply.term <= m.args.term
    ensures m.dst < |r.states[a + 1].peers[m.src].nextIndex|
    ensures 1 <= r.states[a + 1].peers[m.src].nextIndex[m.dst] < m.args.prevLogIndex + 1
  {
    hide SystemOk, IsRun, GetNextIndex;
    var h := Record(n, r, a);
    StepAt(n, r, a);
    ReplyToLeader(r.states[a], h, m);
    NextIndexDecreases(r.states[a].peers[m.src].log, m.args, m.reply);
  }

  ghost predicate LeadsIn(s: System, i: nat, t: nat) {
    i < |s.peers| && s.peers[i].role == Leader && s.peers[i].currentTerm == t
  }

  /** A leader's log at one moment is a prefix of its log at any later moment of its term. */
  lemma LeaderLogGrows(n: nat, r: Run, a: nat, b: nat, i: nat)
    requires IsRun(n, r) && a <= b < |r.states| && i < |r.states[a].peers| && i < |r.states[b].peers|
    requires LeadsIn(r.states[a], i, r.states[a].peers[i].currentTerm)
    requires LeadsIn(r.states[b], i, r.states[a].peers[i].currentTerm)
    ensures r.states[a].peers[i].log <= r.states[b].peers[i].log
  {
    hide SystemOk, Inv, PeerOk, IsRun, Witnessed, CommitBacked, BroadcastOk, Backed, LeaderLogsOk;
    var ha, hb := RecordTwo(n, r, a, b);
    PeerAt(r.states[a], ha, i);
    PeerAt(r.states[b], hb, i);
    PeerMirrors(ha, r.states[a].peers[i]);
    PeerMirrors(hb, r.states[b].peers[i]);
    assert Extends(ha.glog[r.states[a].peers[i].currentTerm], hb.glog[r.states[a].peers[i].currentTerm], r.states[a].peers[i].currentTerm);
  }

  /** The moment at which a request was sent: its sender led in its term and had the whole batch. */
  lemma SentByLeader(n: nat, r: Run, a: nat, m: Message) returns (c: nat)
    requires IsRun(n, r) && a < |r.states| && m in r.states[a].net && m.AppendReq?
    ensures c < a && LeadsIn(r.states[c], m.src, m.args.term)
    ensures m.args.prevLogIndex + |m.args.entries| < |r.states[c].peers[m.src].log|
  {
    hide IsRun;
    c := RequestSent(n, r, a, m);
  }

  /** A peer that acknowledges a batch then has the log its leader had when it sent the batch,
      through the end of the batch.  The sender need not lead any more, or even run. */
  lemma SuccessCopies(n: nat, r: Run, a: nat, m: Message) returns (c: nat)
    requires IsRun(n, r) && a < |r.steps| && a + 1 < |r.states| && r.steps[a] == ReceiveAppend(m) && m.AppendReq?
    requires m.dst < |r.states[a].peers| && m.dst < |r.states[a + 1].peers|
    requires r.states[a].peers[m.dst].currentTerm == m.args.term && Consistent(r.states[a].peers[m.dst].log, m.args)
    ensures c < a && LeadsIn(r.states[c], m.src, m.args.term)
    ensures Agree(r.states[a + 1].peers[m.dst].log, r.states[c].peers[m.src].log, m.args.prevLogIndex + |m.args.entries|)
    ensures forall b :: c <= b < |r.states| && LeadsIn(r.states[b], m.src, m.args.term) ==>
              Agree(r.states[a + 1].peers[m.dst].log, r.states[b].peers[m.src].log, m.args.prevLogIndex + |m.args.entries|)
  {
    hide SystemOk, Inv, PeerOk, IsRun, CommitBacked, Reconcile, Witnessed, BroadcastOk, Backed, LeaderLogsOk;
    StepAt(n, r, a);
    c := SentByLeader(n, r, a, m);
    var last := m.args.prevLogIndex + |m.args.entries|;
    var q := r.states[a + 1].peers[m.dst].log;
    var hc, h := RecordTwo(n, r, c, a);
    PeerAt(r.states[c], hc, m.src);
    PeerMirrors(hc, r.states[c].peers[m.src]);
    assert Agree(q, h.glog[m.args.term], last) by { AcceptCopies(r.states[a], h, m); }
    assert Extends(hc.glog[m.args.term], h.glog[m.args.term], m.args.term);
    assert Agree(q, r.states[c].peers[m.src].log, last);
    forall b | c <= b < |r.states| && LeadsIn(r.states[b], m.src, m.args.term)
      ensures Agree(q, r.states[b].peers[m.src].log, last)
    {
      LeaderLogGrows(n, r, c, b, m.src);
    }
  }

  lemma AcceptCopies(s: System, h: History, m: Message)
    requires SystemOk(s, h) && m in s.net && m.AppendReq? && m.dst < |s.peers|
    requires s.peers[m.dst].currentTerm == m.args.term && Consistent(s.peers[m.dst].log, m.args)
    ensures m.args.term in h.glog
    ensures Agree(HandleAppend(s.peers[m.dst], m.args).0.log, h.glog[m.args.term], m.args.prevLogIndex + |m.args.entries|)
  {
    hide SystemOk, Inv, PeerOk, CommitBacked, Reconcile, Agree;
    PeerAt(s, h, m.dst);
    PeerMirrors(h, s.peers[m.dst]);
    MessageAt(s, h, m);
    assert Acceptable(h, m.dst, m.args.prevLogIndex, m.args.entries);
    AcceptedBatch(h, m.dst, m.args.prevLogIndex, m.args.entries);
  }

  // ---------------------------------------------------------------- handlers are steps

  /** A handler that meets a newer term is two steps, with a write to disk after each: a crash can
      fall between them. */
  lemma HandlersAreSteps(s: System, m: Message)
    requires m in s.net && m.dst < |s.peers| && (m.VoteReq? || m.AppendReq?)
    requires s.peers[m.dst].currentTerm < RequestTerm(m) && |s.peers[m.dst].log| >= 1
    ensures Enabled(s, AdoptTerm(m)) && InBounds(s, AdoptTerm(m))
    ensures m.VoteReq? ==>
      var s1 := Do(s, AdoptTerm(m));
      && Enabled(s1, ReceiveVote(m)) && InBounds(s1, ReceiveVote(m))
      && Do(s1, ReceiveVote(m)).peers == s.peers[m.dst := HandleVote(StepDown(s.peers[m.dst], m.vargs.term), m.vargs).0]
    ensures m.AppendReq? ==>
      var s1 := Do(s, AdoptTerm(m));
      && Enabled(s1, ReceiveAppend(m)) && InBounds(s1, ReceiveAppend(m))
      && Do(s1, ReceiveAppend(m)).peers == s.peers[m.dst := HandleAppend(StepDown(s.peers[m.dst], m.args.term), m.args).0]
  {
    var s1 := Do(s, AdoptTerm(m));
    var p := StepDown(s.peers[m.dst], RequestTerm(m));
    assert s1.peers[m.dst] == p && p.currentTerm == RequestTerm(m);
    if m.VoteReq? {
      assert s1.peers[m.dst := HandleVote(p, m.vargs).0] == s.peers[m.dst := HandleVote(p, m.vargs).0];
    } else {
      assert s1.peers[m.dst := HandleAppend(p, m.args).0] == s.peers[m.dst := HandleAppend(p, m.args).0];
    }
  }
}
