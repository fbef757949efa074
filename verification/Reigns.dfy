/** How long a peer leads, what it announces meanwhile, and when it commits. */
module Reigns {
  import opened Logs
  import opened Consensus
  import opened Node
  import opened Cluster
  import opened Origins
  import opened Invariants
  import opened Refinement
  import opened Theorems

  // ---------------------------------------------------------------- gaining and losing leadership

  /** Peer `i` stops leading: it starts an election, restarts, or learns of a newer term. */
  ghost predicate Interrupts(s: System, step: Step, i: nat) {
    i < |s.peers| && Enabled(s, step) &&
    match step
    case Timeout(k) => k == i
    case Crash(k) => k == i
    case AdoptTerm(m) => m.dst == i
    case ReturnVote(m) =>
      m.src == i && s.peers[i].currentTerm == m.vargs.term && !m.vreply.granted && s.peers[i].currentTerm < m.vreply.term
    case ReturnAppend(m) =>
      m.src == i && s.peers[i].currentTerm == m.args.term && !m.reply.success && m.args.term < m.reply.term
    case _ => false
  }

  /** Peer `i` counts the vote that makes it leader. */
  ghost predicate WinsBy(s: System, step: Step, i: nat) {
    && i < |s.peers| && Enabled(s, step) && step.ReturnVote? && step.m.src == i && s.peers[i].currentTerm == step.m.vargs.term
    && step.m.vreply.granted && s.peers[i].role == Candidate && s.peers[i].election.nVotes + 1 >= Majority(s.peers[i].n)
  }

  /** A leader refuses every vote. */
  lemma LeaderRefuses(s: System, h: History, m: Message)
    requires SystemOk(s, h) && m in s.net && m.VoteReq? && m.dst < |s.peers| && s.peers[m.dst].role == Leader
    requires |s.peers[m.dst].log| >= 1
    ensures !Grants(s.peers[m.dst], m.vargs)
  {
    hide SystemOk, Inv, PeerOk, Grants, ClaimOk;
    PeerAt(s, h, m.dst);
    MessageAt(s, h, m);
    if Grants(s.peers[m.dst], m.vargs) {
      GrantsAsFollower(h, s.peers[m.dst], m.vargs);
    }
  }

  /** A leader is sent no batch of its own term. */
  lemma LeaderUnchallenged(s: System, h: History, m: Message)
    requires SystemOk(s, h) && m in s.net && m.AppendReq? && m.dst < |s.peers| && s.peers[m.dst].role == Leader
    ensures m.args.term != s.peers[m.dst].currentTerm
  {
    hide SystemOk, Inv, PeerOk, RequestOk;
    PeerAt(s, h, m.dst);
    MessageAt(s, h, m);
    if m.args.term == s.peers[m.dst].currentTerm {
      ReceiverFollows(h, s.peers[m.dst], m.src, m.args);
    }
  }

  lemma StepLeads(s: System, h: History, step: Step, i: nat)
    requires SystemOk(s, h) && Enabled(s, step) && InBounds(s, step) && i < |s.peers| && i < |Do(s, step).peers|
    ensures Do(s, step).peers[i].role == Leader <==>
            WinsBy(s, step, i) || (s.peers[i].role == Leader && !Interrupts(s, step, i))
  {
    hide SystemOk, Reconcile, Consistent, Grants, Rejection, Ballots, SendInBounds, ReturnInBounds, Request, GetNextIndex, Commits;
    if s.peers[i].role == Leader && step.ReceiveVote? && step.m.dst == i {
      LeaderRefuses(s, h, step.m);
    } else if s.peers[i].role == Leader && step.ReceiveAppend? && step.m.dst == i {
      LeaderUnchallenged(s, h, step.m);
    }
  }

  /** Nobody leads the same term twice: who leads term `t` at two moments leads it just before the later
      one. */
  lemma LedBefore(n: nat, r: Run, a: nat, b: nat, i: nat, t: nat)
    requires IsRun(n, r) && a <= b && b + 1 < |r.states| && LeadsIn(r.states[a], i, t) && LeadsIn(r.states[b + 1], i, t)
    ensures LeadsIn(r.states[b], i, t) && b < |r.steps| && r.steps[b] != Crash(i)
  {
    hide IsRun, Do, InBounds, SystemOk, Inv, PeerOk, CommitBacked, BroadcastOk, Witnessed, Backed, LeaderLogsOk;
    RunLength(n, r);
    ClusterSize(n, r, a);
    ClusterSize(n, r, b);
    var ha, hb := RecordTwo(n, r, a, b);
    PeerAt(r.states[a], ha, i);
    PeerMirrors(ha, r.states[a].peers[i]);
    PeerAt(r.states[b], hb, i);
    PeerMirrors(hb, r.states[b].peers[i]);
    TermsAndVotesStick(n, r, a, b, i);
    TermsAndVotesStick(n, r, b, b + 1, i);
    StepAt(n, r, b);
    StepLeads(r.states[b], hb, r.steps[b], i);
  }

  /** Within a reign the commit index and the list of broadcasts only grow. */
  lemma {:induction false} ReignGrows(n: nat, r: Run, a: nat, b: nat, i: nat, t: nat)
    requires IsRun(n, r) && a <= b < |r.states| && LeadsIn(r.states[a], i, t) && LeadsIn(r.states[b], i, t)
    ensures r.states[a].peers[i].commitIndex <= r.states[b].peers[i].commitIndex
    ensures |r.states[a].peers[i].broadcasts| <= |r.states[b].peers[i].broadcasts|
    decreases b
  {
    hide IsRun, Do, InBounds, Enabled;
    if a < b {
      LedBefore(n, r, a, b - 1, i, t);
      ReignGrows(n, r, a, b - 1, i, t);
      StepAt(n, r, b - 1);
      CommitIndexMonotone(n, r, b - 1, i);
      BroadcastsGrow(r.states[b - 1], r.steps[b - 1], i);
    }
  }

  lemma BroadcastsGrow(s: System, step: Step, i: nat)
    requires Enabled(s, step) && InBounds(s, step) && i < |s.peers| && step != Crash(i)
    ensures i < |Do(s, step).peers| && |s.peers[i].broadcasts| <= |Do(s, step).peers[i].broadcasts|
  {
    hide Reconcile, Consistent, Grants, Rejection, Ballots, SendInBounds, ReturnInBounds, Request, GetNextIndex, Commits;
  }

  // ---------------------------------------------------------------- what a broadcast announces

  /** The step creates broadcast `bid` of leader `i`: for its last index, a command just submitted
      included, with the commit index it has. */
  ghost predicate Creates(s: System, step: Step, i: nat, bid: nat, index: nat, commitIndex: nat, t: nat) {
    && (step == Beat(i) || (step.Submit? && step.i == i)) && LeadsIn(s, i, t) && |s.peers[i].broadcasts| == bid
    && commitIndex == s.peers[i].commitIndex
    && index == |s.peers[i].log| - (if step.Submit? then 0 else 1)
  }

  lemma StepBroadcast(s: System, step: Step, i: nat, bid: nat)
    requires Enabled(s, step) && InBounds(s, step) && i < |s.peers| && i < |Do(s, step).peers|
    requires bid < |Do(s, step).peers[i].broadcasts|
    ensures var b := Do(s, step).peers[i].broadcasts[bid];
      Creates(s, step, i, bid, b.index, b.commitIndex, b.term)
      || (bid < |s.peers[i].broadcasts|
          && var o := s.peers[i].broadcasts[bid]; o.index == b.index && o.commitIndex == b.commitIndex && o.term == b.term)
  {
    hide Reconcile, Consistent, Grants, Rejection, Ballots, SendInBounds, ReturnInBounds, Request, GetNextIndex, Commits;
  }

  /** Every broadcast was created by a heartbeat or a command. */
  lemma {:induction false} BroadcastMade(n: nat, r: Run, a: nat, i: nat, bid: nat) returns (c: nat)
    requires IsRun(n, r) && a < |r.states| && i < |r.states[a].peers| && bid < |r.states[a].peers[i].broadcasts|
    ensures c < a && c < |r.steps|
    ensures var b := r.states[a].peers[i].broadcasts[bid];
      Creates(r.states[c], r.steps[c], i, bid, b.index, b.commitIndex, b.term)
  {
    hide Do, InBounds, Enabled, Creates;
    if a > 0 {
      StepAt(n, r, a - 1);
      ClusterSize(n, r, a);
      ClusterSize(n, r, a - 1);
      StepBroadcast(r.states[a - 1], r.steps[a - 1], i, bid);
      var b := r.states[a].peers[i].broadcasts[bid];
      if Creates(r.states[a - 1], r.steps[a - 1], i, bid, b.index, b.commitIndex, b.term) {
        c := a - 1;
      } else {
        c := BroadcastMade(n, r, a - 1, i, bid);
      }
    }
  }

  /** Every request announces the commit index its sender had when the broadcast was created, and
      carries its log from nextIndex through the last index at that time. */
  lemma AnnouncesCommit(n: nat, r: Run, a: nat, m: Message) returns (c: nat, index: nat)
    requires IsRun(n, r) && a < |r.states| && m in r.states[a].net && m.AppendReq?
    ensures c < a && c < |r.steps|
    ensures Creates(r.states[c], r.steps[c], m.src, m.bid, index, m.args.leaderCommit, m.args.term)
    ensures m.args.prevLogIndex + |m.args.entries| == if m.args.prevLogIndex < index then index else m.args.prevLogIndex
  {
    hide IsRun, Creates;
    var d := RequestSent(n, r, a, m);
    c := BroadcastMade(n, r, d, m.src, m.bid);
    index := r.states[d].peers[m.src].broadcasts[m.bid].index;
  }

  /** A broadcast that does not exist yet while its leader has committed `k` announces at least `k`. */
  lemma AnnouncesAtLeast(n: nat, r: Run, b: nat, a: nat, m: Message)
    requires IsRun(n, r) && a < |r.states| && m in r.states[a].net && m.AppendReq?
    requires b < |r.states| && LeadsIn(r.states[b], m.src, m.args.term) && |r.states[b].peers[m.src].broadcasts| <= m.bid
    ensures r.states[b].peers[m.src].commitIndex <= m.args.leaderCommit
  {
    hide IsRun, Do, InBounds, Enabled;
    var c, index := AnnouncesCommit(n, r, a, m);
    if b <= c {
      ReignGrows(n, r, b, c, m.src, m.args.term);
    } else {
      StepAt(n, r, c);
      CreatedGrows(r.states[c], r.steps[c], m.src, m.bid, index, m.args.leaderCommit, m.args.term);
      ReignGrows(n, r, c + 1, b, m.src, m.args.term);
    }
  }

  lemma CreatedGrows(s: System, step: Step, i: nat, bid: nat, index: nat, commitIndex: nat, t: nat)
    requires Enabled(s, step) && InBounds(s, step) && Creates(s, step, i, bid, index, commitIndex, t)
    ensures LeadsIn(Do(s, step), i, t) && |Do(s, step).peers[i].broadcasts| == bid + 1
  {
  }

  // ---------------------------------------------------------------- a counted majority commits

  /** At least one other server has been counted, and with the leader they are more than half. */
  ghost predicate MajorityCounted(p: Peer, b: Broadcast) {
    b.acked != {} && 2 * (1 + |b.acked|) > p.n
  }

  /** A broadcast of the present term with a counted majority has committed its entry, if that entry is
      of this term. */
  ghost predicate Reckoned(p: Peer, b: Broadcast) {
    b.term == p.currentTerm ==>
      && (b.isAgree ==> MajorityCounted(p, b))
      && (MajorityCounted(p, b) && Has(p.log, p.currentTerm, b.index) ==> b.index <= p.commitIndex)
  }

  ghost predicate AllReckoned(p: Peer) {
    forall x :: 0 <= x < |p.broadcasts| ==> Reckoned(p, p.broadcasts[x])
  }

  lemma CountReckons(h: History, p: Peer, bid: nat, from: nat)
    requires PeerOk(h, p) && p.role == Leader && bid < |p.broadcasts| && p.broadcasts[bid].term == p.currentTerm
    requires from in p.broadcasts[bid].calls && from < |p.nextIndex| && from < |p.matchIndex|
    requires p.broadcasts[bid].index < |p.log| && AllReckoned(p)
    ensures AllReckoned(CountReplica(p, bid, from))
  {
    hide PeerOk, CommitBacked;
    PeerMirrors(h, p);
    var b, q := p.broadcasts[bid], CountReplica(p, bid, from);
    assert BroadcastOk(h, p, b) && from !in b.acked;
    assert |b.acked + {from}| == |b.acked| + 1;
    forall x | 0 <= x < |q.broadcasts|
      ensures Reckoned(q, q.broadcasts[x])
    {
      assert Reckoned(p, p.broadcasts[x]);
    }
  }

  /** The peer moves to a new term, keeps what it had, or appends to its log; its broadcasts stay. */
  lemma KeptReckons(h: History, p: Peer, q: Peer)
    requires PeerOk(h, p) && AllReckoned(p) && q.broadcasts == p.broadcasts && q.n == p.n
    requires q.currentTerm > p.currentTerm || (q.currentTerm == p.currentTerm && p.role != Leader)
             || (q.currentTerm == p.currentTerm && p.log <= q.log && p.commitIndex <= q.commitIndex)
    ensures AllReckoned(q)
  {
    hide PeerOk, CommitBacked;
    PeerMirrors(h, p);
    forall x | 0 <= x < |q.broadcasts|
      ensures Reckoned(q, q.broadcasts[x])
    {
      assert BroadcastOk(h, p, p.broadcasts[x]) && Reckoned(p, p.broadcasts[x]);
    }
  }

  /** Calls come and go without being counted. */
  lemma CallsReckon(p: Peer, q: Peer, bid: nat)
    requires AllReckoned(p) && bid < |p.broadcasts| && |q.broadcasts| == |p.broadcasts|
    requires q.n == p.n && q.currentTerm == p.currentTerm && q.log == p.log && q.commitIndex == p.commitIndex
    requires q.broadcasts == p.broadcasts[bid := p.broadcasts[bid].(calls := q.broadcasts[bid].calls)]
    ensures AllReckoned(q)
  {
    forall x | 0 <= x < |q.broadcasts|
      ensures Reckoned(q, q.broadcasts[x])
    {
      assert Reckoned(p, p.broadcasts[x]);
    }
  }

  lemma NewReckons(h: History, p: Peer, q: Peer, b: Broadcast)
    requires PeerOk(h, p) && AllReckoned(p) && p.role == Leader && q.n == p.n && q.currentTerm == p.currentTerm
    requires p.log <= q.log && q.commitIndex == p.commitIndex && q.broadcasts == p.broadcasts + [b] && b.acked == {} && !b.isAgree
    ensures AllReckoned(q)
  {
    hide AllReckoned;
    KeptReckons(h, p, q.(broadcasts := p.broadcasts));
    Added(p, q, b);
  }

  lemma Added(p: Peer, q: Peer, b: Broadcast)
    requires AllReckoned(q.(broadcasts := p.broadcasts)) && q.broadcasts == p.broadcasts + [b] && b.acked == {} && !b.isAgree
    ensures AllReckoned(q)
  {
    var o := q.(broadcasts := p.broadcasts);
    forall x | 0 <= x < |q.broadcasts|
      ensures Reckoned(q, q.broadcasts[x])
    {
      assert x < |p.broadcasts| ==> Reckoned(o, o.broadcasts[x]);
    }
  }

  lemma ReturnReckons(s: System, h: History, m: Message)
    requires SystemOk(s, h) && Enabled(s, ReturnAppend(m)) && InBounds(s, ReturnAppend(m)) && AllReckoned(s.peers[m.src])
    ensures AllReckoned(AppendReturn(s.peers[m.src], m.bid, m.dst, m.args, m.reply))
  {
    hide SystemOk, Inv, PeerOk, AllReckoned, GetNextIndex, CountReplica, ReignOk;
    var p := s.peers[m.src];
    PeerAt(s, h, m.src);
    if p.currentTerm == m.args.term {
      ReplyToLeader(s, h, m);
      if m.reply.success {
        CountReckons(h, p, m.bid, m.dst);
      } else if m.args.term < m.reply.term {
        KeptReckons(h, p, StepDown(p, m.reply.term));
      } else {
        CallsReckon(p, BackUp(p, m.bid, m.dst, m.args, m.reply), m.bid);
      }
    }
  }

  lemma ReceiveReckons(s: System, h: History, m: Message)
    requires SystemOk(s, h) && Enabled(s, ReceiveAppend(m)) && AllReckoned(s.peers[m.dst])
    ensures AllReckoned(HandleAppend(s.peers[m.dst], m.args).0)
  {
    hide SystemOk, Inv, PeerOk, AllReckoned, Reconcile;
    var p := s.peers[m.dst];
    PeerAt(s, h, m.dst);
    if p.role == Leader {
      LeaderUnchallenged(s, h, m);
    } else {
      KeptReckons(h, p, HandleAppend(p, m.args).0);
    }
  }

  lemma StepReckons(s: System, h: History, step: Step, i: nat)
    requires SystemOk(s, h) && Enabled(s, step) && InBounds(s, step) && i < |s.peers| && i < |Do(s, step).peers|
    requires AllReckoned(s.peers[i])
    ensures AllReckoned(Do(s, step).peers[i])
  {
    hide SystemOk, Inv, PeerOk, AllReckoned, HandleAppend, AppendReturn, Ballots, UpToDate, SendInBounds, ReturnInBounds, Request;
    var p, q := s.peers[i], Do(s, step).peers[i];
    PeerAt(s, h, i);
    if step.ReturnAppend? && step.m.src == i {
      ReturnReckons(s, h, step.m);
    } else if step.ReceiveAppend? && step.m.dst == i {
      ReceiveReckons(s, h, step.m);
    } else if step.Issue? && step.i == i {
      CallsReckon(p, q, step.bid);
    } else if (step.Submit? || step.Beat?) && step.i == i && p.role == Leader {
      NewReckons(h, p, q, q.broadcasts[|q.broadcasts| - 1]);
    } else if step == Crash(i) {
      NoneReckoned(q);
    } else {
      KeptReckons(h, p, q);
    }
  }

  lemma NoneReckoned(p: Peer)
    requires p.broadcasts == []
    ensures AllReckoned(p)
  {
  }

  lemma {:induction false} RunReckons(n: nat, r: Run, a: nat, i: nat)
    requires IsRun(n, r) && a < |r.states| && i < n && i < |r.states[a].peers|
    ensures AllReckoned(r.states[a].peers[i])
  {
    hide AllReckoned, Do, Enabled, InBounds, SystemOk;
    if a == 0 {
      NoneReckoned(r.states[a].peers[i]);
    } else {
      ClusterSize(n, r, a - 1);
      RunReckons(n, r, a - 1, i);
      StepAt(n, r, a - 1);
      var h := Record(n, r, a - 1);
      StepReckons(r.states[a - 1], h, r.steps[a - 1], i);
    }
  }

  lemma ReckonedCommits(h: History, p: Peer, bid: nat)
    requires PeerOk(h, p) && AllReckoned(p) && bid < |p.broadcasts| && p.broadcasts[bid].term == p.currentTerm
    requires Has(p.log, p.currentTerm, p.broadcasts[bid].index) && p.broadcasts[bid].acked != {}
    requires 2 * |p.broadcasts[bid].acked + {p.me}| > p.n
    ensures p.broadcasts[bid].index <= p.commitIndex
  {
    hide PeerOk, CommitBacked;
    PeerMirrors(h, p);
    var b := p.broadcasts[bid];
    assert BroadcastOk(h, p, b) && p.me !in b.acked && Reckoned(p, b);
    assert |b.acked + {p.me}| == |b.acked| + 1;
  }

  /** Commitment is by majority, not later: as soon as the servers counted for a broadcast are, with the
      leader, more than half, and the entry at its index is of the leader's term, it is committed.
      At least one other server has to be counted: a cluster of one never commits. */
  lemma MajorityCommits(n: nat, r: Run, a: nat, i: nat, bid: nat)
    requires IsRun(n, r) && a < |r.states| && i < |r.states[a].peers| && bid < |r.states[a].peers[i].broadcasts|
    requires r.states[a].peers[i].broadcasts[bid].term == r.states[a].peers[i].currentTerm
    requires Has(r.states[a].peers[i].log, r.states[a].peers[i].currentTerm, r.states[a].peers[i].broadcasts[bid].index)
    requires r.states[a].peers[i].broadcasts[bid].acked != {}
    requires 2 * |r.states[a].peers[i].broadcasts[bid].acked + {i}| > n
    ensures r.states[a].peers[i].broadcasts[bid].index <= r.states[a].peers[i].commitIndex
  {
    hide IsRun, SystemOk, Inv, PeerOk, AllReckoned;
    ClusterSize(n, r, a);
    RunReckons(n, r, a, i);
    var h := Record(n, r, a);
    PeerAt(r.states[a], h, i);
    assert r.states[a].peers[i].n == n by {
      PeerMirrors(h, r.states[a].peers[i]);
      SystemWellFormed(r.states[a], h);
    }
    ReckonedCommits(h, r.states[a].peers[i], bid);
  }

  /** A cluster of one never commits: nothing is ever sent, so nothing is ever counted. */
  lemma {:induction false} SingleServerNeverCommits(r: Run, a: nat)
    requires IsRun(1, r) && a < |r.states| && |r.states[a].peers| == 1
    ensures r.states[a].peers[0].commitIndex == 0
  {
    hide Do, Enabled, InBounds, SystemOk;
    if a > 0 {
      ClusterSize(1, r, a - 1);
      SingleServerNeverCommits(r, a - 1);
      StepAt(1, r, a - 1);
      var h := Record(1, r, a - 1);
      AloneStep(r.states[a - 1], h, r.steps[a - 1]);
    }
  }

  lemma AloneStep(s: System, h: History, step: Step)
    requires SystemOk(s, h) && Enabled(s, step) && InBounds(s, step) && s.n == 1 && |s.peers| == 1
    requires s.peers[0].commitIndex == 0
    ensures |Do(s, step).peers| == 1 && Do(s, step).peers[0].commitIndex == 0
  {
    hide SystemOk, Inv, MessageOk, Reconcile, Rejection, Ballots, SendInBounds, ReturnInBounds, Request, GetNextIndex, UpToDate;
    SystemWellFormed(s, h);
    if step.ReceiveAppend? || step.ReturnAppend? {
      MessageAt(s, h, step.m);
      Apart(h, step.m);
    }
  }

  lemma Apart(h: History, m: Message)
    requires MessageOk(h, m)
    ensures m.src != m.dst && m.src < h.n && m.dst < h.n
  {
  }
}
