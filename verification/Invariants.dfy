/** What holds of every peer and every message in a run, relative to the cluster's history. */
module Invariants {
  import opened Logs
  import opened Consensus
  import opened Node
  import opened Cluster

  // ---------------------------------------------------------------- commitment

  /** The first `k` entries of `log` are committed, by an entry of term at most `t`. */
  ghost predicate CommitBacked(h: History, log: Log, k: nat, t: nat) {
    k == 0 ||
    exists e :: e in h.chosen && e.term <= t && k <= e.index && e.term in h.glog && Agree(log, h.glog[e.term], k)
  }

  // ---------------------------------------------------------------- messages

  /** What a candidate asserts about its log is what it recorded when it voted for itself. */
  ghost predicate ClaimOk(h: History, candidate: nat, t: nat, lastIndex: nat, lastTerm: nat) {
    && Slot(candidate, t) in h.voted
    && h.voted[Slot(candidate, t)].candidate == candidate
    && h.voted[Slot(candidate, t)].lastIndex == lastIndex
    && h.voted[Slot(candidate, t)].lastTerm == lastTerm
  }

  /** Every ballot repeats the claim of the candidate it is for. */
  ghost predicate ClaimsAgree(h: History) {
    forall key :: key in h.voted ==>
      ClaimOk(h, h.voted[key].candidate, key.term, h.voted[key].lastIndex, h.voted[key].lastTerm)
  }

  /** A request of the leader of its term: a stretch of that leader's log, and a commit index that
      the stretch covers. */
  ghost predicate RequestOk(h: History, src: nat, a: AppendArgs) {
    && a.term in h.leader && h.leader[a.term] == src && a.leaderId == src
    && CutFrom(h, a.term, a.prevLogIndex, a.prevLogTerm, a.entries)
    && a.leaderCommit <= a.prevLogIndex + |a.entries|
    && CommitBacked(h, h.glog[a.term], a.leaderCommit, a.term)
  }

  /** A rejection points strictly below the probed index, at a term the leader does not have there. */
  ghost predicate RejectionOk(a: AppendArgs, r: AppendReply) {
    && 1 <= r.conflictFirstIndex <= a.prevLogIndex
    && (r.conflictTerm != 0 ==> r.conflictTerm != a.prevLogTerm)
  }

  ghost predicate MessageOk(h: History, m: Message) {
    && m.src != m.dst && m.src < h.n && m.dst < h.n
    && match m
       case VoteReq(src, dst, a) => a.candidateId == src && ClaimOk(h, src, a.term, a.lastLogIndex, a.lastLogTerm)
       case VoteRep(src, dst, a, r) =>
         && a.candidateId == src && ClaimOk(h, src, a.term, a.lastLogIndex, a.lastLogTerm)
         && (r.granted ==> Slot(dst, a.term) in h.voted && h.voted[Slot(dst, a.term)].candidate == src)
       case AppendReq(src, dst, bid, a) => RequestOk(h, src, a)
       case AppendRep(src, dst, bid, a, r) =>
         && RequestOk(h, src, a)
         && (r.success ==> Acked(h, dst, a.term, a.prevLogIndex + |a.entries|))
         && (!r.success && r.term <= a.term ==> RejectionOk(a, r))
  }

  // ---------------------------------------------------------------- peers

  /** The disk always holds the current persistent state. */
  ghost predicate Durable(p: Peer) {
    StoredTerm(p.disk) == p.currentTerm && StoredVote(p.disk) == p.voteFor && StoredLog(p.disk) == p.log
  }

  ghost predicate Mirrors(h: History, p: Peer) {
    && |h.term| == h.n && |h.log| == h.n
    && p.n == h.n && p.me < h.n && h.term[p.me] == p.currentTerm && h.log[p.me] == p.log && |p.log| >= 1
  }

  ghost predicate VoteOk(h: History, p: Peer) {
    if p.voteFor == NOBODY then Slot(p.me, p.currentTerm) !in h.voted
    else
      && 0 <= p.voteFor < h.n && Slot(p.me, p.currentTerm) in h.voted
      && h.voted[Slot(p.me, p.currentTerm)].candidate == p.voteFor
  }

  /** While campaigning, votes are counted once per voter, and the log is the one advertised. */
  ghost predicate CampaignOk(h: History, p: Peer) {
    && |p.log| >= 1 && p.voteFor == p.me && p.currentTerm >= 1 && p.election.term == p.currentTerm
    && ClaimOk(h, p.me, p.currentTerm, |p.log| - 1, LastTerm(p.log))
    && p.election.nVotes == 1 + |p.election.granted|
    && p.election.granted !! p.election.waiting
    && p.me !in p.election.granted && p.me !in p.election.waiting
    && (forall v :: v in p.election.granted ==>
          v < h.n && Slot(v, p.currentTerm) in h.voted && h.voted[Slot(v, p.currentTerm)].candidate == p.me)
    && (p.currentTerm in h.leader ==> h.leader[p.currentTerm] != p.me)
  }

  ghost predicate ReignOk(h: History, p: Peer) {
    && p.voteFor == p.me
    && p.currentTerm in h.leader && h.leader[p.currentTerm] == p.me
    && p.currentTerm in h.glog && h.glog[p.currentTerm] == p.log
    && |p.nextIndex| == p.n && |p.matchIndex| == p.n
    && (forall j :: 0 <= j < p.n ==> 1 <= p.nextIndex[j] <= |p.log|)
    && (forall j :: 0 <= j < p.n ==> p.matchIndex[j] == 0 || Acked(h, j, p.currentTerm, p.matchIndex[j]))
  }

  /** A broadcast counts distinct servers that hold the leader's log through its index. */
  ghost predicate BroadcastOk(h: History, p: Peer, b: Broadcast) {
    && b.term <= p.currentTerm && (b.term == p.currentTerm ==> p.role == Leader)
    && b.term in h.leader && h.leader[b.term] == p.me
    && b.term in h.glog && b.index < |h.glog[b.term]| && b.commitIndex <= b.index
    && CommitBacked(h, h.glog[b.term], b.commitIndex, b.term)
    && b.nReplica == 1 + |b.acked| && p.me !in b.acked
    && (forall v :: v in b.acked ==> v < h.n && v !in b.calls && Acked(h, v, b.term, b.index))
    && (forall v :: v in b.calls ==>
          && b.calls[v].term == b.term && v < h.n && v != p.me
          && b.index <= b.calls[v].prevLogIndex + |b.calls[v].entries|)
  }

  ghost predicate CommitOk(h: History, p: Peer) {
    && p.lastApplied <= p.applyTo <= p.commitIndex < |p.log|
    && CommitBacked(h, p.log, p.commitIndex, p.currentTerm)
  }

  /** The stream is entries 1, 2, 3, ... of the log, without gap or repetition. */
  ghost predicate StreamOk(p: Peer) {
    && |p.stream| == p.lastApplied
    && forall i :: 0 <= i < |p.stream| ==> i + 1 < |p.log| && p.stream[i] == ApplyMsg(i + 1, p.log[i + 1].command)
  }

  ghost predicate PeerOk(h: History, p: Peer) {
    && Mirrors(h, p) && Durable(p) && VoteOk(h, p)
    && (p.role == Candidate ==> CampaignOk(h, p))
    && (p.role == Leader ==> ReignOk(h, p))
    && (forall i :: 0 <= i < |p.broadcasts| ==> BroadcastOk(h, p, p.broadcasts[i]))
    && CommitOk(h, p) && StreamOk(p)
  }

  ghost predicate SystemOk(s: System, h: History) {
    && Inv(h) && ClaimsAgree(h)
    && s.n == h.n && |s.peers| == h.n
    && (forall i :: 0 <= i < h.n ==> s.peers[i].me == i && PeerOk(h, s.peers[i]))
    && (forall m :: m in s.net ==> MessageOk(h, m))
  }

  // ---------------------------------------------------------------- stability

  lemma CommitBackedGrows(h: History, h': History, log: Log, log': Log, k: nat, t: nat, t': nat)
    requires Grows(h, h') && CommitBacked(h, log, k, t) && t <= t'
    requires k < |log| && Agree(log, log', k)
    ensures CommitBacked(h', log', k, t')
  {
    if k > 0 {
      var e :| e in h.chosen && e.term <= t && k <= e.index && e.term in h.glog && Agree(log, h.glog[e.term], k);
      assert h.glog[e.term] <= h'.glog[e.term];
      assert e in h'.chosen && Agree(log', h'.glog[e.term], k);
    }
  }

  lemma RequestOkGrows(h: History, h': History, src: nat, a: AppendArgs)
    requires Grows(h, h') && RequestOk(h, src, a)
    ensures RequestOk(h', src, a)
  {
    var g, g' := h.glog[a.term], h'.glog[a.term];
    assert g <= g';
    var last := a.prevLogIndex + |a.entries|;
    assert g[a.prevLogIndex + 1..last + 1] == g'[a.prevLogIndex + 1..last + 1];
    CommitBackedGrows(h, h', g, g', a.leaderCommit, a.term, a.term);
  }

  lemma MessageOkGrows(h: History, h': History, m: Message)
    requires Grows(h, h') && MessageOk(h, m)
    ensures MessageOk(h', m)
  {
    hide RequestOk;
    match m
    case VoteReq(_, _, _) =>
    case VoteRep(_, _, _, _) =>
    case AppendReq(src, dst, bid, a) =>
      RequestOkGrows(h, h', src, a);
    case AppendRep(src, dst, bid, a, r) =>
      RequestOkGrows(h, h', src, a);
  }

  /** A transition of the history that is not about server `i`. */
  ghost predicate Untouched(h: History, h': History, i: nat) {
    && |h.term| == h.n && |h.log| == h.n && |h'.term| == h'.n && |h'.log| == h'.n && h'.n == h.n && i < h.n
    && h'.term[i] == h.term[i] && h'.log[i] == h.log[i]
    && (forall t :: Slot(i, t) in h'.voted ==> Slot(i, t) in h.voted)
    && (forall t :: t in h'.leader && h'.leader[t] == i ==> t in h.leader && h.leader[t] == i)
    && (forall t :: t in h.leader && h.leader[t] == i && t in h.glog ==> t in h'.glog && h'.glog[t] == h.glog[t])
  }

  lemma BroadcastOkGrows(h: History, h': History, p: Peer, b: Broadcast)
    requires Grows(h, h') && BroadcastOk(h, p, b)
    ensures BroadcastOk(h', p, b)
  {
    var g, g' := h.glog[b.term], h'.glog[b.term];
    assert g <= g';
    CommitBackedGrows(h, h', g, g', b.commitIndex, b.term, b.term);
  }

  lemma PeerOkStable(h: History, h': History, p: Peer)
    requires Grows(h, h') && Untouched(h, h', p.me) && PeerOk(h, p)
    ensures PeerOk(h', p)
  {
    hide BroadcastOk, CommitBacked;
    forall i | 0 <= i < |p.broadcasts|
      ensures BroadcastOk(h', p, p.broadcasts[i])
    {
      BroadcastOkGrows(h, h', p, p.broadcasts[i]);
    }
    CommitBackedGrows(h, h', p.log, p.log, p.commitIndex, p.currentTerm, p.currentTerm);
  }

  /** A step that changes one peer, adds messages and moves the history on: it is enough to look at
      that peer and those messages. */
  lemma StepFrame(s: System, h: History, h': History, i: nat, p: Peer, sent: set<Message>)
    requires SystemOk(s, h) && i < h.n && p.me == i
    requires Inv(h') && ClaimsAgree(h') && Grows(h, h')
    requires forall j :: 0 <= j < h.n && j != i ==> Untouched(h, h', j)
    requires PeerOk(h', p)
    requires forall m :: m in sent ==> MessageOk(h', m)
    ensures SystemOk(Set(s, i, p, sent), h')
  {
    hide PeerOk, MessageOk, Untouched, Inv, ClaimsAgree;
    var s' := Set(s, i, p, sent);
    forall j | 0 <= j < h'.n
      ensures s'.peers[j].me == j && PeerOk(h', s'.peers[j])
    {
      if j != i {
        PeerOkStable(h, h', s.peers[j]);
      }
    }
    forall m | m in s'.net
      ensures MessageOk(h', m)
    {
      if m in s.net {
        MessageOkGrows(h, h', m);
      }
    }
  }

  /** The frame when the history does not move. */
  lemma QuietFrame(s: System, h: History, i: nat, p: Peer, sent: set<Message>)
    requires SystemOk(s, h) && i < h.n && p.me == i && PeerOk(h, p)
    requires forall m :: m in sent ==> MessageOk(h, m)
    ensures SystemOk(Set(s, i, p, sent), h)
  {
    hide PeerOk, MessageOk, ClaimsAgree, Inv;
  }
}
