/** Every step of the cluster is a transition of the history, and keeps the invariants. */
module Refinement {
  import opened Logs
  import opened Consensus
  import opened Node
  import opened Cluster
  import opened Invariants

  // ---------------------------------------------------------------- adopting a newer term

  lemma BumpUntouched(h: History, i: nat, t: nat, j: nat)
    requires Sizes(h) && i < h.n && j < h.n && j != i
    ensures Untouched(h, BumpTerm(h, i, t), j)
  {
  }

  /** In a new term nothing has been voted, led or broadcast by this peer. */
  lemma BumpPeer(h: History, p: Peer, t: nat, q: Peer)
    requires WellFormed(h) && PeerOk(h, p) && p.currentTerm < t
    requires q == StepDown(p, t).(election := q.election)
    requires Grows(h, BumpTerm(h, p.me, t))
    ensures PeerOk(BumpTerm(h, p.me, t), q)
  {
    hide BroadcastOk, CommitBacked, AcksOk, LeadersOk;
    var h' := BumpTerm(h, p.me, t);
    forall i | 0 <= i < |q.broadcasts|
      ensures BroadcastOk(h', q, q.broadcasts[i])
    {
      BumpBroadcast(h, h', p, q, p.broadcasts[i]);
    }
    CommitBackedGrows(h, h', p.log, p.log, p.commitIndex, p.currentTerm, t);
  }

  lemma BumpBroadcast(h: History, h': History, p: Peer, q: Peer, b: Broadcast)
    requires Grows(h, h') && BroadcastOk(h, p, b)
    requires q.me == p.me && q.currentTerm > p.currentTerm
    ensures BroadcastOk(h', q, b)
  {
    BroadcastOkGrows(h, h', p, b);
  }

  lemma AdoptStep(s: System, h: History, i: nat, t: nat, q: Peer) returns (h': History)
    requires SystemOk(s, h) && i < h.n && s.peers[i].currentTerm < t
    requires q == StepDown(s.peers[i], t).(election := q.election)
    ensures SystemOk(Set(s, i, q, {}), h') && Moves(h, h')
  {
    hide PeerOk, MessageOk, LogsOk, Settled, Elections, ChosenOk, Untouched;
    var p := s.peers[i];
    assert PeerOk(h, p) && h.term[i] == p.currentTerm by { PeerMirrors(h, p); }
    h' := BumpTerm(h, i, t);
    BumpTermInv(h, i, t);
    SameAcksEarned(h, h');
    BumpPeer(h, p, t, q);
    forall j | 0 <= j < h.n && j != i
      ensures Untouched(h, h', j)
    {
      BumpUntouched(h, i, t, j);
    }
    StepFrame(s, h, h', i, q, {});
  }

  lemma PeerMirrors(h: History, p: Peer)
    requires PeerOk(h, p)
    ensures Mirrors(h, p) && Durable(p) && VoteOk(h, p)
    ensures p.role == Candidate ==> CampaignOk(h, p)
    ensures p.role == Leader ==> ReignOk(h, p)
    ensures forall i :: 0 <= i < |p.broadcasts| ==> BroadcastOk(h, p, p.broadcasts[i])
    ensures CommitOk(h, p) && StreamOk(p)
  {
  }

  // ---------------------------------------------------------------- starting an election

  function Campaign(h: History, i: nat): History
    requires i < |h.term| && i < |h.log| && |h.log[i]| >= 1
  {
    CastVote(BumpTerm(h, i, h.term[i] + 1), i, i, |h.log[i]| - 1, LastTerm(h.log[i]))
  }

  lemma CampaignInv(h: History, i: nat)
    requires Inv(h) && i < h.n && |h.log[i]| >= 1 && ClaimsAgree(h)
    ensures Inv(Campaign(h, i)) && Grows(h, Campaign(h, i)) && ClaimsAgree(Campaign(h, i))
    ensures ClaimOk(Campaign(h, i), i, h.term[i] + 1, |h.log[i]| - 1, LastTerm(h.log[i]))
  {
    hide LogsOk, Settled, Elections, ChosenOk, VotesOk, AcksOk, LeadersOk, ClaimsAgree, UpToDate, Grows;
    var h1 := BumpTerm(h, i, h.term[i] + 1);
    BumpTermInv(h, i, h.term[i] + 1);
    NoFutureVote(h, i, h.term[i] + 1);
    assert UpToDate(|h.log[i]| - 1, LastTerm(h.log[i]), h.log[i]) by { OwnLogUpToDate(h.log[i]); }
    CastVoteInv(h1, i, i, |h.log[i]| - 1, LastTerm(h.log[i]));
    GrowsTransitive(h, h1, Campaign(h, i));
    CampaignClaims(h, i);
  }

  lemma NoFutureVote(h: History, i: nat, t: nat)
    requires WellFormed(h) && i < h.n && h.term[i] < t
    ensures Slot(i, t) !in h.voted
  {
  }

  lemma OwnLogUpToDate(log: Log)
    requires |log| >= 1
    ensures UpToDate(|log| - 1, LastTerm(log), log)
  {
  }

  lemma CampaignClaims(h: History, i: nat)
    requires Sizes(h) && VotesOk(h) && i < h.n && |h.log[i]| >= 1 && ClaimsAgree(h)
    ensures ClaimsAgree(Campaign(h, i))
  {
    var h' := Campaign(h, i);
    assert Slot(i, h.term[i] + 1) !in h.voted;
    forall key | key in h'.voted
      ensures ClaimOk(h', h'.voted[key].candidate, key.term, h'.voted[key].lastIndex, h'.voted[key].lastTerm)
    {
      assert key != Slot(i, h.term[i] + 1) ==> key in h.voted;
    }
  }

  lemma NoFutureLeadership(h: History, i: nat, t: nat)
    requires WellFormed(h) && i < h.n && h.term[i] < t
    ensures t in h.leader ==> h.leader[t] != i
  {
    assert t in h.leader ==> Slot(h.leader[t], t) in h.ack;
  }

  lemma CampaignPeer(h: History, p: Peer)
    requires WellFormed(h) && PeerOk(h, p)
    requires Grows(h, Campaign(h, p.me))
    requires ClaimOk(Campaign(h, p.me), p.me, p.currentTerm + 1, |p.log| - 1, LastTerm(p.log))
    ensures PeerOk(Campaign(h, p.me), StartElection(p))
  {
    hide BroadcastOk, CommitBacked, AcksOk, LeadersOk;
    var h' := Campaign(h, p.me);
    var q := StartElection(p);
    forall i | 0 <= i < |q.broadcasts|
      ensures BroadcastOk(h', q, q.broadcasts[i])
    {
      BumpBroadcast(h, h', p, q, p.broadcasts[i]);
    }
    CommitBackedGrows(h, h', p.log, p.log, p.commitIndex, p.currentTerm, q.currentTerm);
    NoFutureLeadership(h, p.me, q.currentTerm);
  }

  lemma TimeoutStep(s: System, h: History, i: nat) returns (h': History)
    requires SystemOk(s, h) && Enabled(s, Timeout(i)) && InBounds(s, Timeout(i))
    ensures SystemOk(Do(s, Timeout(i)), h') && Moves(h, h')
  {
    hide PeerOk, LogsOk, Settled, Elections, ChosenOk, Untouched, ClaimsAgree, ClaimOk, Grows, AcksEarned, VotesOk, AcksOk, LeadersOk;
    var p := s.peers[i];
    PeerMirrors(h, p);
    h' := Campaign(h, i);
    CampaignInv(h, i);
    SameAcksEarned(h, h');
    HistorySizes(s, h);
    GrowsSizes(h, h');
    CampaignPeer(h, p);
    forall j | 0 <= j < h.n && j != i
      ensures Untouched(h, h', j)
    {
      CampaignUntouched(h, i, j);
    }
    StepFrame(s, h, h', i, StartElection(p), Ballots(StartElection(p)));
  }

  lemma GrowsSizes(h: History, h': History)
    requires Grows(h, h')
    ensures h'.n == h.n && |h'.term| == h'.n
  {
  }

  lemma CampaignUntouched(h: History, i: nat, j: nat)
    requires Sizes(h) && i < h.n && j < h.n && j != i && |h.log[i]| >= 1
    ensures Untouched(h, Campaign(h, i), j)
  {
  }

  // ---------------------------------------------------------------- receiving a vote request

  /** A peer that has campaigned or led in this term voted for itself, so it grants nobody. */
  lemma GrantsAsFollower(h: History, p: Peer, a: VoteArgs)
    requires PeerOk(h, p) && Grants(p, a) && a.candidateId != p.me
    ensures p.role == Follower
  {
    hide BroadcastOk, CommitBacked;
  }

  lemma BallotUntouched(h: History, i: nat, c: nat, li: nat, lt: nat, j: nat)
    requires Sizes(h) && i < h.n && j < h.n && j != i
    ensures Untouched(h, CastVote(h, i, c, li, lt), j)
  {
  }

  lemma BallotPeer(h: History, p: Peer, a: VoteArgs)
    requires WellFormed(h) && PeerOk(h, p) && p.voteFor == NOBODY && Grants(p, a) && p.role == Follower
    requires a.candidateId < h.n
    requires Grows(h, CastVote(h, p.me, a.candidateId, a.lastLogIndex, a.lastLogTerm))
    ensures PeerOk(CastVote(h, p.me, a.candidateId, a.lastLogIndex, a.lastLogTerm), HandleVote(p, a).0)
  {
    hide BroadcastOk, CommitBacked, AcksOk, LeadersOk, UpToDate;
    var h' := CastVote(h, p.me, a.candidateId, a.lastLogIndex, a.lastLogTerm);
    var q := HandleVote(p, a).0;
    forall i | 0 <= i < |q.broadcasts|
      ensures BroadcastOk(h', q, q.broadcasts[i])
    {
      BroadcastOkGrows(h, h', p, p.broadcasts[i]);
      SameBroadcast(h', p, q, p.broadcasts[i]);
    }
    CommitBackedGrows(h, h', p.log, p.log, p.commitIndex, p.currentTerm, q.currentTerm);
  }

  lemma SameBroadcast(h: History, p: Peer, q: Peer, b: Broadcast)
    requires BroadcastOk(h, p, b) && q.me == p.me && q.currentTerm == p.currentTerm
    requires q.role == p.role || b.term < p.currentTerm
    ensures BroadcastOk(h, q, b)
  {
  }

  lemma BallotClaims(h: History, i: nat, c: nat, li: nat, lt: nat)
    requires Sizes(h) && i < h.n && ClaimsAgree(h) && Slot(i, h.term[i]) !in h.voted
    requires ClaimOk(h, c, h.term[i], li, lt)
    ensures ClaimsAgree(CastVote(h, i, c, li, lt))
  {
    var h' := CastVote(h, i, c, li, lt);
    forall key | key in h'.voted
      ensures ClaimOk(h', h'.voted[key].candidate, key.term, h'.voted[key].lastIndex, h'.voted[key].lastTerm)
    {
      assert key != Slot(i, h.term[i]) ==> key in h.voted;
    }
  }

  lemma NewBallotStep(s: System, h: History, m: Message) returns (h': History)
    requires SystemOk(s, h) && Enabled(s, ReceiveVote(m)) && InBounds(s, ReceiveVote(m))
    requires Grants(s.peers[m.dst], m.vargs) && s.peers[m.dst].voteFor == NOBODY
    ensures SystemOk(Do(s, ReceiveVote(m)), h') && Moves(h, h')
  {
    hide PeerOk, LogsOk, Settled, Elections, ChosenOk, Untouched, ClaimsAgree, UpToDate, VotesOk, AcksOk, LeadersOk, Grows, AcksEarned;
    var p, a := s.peers[m.dst], m.vargs;
    PeerMirrors(h, p);
    assert MessageOk(h, m);
    GrantsAsFollower(h, p, a);
    h' := CastVote(h, m.dst, a.candidateId, a.lastLogIndex, a.lastLogTerm);
    CastVoteInv(h, m.dst, a.candidateId, a.lastLogIndex, a.lastLogTerm);
    SameAcksEarned(h, h');
    GrowsSizes(h, h');
    BallotPeer(h, p, a);
    BallotClaims(h, m.dst, a.candidateId, a.lastLogIndex, a.lastLogTerm);
    forall j | 0 <= j < h.n && j != m.dst
      ensures Untouched(h, h', j)
    {
      BallotUntouched(h, m.dst, a.candidateId, a.lastLogIndex, a.lastLogTerm, j);
    }
    var (q, r) := HandleVote(p, a);
    var reply := VoteRep(m.src, m.dst, a, r);
    assert MessageOk(h', reply);
    StepFrame(s, h, h', m.dst, q, {reply});
  }

  lemma OldBallotStep(s: System, h: History, m: Message)
    requires SystemOk(s, h) && Enabled(s, ReceiveVote(m)) && InBounds(s, ReceiveVote(m))
    requires !Grants(s.peers[m.dst], m.vargs) || s.peers[m.dst].voteFor != NOBODY
    ensures SystemOk(Do(s, ReceiveVote(m)), h)
  {
    hide LogsOk, Settled, Elections, ChosenOk, ClaimsAgree, UpToDate, AcksOk, LeadersOk, BroadcastOk, CommitBacked, PeerOk;
    var p, a := s.peers[m.dst], m.vargs;
    PeerMirrors(h, p);
    assert MessageOk(h, m);
    var (q, r) := HandleVote(p, a);
    if Grants(p, a) {
      GrantsAsFollower(h, p, a);
    }
    assert q == p.(disk := q.disk);
    assert PeerOk(h, q) by { DiskPeer(h, p, q); }
    QuietFrame(s, h, m.dst, q, {VoteRep(m.src, m.dst, a, r)});
  }

  lemma DiskPeer(h: History, p: Peer, q: Peer)
    requires PeerOk(h, p) && q == p.(disk := q.disk) && Durable(q)
    ensures PeerOk(h, q)
  {
    hide CommitBacked;
    forall i | 0 <= i < |q.broadcasts|
      ensures BroadcastOk(h, q, q.broadcasts[i])
    {
      SameBroadcast(h, p, q, p.broadcasts[i]);
    }
  }

  lemma ReceiveVoteStep(s: System, h: History, m: Message) returns (h': History)
    requires SystemOk(s, h) && Enabled(s, ReceiveVote(m)) && InBounds(s, ReceiveVote(m))
    ensures SystemOk(Do(s, ReceiveVote(m)), h') && Moves(h, h')
  {
    hide SystemOk, Do, LogsOk, Settled, Elections, ChosenOk;
    if Grants(s.peers[m.dst], m.vargs) && s.peers[m.dst].voteFor == NOBODY {
      h' := NewBallotStep(s, h, m);
    } else {
      h' := h;
      OldBallotStep(s, h, m);
      HistorySizes(s, h);
    }
  }

  lemma HistorySizes(s: System, h: History)
    requires SystemOk(s, h)
    ensures Grows(h, h) && Moves(h, h) && |s.peers| == h.n == s.n
  {
  }

  // ---------------------------------------------------------------- a vote comes back

  /** Only bookkeeping of goroutines changes, and the peer is not campaigning. */
  lemma IdlePeer(h: History, p: Peer, q: Peer)
    requires PeerOk(h, p) && p.role != Candidate && q == p.(election := q.election)
    ensures PeerOk(h, q)
  {
    hide CommitBacked;
    forall i | 0 <= i < |q.broadcasts|
      ensures BroadcastOk(h, q, q.broadcasts[i])
    {
      SameBroadcast(h, p, q, p.broadcasts[i]);
    }
  }

  /** A campaigning peer has another set of outstanding or counted voters. */
  lemma CampaigningPeer(h: History, p: Peer, q: Peer)
    requires PeerOk(h, p) && p.role == Candidate && q == p.(election := q.election) && CampaignOk(h, q)
    ensures PeerOk(h, q)
  {
    hide CommitBacked, CampaignOk;
    forall i | 0 <= i < |q.broadcasts|
      ensures BroadcastOk(h, q, q.broadcasts[i])
    {
      SameBroadcast(h, p, q, p.broadcasts[i]);
    }
  }

  /** The tally after one more vote. */
  function Tally(p: Peer, from: nat): Peer {
    p.(election := p.election.(nVotes := p.election.nVotes + 1, waiting := p.election.waiting - {from},
                               granted := p.election.granted + {from}))
  }

  lemma TallyPeer(h: History, p: Peer, from: nat)
    requires PeerOk(h, p) && from in p.election.waiting && from < h.n
    requires Slot(from, p.currentTerm) in h.voted && h.voted[Slot(from, p.currentTerm)].candidate == p.me
    ensures PeerOk(h, Tally(p, from))
  {
    hide PeerOk, BroadcastOk, CommitBacked, ClaimOk;
    PeerMirrors(h, p);
    var q := Tally(p, from);
    if p.role == Candidate {
      assert CampaignOk(h, q);
      CampaigningPeer(h, p, q);
    } else {
      IdlePeer(h, p, q);
    }
  }

  /** A counted majority is a real one. */
  lemma TallyWins(h: History, p: Peer)
    requires Mirrors(h, p) && CampaignOk(h, p) && ClaimsAgree(h) && p.election.nVotes >= Majority(p.n)
    ensures Wins(h, p.me)
  {
    var q := Voters(h, p.currentTerm, p.me);
    var counted := p.election.granted + {p.me};
    assert |counted| == p.election.nVotes;
    SubsetCard(counted, q);
    forall v | v in q
      ensures h.voted[Slot(v, p.currentTerm)].lastIndex == |p.log| - 1
      ensures h.voted[Slot(v, p.currentTerm)].lastTerm == LastTerm(p.log)
    {
      var key := Slot(v, p.currentTerm);
      assert ClaimOk(h, h.voted[key].candidate, key.term, h.voted[key].lastIndex, h.voted[key].lastTerm);
    }
  }

  lemma ElectUntouched(h: History, i: nat, j: nat)
    requires Sizes(h) && i < h.n && j < h.n && j != i && |h.log[i]| >= 1 && h.term[i] !in h.leader
    ensures Untouched(h, Elect(h, i), j)
  {
  }

  lemma ElectPeer(h: History, p: Peer)
    requires Sizes(h) && PeerOk(h, p) && p.role == Candidate && p.currentTerm !in h.leader
    requires Grows(h, Elect(h, p.me))
    ensures PeerOk(Elect(h, p.me), BecomeLeader(p))
  {
    hide BroadcastOk, CommitBacked;
    var h' := Elect(h, p.me);
    var q := BecomeLeader(p);
    forall i | 0 <= i < |q.broadcasts|
      ensures BroadcastOk(h', q, q.broadcasts[i])
    {
      ElectBroadcast(h, h', p, q, p.broadcasts[i]);
    }
    CommitBackedGrows(h, h', p.log, p.log, p.commitIndex, p.currentTerm, q.currentTerm);
  }

  lemma ElectBroadcast(h: History, h': History, p: Peer, q: Peer, b: Broadcast)
    requires Grows(h, h') && BroadcastOk(h, p, b) && p.role == Candidate
    requires q.me == p.me && q.currentTerm == p.currentTerm
    ensures BroadcastOk(h', q, b)
  {
    BroadcastOkGrows(h, h', p, b);
  }

  lemma WinStep(s: System, h: History, i: nat) returns (h': History)
    requires SystemOk(s, h) && i < h.n && s.peers[i].role == Candidate
    requires s.peers[i].election.nVotes >= Majority(s.peers[i].n)
    ensures SystemOk(Set(s, i, BecomeLeader(s.peers[i]), {}), h') && Moves(h, h')
  {
    hide PeerOk, LogsOk, Settled, Untouched, ClaimsAgree, VotesOk, AcksOk, LeadersOk, ClaimOk, Voters, ChosenOk, Grows, AcksEarned, Elections;
    var p := s.peers[i];
    PeerMirrors(h, p);
    TallyWins(h, p);
    if p.currentTerm in h.leader {
      OneLeaderPerTerm(h, p.currentTerm, i);
      assert false;
    }
    h' := Elect(h, i);
    ElectInv(h, i);
    ElectEarned(h, i);
    GrowsSizes(h, h');
    ElectPeer(h, p);
    forall j | 0 <= j < h.n && j != i
      ensures Untouched(h, h', j)
    {
      ElectUntouched(h, i, j);
    }
    ElectClaims(h, i);
    StepFrame(s, h, h', i, BecomeLeader(p), {});
  }

  lemma ElectClaims(h: History, i: nat)
    requires ClaimsAgree(h) && Sizes(h) && i < h.n && |h.log[i]| >= 1
    ensures ClaimsAgree(Elect(h, i))
  {
    var h' := Elect(h, i);
    forall key | key in h'.voted
      ensures ClaimOk(h', h'.voted[key].candidate, key.term, h'.voted[key].lastIndex, h'.voted[key].lastTerm)
    {
      assert key in h.voted;
    }
  }

  lemma GrantedStep(s: System, h: History, m: Message) returns (h': History)
    requires SystemOk(s, h) && Enabled(s, ReturnVote(m))
    requires s.peers[m.src].currentTerm == m.vargs.term && m.vreply.granted
    ensures SystemOk(Do(s, ReturnVote(m)), h') && Moves(h, h')
  {
    hide PeerOk, Inv, ClaimsAgree, ClaimOk;
    var i, p := m.src, s.peers[m.src];
    assert MessageOk(h, m);
    PeerMirrors(h, p);
    var q := Tally(p, m.dst);
    TallyPeer(h, p, m.dst);
    QuietFrame(s, h, i, q, {});
    var s1 := Set(s, i, q, {});
    if q.role == Candidate && q.election.nVotes >= Majority(q.n) {
      h' := WinStep(s1, h, i);
      assert Set(s1, i, BecomeLeader(q), {}) == Do(s, ReturnVote(m));
    } else {
      h' := h;
      HistorySizes(s, h);
      assert s1 == Do(s, ReturnVote(m));
    }
  }

  lemma RefusedStep(s: System, h: History, m: Message) returns (h': History)
    requires SystemOk(s, h) && Enabled(s, ReturnVote(m))
    requires s.peers[m.src].currentTerm == m.vargs.term && !m.vreply.granted
    ensures SystemOk(Do(s, ReturnVote(m)), h') && Moves(h, h')
  {
    hide PeerOk, MessageOk, Inv, ClaimsAgree, BroadcastOk, CommitBacked, ClaimOk;
    var i, p := m.src, s.peers[m.src];
    var q := VoteReturn(p, m.dst, m.vargs, m.vreply);
    PeerMirrors(h, p);
    if p.currentTerm < m.vreply.term {
      h' := AdoptStep(s, h, i, m.vreply.term, q);
    } else {
      h' := h;
      HistorySizes(s, h);
      if p.role == Candidate {
        assert CampaignOk(h, q);
        CampaigningPeer(h, p, q);
      } else {
        IdlePeer(h, p, q);
      }
      QuietFrame(s, h, i, q, {});
    }
  }

  lemma ReturnVoteStep(s: System, h: History, m: Message) returns (h': History)
    requires SystemOk(s, h) && Enabled(s, ReturnVote(m))
    ensures SystemOk(Do(s, ReturnVote(m)), h') && Moves(h, h')
  {
    hide PeerOk, MessageOk, Inv, ClaimsAgree;
    if s.peers[m.src].currentTerm != m.vargs.term {
      h' := h;
      HistorySizes(s, h);
      QuietFrame(s, h, m.src, s.peers[m.src], {});
    } else if m.vreply.granted {
      h' := GrantedStep(s, h, m);
    } else {
      h' := RefusedStep(s, h, m);
    }
  }

  // ---------------------------------------------------------------- a new broadcast

  lemma NewBroadcastPeer(h: History, p: Peer)
    requires PeerOk(h, p) && p.role == Leader
    ensures PeerOk(h, NewBroadcast(p))
  {
    hide CommitBacked;
    var q := NewBroadcast(p);
    forall i | 0 <= i < |q.broadcasts|
      ensures BroadcastOk(h, q, q.broadcasts[i])
    {
      if i < |p.broadcasts| {
        SameBroadcast(h, p, q, p.broadcasts[i]);
      }
    }
  }

  lemma BeatStep(s: System, h: History, i: nat)
    requires SystemOk(s, h) && Enabled(s, Beat(i)) && InBounds(s, Beat(i))
    ensures SystemOk(Do(s, Beat(i)), h)
  {
    hide PeerOk, MessageOk, Inv, ClaimsAgree;
    if s.peers[i].role == Leader {
      NewBroadcastPeer(h, s.peers[i]);
    }
    QuietFrame(s, h, i, Heartbeat(s.peers[i]), {});
  }

  // ---------------------------------------------------------------- a command is submitted

  function Appended(p: Peer, command: Command): Peer {
    Persist(p.(log := p.log + [Entry(command, p.currentTerm)]))
  }

  lemma ExtendUntouched(h: History, i: nat, command: Command, j: nat)
    requires Sizes(h) && Leads(h, i) && j < h.n && j != i
    ensures Untouched(h, Extend(h, i, command), j)
  {
  }

  lemma AppendedPeer(h: History, p: Peer, command: Command)
    requires Sizes(h) && PeerOk(h, p) && p.role == Leader && Grows(h, Extend(h, p.me, command))
    ensures PeerOk(Extend(h, p.me, command), Appended(p, command))
  {
    hide BroadcastOk, CommitBacked;
    var h' := Extend(h, p.me, command);
    var q := Appended(p, command);
    forall i | 0 <= i < |q.broadcasts|
      ensures BroadcastOk(h', q, q.broadcasts[i])
    {
      BroadcastOkGrows(h, h', p, p.broadcasts[i]);
      SameBroadcast(h', p, q, p.broadcasts[i]);
    }
    CommitBackedGrows(h, h', p.log, q.log, p.commitIndex, p.currentTerm, q.currentTerm);
  }

  lemma SubmitStep(s: System, h: History, i: nat, command: Command) returns (h': History)
    requires SystemOk(s, h) && Enabled(s, Submit(i, command))
    ensures SystemOk(Do(s, Submit(i, command)), h') && Moves(h, h')
  {
    hide PeerOk, LogsOk, Settled, Untouched, ClaimsAgree, VotesOk, AcksOk, LeadersOk, ChosenOk, Elections, Grows, AcksEarned;
    var p := s.peers[i];
    PeerMirrors(h, p);
    HistorySizes(s, h);
    if p.role == Leader {
      h' := Extend(h, i, command);
      ExtendInv(h, i, command);
      ExtendEarned(h, i, command);
      GrowsSizes(h, h');
      AppendedPeer(h, p, command);
      NewBroadcastPeer(h', Appended(p, command));
      forall j | 0 <= j < h.n && j != i
        ensures Untouched(h, h', j)
      {
        ExtendUntouched(h, i, command, j);
      }
      ExtendClaims(h, i, command);
      StepFrame(s, h, h', i, Start(p, command), {});
    } else {
      h' := h;
      QuietFrame(s, h, i, p, {});
    }
  }

  lemma ExtendClaims(h: History, i: nat, command: Command)
    requires ClaimsAgree(h) && Sizes(h) && i < h.n
    ensures ClaimsAgree(Extend(h, i, command))
  {
    var h' := Extend(h, i, command);
    forall key | key in h'.voted
      ensures ClaimOk(h', h'.voted[key].candidate, key.term, h'.voted[key].lastIndex, h'.voted[key].lastTerm)
    {
      assert key in h.voted;
    }
  }

  // ---------------------------------------------------------------- a request is sent

  lemma RequestFromLeader(h: History, p: Peer, b: Broadcast, dst: nat)
    requires p.role == Leader && ReignOk(h, p) && BroadcastOk(h, p, b)
    requires p.currentTerm == b.term && dst < p.n && SendInBounds(p, b, dst)
    ensures RequestOk(h, p.me, Request(p, b, dst))
    ensures b.index <= Request(p, b, dst).prevLogIndex + |Request(p, b, dst).entries|
  {
    hide CommitBacked;
    var a := Request(p, b, dst);
    assert a.entries == p.log[a.prevLogIndex + 1..a.prevLogIndex + |a.entries| + 1];
  }

  lemma IssueStep(s: System, h: History, i: nat, bid: nat, dst: nat)
    requires SystemOk(s, h) && Enabled(s, Issue(i, bid, dst)) && InBounds(s, Issue(i, bid, dst))
    ensures SystemOk(Do(s, Issue(i, bid, dst)), h)
  {
    hide PeerOk, Inv, ClaimsAgree, RequestOk, CommitBacked;
    var p := s.peers[i];
    PeerMirrors(h, p);
    var b := p.broadcasts[bid];
    RequestFromLeader(h, p, b, dst);
    SentPeer(h, p, bid, dst);
    var m := AppendReq(i, dst, bid, Request(p, b, dst));
    assert MessageOk(h, m);
    QuietFrame(s, h, i, Send(p, bid, dst), {m});
  }

  lemma SentPeer(h: History, p: Peer, bid: nat, dst: nat)
    requires PeerOk(h, p) && bid < |p.broadcasts| && SendInBounds(p, p.broadcasts[bid], dst)
    requires p.role == Leader && p.currentTerm == p.broadcasts[bid].term
    requires IsOther(p.n, p.me, dst) && dst !in p.broadcasts[bid].acked
    ensures PeerOk(h, Send(p, bid, dst))
  {
    hide CommitBacked;
    var q := Send(p, bid, dst);
    RequestFromLeader(h, p, p.broadcasts[bid], dst);
    forall i | 0 <= i < |q.broadcasts|
      ensures BroadcastOk(h, q, q.broadcasts[i])
    {
      if i != bid {
        SameBroadcast(h, p, q, p.broadcasts[i]);
      }
    }
  }

  // ---------------------------------------------------------------- a request is handled

  /** The receiver of a request of its own term is not that term's leader. */
  lemma ReceiverFollows(h: History, p: Peer, src: nat, a: AppendArgs)
    requires PeerOk(h, p) && RequestOk(h, src, a) && src != p.me && a.term == p.currentTerm
    ensures p.role != Leader
    ensures forall i :: 0 <= i < |p.broadcasts| ==> p.broadcasts[i].term < p.currentTerm
  {
    hide CommitBacked, CutFrom, VoteOk, CampaignOk, StreamOk;
    forall i | 0 <= i < |p.broadcasts|
      ensures p.broadcasts[i].term < p.currentTerm
    {
      assert BroadcastOk(h, p, p.broadcasts[i]);
    }
  }

  /** Accepting a batch keeps every committed entry of the receiver. */
  lemma CommittedKept(h: History, v: nat, prev: nat, entries: seq<Entry>, k: nat)
    requires Inv(h) && Acceptable(h, v, prev, entries)
    requires k < |h.log[v]| && CommitBacked(h, h.log[v], k, h.term[v])
    ensures Agree(Reconcile(h.log[v], prev, entries), h.log[v], k)
  {
    hide Settled, Elections, ChosenOk, LeaderLogsOk, UpToDate, Reconcile, Backed, TermsAtMost;
    var t := h.term[v];
    AcceptLog(h, v, prev, entries);
    LeaderLogBacked(h.glog, t);
    assert Agree(h.log[v], h.glog[t], k) by {
      if k == 0 {
        SentinelAgree(h.glog, h.log[v], h.glog[t]);
      } else {
        var e :| e in h.chosen && e.term <= t && k <= e.index && e.term in h.glog && Agree(h.log[v], h.glog[e.term], k);
        LeaderCompleteness(h, e, t);
      }
    }
  }

  lemma SentinelAgree(g: LeaderLogs, a: Log, b: Log)
    requires Backed(g, a) && Backed(g, b)
    ensures Agree(a, b, 0)
  {
  }

  lemma AcceptUntouched(h: History, i: nat, prev: nat, entries: seq<Entry>, j: nat)
    requires Sizes(h) && i < h.n && j < h.n && j != i && prev < |h.log[i]|
    ensures Untouched(h, Accept(h, i, prev, entries), j)
  {
  }

  /** Commit index and applied stream after accepting. */
  lemma AcceptCommit(h: History, p: Peer, src: nat, a: AppendArgs)
    requires Inv(h) && PeerOk(h, p) && RequestOk(h, src, a) && src != p.me && a.term == p.currentTerm
    requires Consistent(p.log, a)
    requires Grows(h, Accept(h, p.me, a.prevLogIndex, a.entries))
    ensures CommitOk(Accept(h, p.me, a.prevLogIndex, a.entries), HandleAppend(p, a).0)
    ensures StreamOk(HandleAppend(p, a).0)
    ensures HandleAppend(p, a).0.commitIndex >= p.commitIndex
  {
    hide Inv, BroadcastOk, CommitBacked, ReignOk, CampaignOk, Reconcile;
    var h' := Accept(h, p.me, a.prevLogIndex, a.entries);
    var q := HandleAppend(p, a).0;
    assert Acceptable(h, p.me, a.prevLogIndex, a.entries);
    CommittedKept(h, p.me, a.prevLogIndex, a.entries, p.commitIndex);
    assert Agree(q.log, h.glog[a.term], a.prevLogIndex + |a.entries|) by { AcceptedBatch(h, p.me, a.prevLogIndex, a.entries); }
    if a.leaderCommit > p.commitIndex {
      CommitBackedGrows(h, h', h.glog[a.term], q.log, a.leaderCommit, a.term, a.term);
    } else {
      CommitBackedGrows(h, h', p.log, q.log, p.commitIndex, p.currentTerm, q.currentTerm);
    }
  }

  lemma AcceptedBatch(h: History, v: nat, prev: nat, entries: seq<Entry>)
    requires Inv(h) && Acceptable(h, v, prev, entries)
    ensures Agree(Reconcile(h.log[v], prev, entries), h.glog[h.term[v]], prev + |entries|)
    ensures |Reconcile(h.log[v], prev, entries)| >= 1
  {
    hide LogsOk, Settled, Elections, ChosenOk, Reconcile;
    AcceptLog(h, v, prev, entries);
  }

  lemma AcceptPeer(h: History, p: Peer, src: nat, a: AppendArgs)
    requires Inv(h) && PeerOk(h, p) && RequestOk(h, src, a) && src != p.me && a.term == p.currentTerm
    requires Consistent(p.log, a)
    requires Grows(h, Accept(h, p.me, a.prevLogIndex, a.entries))
    ensures PeerOk(Accept(h, p.me, a.prevLogIndex, a.entries), HandleAppend(p, a).0)
  {
    hide Inv, BroadcastOk, CommitBacked, Reconcile, CampaignOk, ReignOk;
    var h' := Accept(h, p.me, a.prevLogIndex, a.entries);
    var q := HandleAppend(p, a).0;
    assert Acceptable(h, p.me, a.prevLogIndex, a.entries);
    AcceptCommit(h, p, src, a);
    AcceptedBatch(h, p.me, a.prevLogIndex, a.entries);
    ReceiverFollows(h, p, src, a);
    forall i | 0 <= i < |q.broadcasts|
      ensures BroadcastOk(h', q, q.broadcasts[i])
    {
      BroadcastOkGrows(h, h', p, p.broadcasts[i]);
      SameBroadcast(h', p, q, p.broadcasts[i]);
    }
  }

  lemma AcceptStep(s: System, h: History, m: Message) returns (h': History)
    requires SystemOk(s, h) && Enabled(s, ReceiveAppend(m))
    requires m.args.term == s.peers[m.dst].currentTerm && Consistent(s.peers[m.dst].log, m.args)
    ensures SystemOk(Do(s, ReceiveAppend(m)), h') && Moves(h, h')
  {
    hide PeerOk, LogsOk, Settled, Untouched, ClaimsAgree, VotesOk, AcksOk, LeadersOk, ChosenOk, Elections, CommitBacked, Reconcile,
         BroadcastOk, VoteOk, CampaignOk, ReignOk, Grows, AcksEarned;
    var i, p, a := m.dst, s.peers[m.dst], m.args;
    PeerMirrors(h, p);
    assert MessageOk(h, m);
    h' := Accept(h, i, a.prevLogIndex, a.entries);
    assert Acceptable(h, i, a.prevLogIndex, a.entries);
    AcceptInv(h, i, a.prevLogIndex, a.entries);
    AcceptEarned(h, i, a.prevLogIndex, a.entries);
    GrowsSizes(h, h');
    AcceptPeer(h, p, m.src, a);
    forall j | 0 <= j < h.n && j != i
      ensures Untouched(h, h', j)
    {
      AcceptUntouched(h, i, a.prevLogIndex, a.entries, j);
    }
    AcceptClaims(h, i, a.prevLogIndex, a.entries);
    var (q, r) := HandleAppend(p, a);
    var reply := AppendRep(m.src, i, m.bid, a, r);
    assert MessageOk(h', reply) by { RequestOkGrows(h, h', m.src, a); }
    StepFrame(s, h, h', i, q, {reply});
  }

  lemma AcceptClaims(h: History, i: nat, prev: nat, entries: seq<Entry>)
    requires ClaimsAgree(h) && Sizes(h) && i < h.n && prev < |h.log[i]|
    ensures ClaimsAgree(Accept(h, i, prev, entries))
  {
    var h' := Accept(h, i, prev, entries);
    forall key | key in h'.voted
      ensures ClaimOk(h', h'.voted[key].candidate, key.term, h'.voted[key].lastIndex, h'.voted[key].lastTerm)
    {
      assert key in h.voted;
    }
  }

  /** A rejection reports an index from 1 to the probed one, and never blames the sentinel. */
  lemma RejectionPointsBack(g: LeaderLogs, lead: Log, log: Log, t: nat, a: AppendArgs)
    requires LeaderLogsOk(g) && Backed(g, log) && Backed(g, lead)
    requires a.prevLogIndex < |lead| && a.prevLogTerm == lead[a.prevLogIndex].term
    requires !Consistent(log, a)
    ensures RejectionOk(a, Rejection(log, t, a))
  {
    if |log| > a.prevLogIndex {
      assert a.prevLogIndex >= 1;
      assert log[a.prevLogIndex].term in g;
      assert log[a.prevLogIndex].term != log[0].term;
    }
  }

  lemma RejectStep(s: System, h: History, m: Message)
    requires SystemOk(s, h) && Enabled(s, ReceiveAppend(m))
    requires m.args.term < s.peers[m.dst].currentTerm || !Consistent(s.peers[m.dst].log, m.args)
    ensures SystemOk(Do(s, ReceiveAppend(m)), h)
  {
    hide PeerOk, Settled, ClaimsAgree, VotesOk, AcksOk, LeadersOk, ChosenOk, Elections, CommitBacked, BroadcastOk, Backed, LeaderLogsOk, UpToDate, TermsAtMost, Rejection;
    var i, p, a := m.dst, s.peers[m.dst], m.args;
    PeerMirrors(h, p);
    assert MessageOk(h, m);
    var (q, r) := HandleAppend(p, a);
    var reply := AppendRep(m.src, i, m.bid, a, r);
    if a.term == p.currentTerm {
      LeaderLogBacked(h.glog, a.term);
      RejectionPointsBack(h.glog, h.glog[a.term], p.log, p.currentTerm, a);
      RejectionFails(p.log, p.currentTerm, a);
    }
    assert MessageOk(h, reply);
    QuietFrame(s, h, i, q, {reply});
  }

  lemma RejectionFails(log: Log, t: nat, a: AppendArgs)
    ensures !Rejection(log, t, a).success
  {
  }

  lemma ReceiveAppendStep(s: System, h: History, m: Message) returns (h': History)
    requires SystemOk(s, h) && Enabled(s, ReceiveAppend(m))
    ensures SystemOk(Do(s, ReceiveAppend(m)), h') && Moves(h, h')
  {
    hide SystemOk, Do;
    if m.args.term == s.peers[m.dst].currentTerm && Consistent(s.peers[m.dst].log, m.args) {
      h' := AcceptStep(s, h, m);
    } else {
      h' := h;
      RejectStep(s, h, m);
      HistorySizes(s, h);
    }
  }

  // ---------------------------------------------------------------- a reply comes back

  /** The new nextIndex is at least 1 and strictly below the old one. */
  lemma NextIndexDecreases(log: Log, a: AppendArgs, r: AppendReply)
    requires a.prevLogIndex < |log| && log[a.prevLogIndex].term == a.prevLogTerm && RejectionOk(a, r)
    ensures NextIndexInBounds(log, r, a.prevLogIndex + 1)
    ensures 1 <= GetNextIndex(log, r, a.prevLogIndex + 1) <= a.prevLogIndex
  {
    if r.conflictTerm != 0 && log[r.conflictFirstIndex].term >= r.conflictTerm {
      var j := SearchBack(log, r.conflictFirstIndex, r.conflictTerm);
      if j != 0 {
        var m := SearchForward(log, j, a.prevLogIndex + 1, r.conflictTerm);
        assert m != a.prevLogIndex;
      }
    }
  }

  /** A call that is still awaited was made by the leader of its term. */
  lemma AwaitedCall(h: History, p: Peer, bid: nat, dst: nat, a: AppendArgs)
    requires PeerOk(h, p) && bid < |p.broadcasts| && dst in p.broadcasts[bid].calls && p.broadcasts[bid].calls[dst] == a
    requires p.currentTerm == a.term
    ensures p.role == Leader && ReignOk(h, p) && p.broadcasts[bid].term == a.term
    ensures p.broadcasts[bid].index < |p.log|
    ensures p.broadcasts[bid].index <= a.prevLogIndex + |a.entries|
  {
    hide CommitBacked, VoteOk, CampaignOk, StreamOk;
    assert BroadcastOk(h, p, p.broadcasts[bid]);
  }

  /** What is known when a reply of the current term arrives at its caller. */
  ghost predicate ReplySound(h: History, p: Peer, m: Message)
    requires m.AppendRep? && m.bid < |p.broadcasts|
  {
    && p.role == Leader && ReignOk(h, p) && p.broadcasts[m.bid].term == m.args.term
    && m.dst < p.n && m.dst != p.me
    && m.args.prevLogIndex < |p.log| && p.log[m.args.prevLogIndex].term == m.args.prevLogTerm
    && p.broadcasts[m.bid].index < |p.log|
    && (m.reply.success ==> Acked(h, m.dst, m.args.term, p.broadcasts[m.bid].index))
    && (!m.reply.success && m.reply.term <= m.args.term ==> RejectionOk(m.args, m.reply))
  }

  lemma ReplyToLeader(s: System, h: History, m: Message)
    requires SystemOk(s, h) && Enabled(s, ReturnAppend(m)) && s.peers[m.src].currentTerm == m.args.term
    ensures ReplySound(h, s.peers[m.src], m) && s.peers[m.src].me == m.src
  {
    hide PeerOk, Inv, ClaimsAgree, CommitBacked, BroadcastOk;
    var p := s.peers[m.src];
    AwaitedCall(h, p, m.bid, m.dst, m.args);
    assert MessageOk(h, m);
    PeerMirrors(h, p);
  }

  lemma ReturnBounds(s: System, h: History, m: Message)
    requires SystemOk(s, h) && Enabled(s, ReturnAppend(m))
    ensures InBounds(s, ReturnAppend(m))
  {
    hide SystemOk;
    var p := s.peers[m.src];
    if p.currentTerm == m.args.term {
      ReplyToLeader(s, h, m);
      if !m.reply.success && m.reply.term <= m.args.term {
        NextIndexDecreases(p.log, m.args, m.reply);
      }
    }
  }

  /** A leader whose nextIndex and matchIndex entries are replaced by sound ones, one of whose
      broadcasts is replaced by a sound one, and whose commit index is sound. */
  lemma LeaderUpdate(h: History, h': History, p: Peer, q: Peer, bid: nat)
    requires Grows(h, h') && PeerOk(h, p) && p.role == Leader && bid < |p.broadcasts| && bid < |q.broadcasts|
    requires Mirrors(h', p) && VoteOk(h', p)
    requires q == p.(nextIndex := q.nextIndex, matchIndex := q.matchIndex, broadcasts := q.broadcasts, commitIndex := q.commitIndex)
    requires q.broadcasts == p.broadcasts[bid := q.broadcasts[bid]]
    requires ReignOk(h', q) && BroadcastOk(h', q, q.broadcasts[bid])
    requires q.commitIndex >= p.commitIndex && CommitOk(h', q)
    ensures PeerOk(h', q)
  {
    hide BroadcastOk, CommitBacked, ReignOk;
    forall i | 0 <= i < |q.broadcasts|
      ensures BroadcastOk(h', q, q.broadcasts[i])
    {
      if i != bid {
        BroadcastOkGrows(h, h', p, p.broadcasts[i]);
        SameBroadcast(h', p, q, p.broadcasts[i]);
      }
    }
  }

  lemma BackUpStep(s: System, h: History, m: Message)
    requires SystemOk(s, h) && Enabled(s, ReturnAppend(m)) && InBounds(s, ReturnAppend(m))
    requires s.peers[m.src].currentTerm == m.args.term && !m.reply.success && m.reply.term <= m.args.term
    ensures SystemOk(Do(s, ReturnAppend(m)), h)
  {
    hide PeerOk, Inv, ClaimsAgree, CommitBacked, MessageOk, GetNextIndex;
    var p, a, r := s.peers[m.src], m.args, m.reply;
    ReplyToLeader(s, h, m);
    PeerMirrors(h, p);
    NextIndexDecreases(p.log, a, r);
    var q := BackUp(p, m.bid, m.dst, a, r);
    HistorySizes(s, h);
    LeaderUpdate(h, h, p, q, m.bid);
    QuietFrame(s, h, m.src, q, {});
  }

  /** Counting a success keeps the broadcast sound. */
  lemma CountedBroadcast(h: History, p: Peer, bid: nat, from: nat)
    requires PeerOk(h, p) && p.role == Leader && bid < |p.broadcasts| && p.broadcasts[bid].term == p.currentTerm
    requires from in p.broadcasts[bid].calls && from < p.n && from != p.me
    requires Acked(h, from, p.currentTerm, p.broadcasts[bid].index)
    requires |p.nextIndex| == p.n && |p.matchIndex| == p.n && p.broadcasts[bid].index < |p.log|
    ensures BroadcastOk(h, CountReplica(p, bid, from), CountReplica(p, bid, from).broadcasts[bid])
    ensures ReignOk(h, CountReplica(p, bid, from))
  {
    hide CommitBacked, VoteOk, CampaignOk, StreamOk;
    var b := p.broadcasts[bid];
    assert BroadcastOk(h, p, b);
    assert from !in b.acked;
  }

  /** The counted servers and the leader itself are a majority that acknowledged the index. */
  lemma CountedMajority(h: History, p: Peer, b: Broadcast, from: nat)
    requires WellFormed(h) && Mirrors(h, p) && ReignOk(h, p) && BroadcastOk(h, p, b) && b.term == p.currentTerm
    requires from < p.n && from != p.me && from !in b.acked && Acked(h, from, p.currentTerm, b.index)
    requires b.nReplica + 1 >= Majority(p.n)
    ensures |Ackers(h, p.currentTerm, b.index)| >= Majority(h.n)
  {
    hide CommitBacked, VotesOk, AcksOk;
    var counted := b.acked + {from} + {p.me};
    assert |counted| == b.nReplica + 1;
    assert Acked(h, p.me, p.currentTerm, b.index) by {
      assert Slot(h.leader[b.term], b.term) in h.ack;
    }
    SubsetCard(counted, Ackers(h, p.currentTerm, b.index));
  }

  lemma CountStep(s: System, h: History, m: Message)
    requires SystemOk(s, h) && Enabled(s, ReturnAppend(m)) && InBounds(s, ReturnAppend(m))
    requires s.peers[m.src].currentTerm == m.args.term && m.reply.success
    requires s.peers[m.src].broadcasts[m.bid].index < |s.peers[m.src].log|
    requires !Decides(s.peers[m.src], m.bid, m.args, m.reply)
    ensures SystemOk(Do(s, ReturnAppend(m)), h)
  {
    hide PeerOk, Inv, ClaimsAgree, CommitBacked, MessageOk, BroadcastOk;
    var p := s.peers[m.src];
    ReplyToLeader(s, h, m);
    PeerMirrors(h, p);
    var q := CountReplica(p, m.bid, m.dst);
    CountedBroadcast(h, p, m.bid, m.dst);
    HistorySizes(s, h);
    LeaderUpdate(h, h, p, q, m.bid);
    QuietFrame(s, h, m.src, q, {});
  }

  lemma ChooseUntouched(h: History, t: nat, k: nat, j: nat)
    requires Sizes(h) && j < h.n
    ensures Untouched(h, Choose(h, t, k), j)
  {
  }

  /** The leader commits: a majority acknowledged an entry of its own term. */
  lemma DecideStep(s: System, h: History, m: Message) returns (h': History)
    requires SystemOk(s, h) && Enabled(s, ReturnAppend(m)) && InBounds(s, ReturnAppend(m))
    requires s.peers[m.src].currentTerm == m.args.term && m.reply.success
    requires s.peers[m.src].broadcasts[m.bid].index < |s.peers[m.src].log|
    requires Decides(s.peers[m.src], m.bid, m.args, m.reply)
    ensures SystemOk(Do(s, ReturnAppend(m)), h') && Moves(h, h')
  {
    hide PeerOk, LogsOk, Settled, Elections, ChosenOk, ClaimsAgree, MessageOk, BroadcastOk, Untouched, VotesOk, AcksOk, LeadersOk, Ackers, Grows, AcksEarned;
    var i, p := m.src, s.peers[m.src];
    var b := p.broadcasts[m.bid];
    ReplyToLeader(s, h, m);
    PeerMirrors(h, p);
    CountedFresh(h, p, b, m.dst);
    CountedMajority(h, p, b, m.dst);
    h' := Choose(h, p.currentTerm, b.index);
    ChooseInv(h, p.currentTerm, b.index);
    SameAcksEarned(h, h');
    GrowsSizes(h, h');
    var q := CountReplica(p, m.bid, m.dst);
    CountedBroadcast(h, p, m.bid, m.dst);
    BroadcastOkGrows(h, h', q, q.broadcasts[m.bid]);
    assert CommitBacked(h', q.log, b.index, q.currentTerm) by {
      var e := Mark(p.currentTerm, b.index);
      assert e in h'.chosen && Agree(q.log, h'.glog[e.term], b.index);
    }
    LeaderUpdate(h, h', p, q, m.bid);
    forall j | 0 <= j < h.n && j != i
      ensures Untouched(h, h', j)
    {
      ChooseUntouched(h, p.currentTerm, b.index, j);
    }
    ChooseClaims(h, p.currentTerm, b.index);
    StepFrame(s, h, h', i, q, {});
  }

  lemma CountedFresh(h: History, p: Peer, b: Broadcast, from: nat)
    requires BroadcastOk(h, p, b) && from in b.calls
    ensures from !in b.acked
  {
  }

  lemma ChooseClaims(h: History, t: nat, k: nat)
    requires ClaimsAgree(h)
    ensures ClaimsAgree(Choose(h, t, k))
  {
    var h' := Choose(h, t, k);
    forall key | key in h'.voted
      ensures ClaimOk(h', h'.voted[key].candidate, key.term, h'.voted[key].lastIndex, h'.voted[key].lastTerm)
    {
      assert key in h.voted;
    }
  }

  lemma ReturnAppendStep(s: System, h: History, m: Message) returns (h': History)
    requires SystemOk(s, h) && Enabled(s, ReturnAppend(m)) && InBounds(s, ReturnAppend(m))
    ensures SystemOk(Do(s, ReturnAppend(m)), h') && Moves(h, h')
  {
    hide PeerOk, Inv, ClaimsAgree, MessageOk;
    var p := s.peers[m.src];
    h' := h;
    HistorySizes(s, h);
    if p.currentTerm != m.args.term {
      QuietFrame(s, h, m.src, p, {});
    } else if m.reply.success {
      ReplyToLeader(s, h, m);
      if Decides(p, m.bid, m.args, m.reply) {
        h' := DecideStep(s, h, m);
      } else {
        CountStep(s, h, m);
      }
    } else if m.args.term < m.reply.term {
      h' := AdoptStep(s, h, m.src, m.reply.term, StepDown(p, m.reply.term));
    } else {
      BackUpStep(s, h, m);
    }
  }

  // ---------------------------------------------------------------- applying and restarting

  lemma CollectStep(s: System, h: History, i: nat)
    requires SystemOk(s, h) && Enabled(s, Collect(i))
    ensures SystemOk(Do(s, Collect(i)), h)
  {
    hide PeerOk, Inv, ClaimsAgree, MessageOk, CommitBacked;
    var p := s.peers[i];
    PeerMirrors(h, p);
    ApplyPeer(h, p, TakeBatch(p));
    QuietFrame(s, h, i, TakeBatch(p), {});
  }

  lemma ApplyPeer(h: History, p: Peer, q: Peer)
    requires PeerOk(h, p) && CommitOk(h, q) && StreamOk(q)
    requires q == p.(applyTo := q.applyTo, lastApplied := q.lastApplied, stream := q.stream)
    ensures PeerOk(h, q)
  {
    hide CommitBacked;
    forall i | 0 <= i < |q.broadcasts|
      ensures BroadcastOk(h, q, q.broadcasts[i])
    {
      SameBroadcast(h, p, q, p.broadcasts[i]);
    }
  }

  lemma DeliverStep(s: System, h: History, i: nat)
    requires SystemOk(s, h) && Enabled(s, Deliver(i)) && InBounds(s, Deliver(i))
    ensures SystemOk(Do(s, Deliver(i)), h)
  {
    hide PeerOk, Inv, ClaimsAgree, MessageOk, CommitBacked, BroadcastOk;
    var p := s.peers[i];
    PeerMirrors(h, p);
    ApplyPeer(h, p, ApplyNext(p));
    QuietFrame(s, h, i, ApplyNext(p), {});
  }

  /** A peer comes back with the persistent state it had. */
  lemma CrashStep(s: System, h: History, i: nat)
    requires SystemOk(s, h) && Enabled(s, Crash(i))
    ensures SystemOk(Do(s, Crash(i)), h)
  {
    hide Inv, ClaimsAgree, MessageOk, BroadcastOk, CampaignOk, ReignOk;
    var p := s.peers[i];
    assert PeerOk(h, p);
    assert PeerOk(h, Restart(p));
    QuietFrame(s, h, i, Restart(p), {});
  }

  // ---------------------------------------------------------------- all steps

  /** No step of a sound cluster indexes out of range. */
  lemma Bounds(s: System, h: History, step: Step)
    requires SystemOk(s, h) && Enabled(s, step)
    ensures InBounds(s, step)
  {
    hide Inv, ClaimsAgree, MessageOk, CommitBacked, PeerOk, ReturnInBounds;
    match step
    case Timeout(i) => PeerMirrors(h, s.peers[i]);
    case ReceiveVote(m) => PeerMirrors(h, s.peers[m.dst]);
    case Beat(i) => PeerMirrors(h, s.peers[i]);
    case Issue(i, bid, dst) => PeerMirrors(h, s.peers[i]);
    case ReturnAppend(m) => ReturnBounds(s, h, m);
    case Deliver(i) => PeerMirrors(h, s.peers[i]);
    case AdoptTerm(_) =>
    case ReturnVote(_) =>
    case Submit(_, _) =>
    case ReceiveAppend(_) =>
    case Collect(_) =>
    case Crash(_) =>
  }

  lemma AnyStep(s: System, h: History, step: Step) returns (h': History)
    requires SystemOk(s, h) && Enabled(s, step)
    ensures InBounds(s, step) && SystemOk(Do(s, step), h') && Moves(h, h')
  {
    hide SystemOk, InBounds;
    Bounds(s, h, step);
    HistorySizes(s, h);
    h' := h;
    match step
    case Timeout(i) => h' := TimeoutStep(s, h, i);
    case AdoptTerm(m) => h' := AdoptStep(s, h, m.dst, RequestTerm(m), StepDown(s.peers[m.dst], RequestTerm(m)));
    case ReceiveVote(m) => h' := ReceiveVoteStep(s, h, m);
    case ReturnVote(m) => h' := ReturnVoteStep(s, h, m);
    case Submit(i, command) => h' := SubmitStep(s, h, i, command);
    case Beat(i) => BeatStep(s, h, i);
    case Issue(i, bid, dst) => IssueStep(s, h, i, bid, dst);
    case ReceiveAppend(m) => h' := ReceiveAppendStep(s, h, m);
    case ReturnAppend(m) => h' := ReturnAppendStep(s, h, m);
    case Collect(i) => CollectStep(s, h, i);
    case Deliver(i) => DeliverStep(s, h, i);
    case Crash(i) => CrashStep(s, h, i);
  }

  /** The history of a cluster that has just booted. */
  function Genesis(n: nat): History {
    History(n, seq(n, i => 0), seq(n, i => [SENTINEL]), map[], map[], map[], map[], {})
  }

  lemma InitOk(n: nat)
    ensures SystemOk(Init(n), Genesis(n))
  {
    var h, s := Genesis(n), Init(n);
    assert Inv(h);
    forall i | 0 <= i < n
      ensures s.peers[i].me == i && PeerOk(h, s.peers[i])
    {
    }
  }
}
