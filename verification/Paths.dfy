/** Building concrete runs step by step.

  `Path(from, r, to)`: the steps of `r` lead from one state to the other.  A path that starts with
  fresh peers is a run.
 */
module Paths {
  import opened Logs
  import opened Consensus
  import opened Node
  import opened Cluster

  ghost predicate Path(from: System, r: Run, to: System) {
    && |r.states| == |r.steps| + 1 && r.states[0] == from && r.states[|r.steps|] == to
    && forall k :: 0 <= k < |r.steps| ==> Takes(r, k)
  }

  /** `r` is the beginning of `r'`. */
  ghost predicate Begins(r: Run, r': Run) {
    r.states <= r'.states && r.steps <= r'.steps
  }

  lemma PathIsRun(n: nat, r: Run, to: System)
    requires Path(Init(n), r, to)
    ensures IsRun(n, r) && r.states[|r.steps|] == to && |r.states| == |r.steps| + 1
  {
  }

  lemma Here(s: System) returns (r: Run)
    ensures Path(s, r, s) && r.steps == []
  {
    r := Run([s], []);
  }

  /** A path goes on with any step enabled where it has arrived. */
  lemma Take(from: System, r: Run, s: System, step: Step) returns (r': Run, s': System)
    requires Path(from, r, s) && Enabled(s, step) && InBounds(s, step)
    ensures Path(from, r', s') && s' == Do(s, step)
    ensures Begins(r, r') && r'.steps == r.steps + [step] && r'.states == r.states + [s']
    ensures |r.states| == |r.steps| + 1
  {
    hide Enabled, InBounds, Do;
    s' := Do(s, step);
    r' := Run(r.states + [s'], r.steps + [step]);
    forall k | 0 <= k < |r'.steps|
      ensures Takes(r', k)
    {
      assert k < |r.steps| ==> Takes(r, k);
    }
  }

  // ---------------------------------------------------------------- an election won with one vote

  /** A cluster in which two votes are a majority. */
  ghost predicate Small(s: System) {
    && |s.peers| == s.n && Majority(s.n) == 2
    && forall i :: 0 <= i < s.n ==> s.peers[i].me == i && s.peers[i].n == s.n && |s.peers[i].log| >= 1
  }

  lemma FreshCluster(n: nat) returns (r: Run, s: System)
    requires n == 2 || n == 3
    ensures Path(Init(n), r, s) && s == Init(n) && Small(s) && r.steps == []
  {
    s := Init(n);
    r := Here(s);
  }

  function Elected(p: Peer, voter: nat): Peer {
    BecomeLeader(StartElection(p).(election := Election(p.currentTerm + 1, 2, Others(p.n, p.me) - {voter}, {voter})))
  }

  function Voted(p: Peer, t: nat, candidate: nat): Peer {
    Persist(p.(currentTerm := t, voteFor := candidate, role := Follower))
  }

  ghost predicate OnlyVotes(net: set<Message>, net': set<Message>) {
    net <= net' && forall m :: m in net' && m !in net ==> m.VoteReq? || m.VoteRep?
  }

  lemma Asks(from: System, r: Run, s: System, c: nat, v: nat) returns (r': Run, s': System)
    requires Path(from, r, s) && Small(s) && c < s.n && v < s.n && c != v
    ensures Path(from, r', s') && Begins(r, r') && s'.n == s.n && OnlyVotes(s.net, s'.net)
    ensures s'.peers == s.peers[c := StartElection(s.peers[c])]
    ensures VoteReq(c, v, BallotRequest(StartElection(s.peers[c]))) in s'.net
  {
    hide Path;
    r', s' := Take(from, r, s, Timeout(c));
    assert IsOther(s.n, c, v);
    assert VoteReq(c, v, BallotRequest(s'.peers[c])) in Ballots(s'.peers[c]);
  }

  lemma Answers(from: System, r: Run, s: System, c: nat, v: nat) returns (r': Run, s': System)
    requires Path(from, r, s) && Small(s) && c < s.n && v < s.n && c != v
    requires s.peers[v].currentTerm < s.peers[c].currentTerm
    requires UpToDate(|s.peers[c].log| - 1, LastTerm(s.peers[c].log), s.peers[v].log)
    requires VoteReq(c, v, BallotRequest(s.peers[c])) in s.net
    ensures Path(from, r', s') && Begins(r, r') && s'.n == s.n && OnlyVotes(s.net, s'.net)
    ensures s'.peers == s.peers[v := Voted(s.peers[v], s.peers[c].currentTerm, c)]
    ensures VoteRep(c, v, BallotRequest(s.peers[c]), VoteReply(s.peers[c].currentTerm, true)) in s'.net
  {
    hide Path, UpToDate;
    var m := VoteReq(c, v, BallotRequest(s.peers[c]));
    r', s' := Take(from, r, s, AdoptTerm(m));
    assert Grants(s'.peers[v], m.vargs);
    r', s' := Take(from, r', s', ReceiveVote(m));
    assert s'.peers[v] == Voted(s.peers[v], s.peers[c].currentTerm, c);
  }

  lemma Counts(from: System, r: Run, s: System, p: Peer, v: nat) returns (r': Run, s': System)
    requires Path(from, r, s) && Small(s) && p.me < s.n && v < s.n && p.me != v && p.n == s.n && |p.log| >= 1
    requires s.peers[p.me] == StartElection(p)
    requires VoteRep(p.me, v, BallotRequest(s.peers[p.me]), VoteReply(p.currentTerm + 1, true)) in s.net
    ensures Path(from, r', s') && Begins(r, r') && s'.n == s.n && s'.net == s.net
    ensures s'.peers == s.peers[p.me := Elected(p, v)]
  {
    hide Path;
    assert IsOther(s.n, p.me, v);
    r', s' := Take(from, r, s, ReturnVote(VoteRep(p.me, v, BallotRequest(s.peers[p.me]), VoteReply(p.currentTerm + 1, true))));
    assert {} + {v} == {v};
  }

  /** Candidate `c` wins with the vote of `v`, which is not ahead of it. */
  lemma Elects(from: System, r: Run, s: System, c: nat, v: nat) returns (r': Run, s': System)
    requires Path(from, r, s) && Small(s) && c < s.n && v < s.n && c != v
    requires s.peers[v].currentTerm <= s.peers[c].currentTerm
    requires UpToDate(|s.peers[c].log| - 1, LastTerm(s.peers[c].log), s.peers[v].log)
    ensures Path(from, r', s') && Begins(r, r') && Small(s') && s'.n == s.n && OnlyVotes(s.net, s'.net)
    ensures s'.peers == s.peers[c := Elected(s.peers[c], v)][v := Voted(s.peers[v], s.peers[c].currentTerm + 1, c)]
  {
    hide Path, UpToDate;
    var r1, s1 := Asks(from, r, s, c, v);
    var r2, s2 := Answers(from, r1, s1, c, v);
    r', s' := Counts(from, r2, s2, s.peers[c], v);
  }

  // ---------------------------------------------------------------- a request and its answer

  /** Goroutine `bid` of leader `l` sends its request to `v`, which is in the same term and answers. */
  lemma Exchanges(from: System, r: Run, s: System, l: nat, bid: nat, v: nat) returns (r': Run, s': System)
    requires Path(from, r, s) && Small(s) && l < s.n && v < s.n && l != v
    requires s.peers[l].role == Leader && bid < |s.peers[l].broadcasts|
    requires var b := s.peers[l].broadcasts[bid];
      && b.term == s.peers[l].currentTerm == s.peers[v].currentTerm && v !in b.calls && v !in b.acked
      && SendInBounds(s.peers[l], b, v)
    ensures Path(from, r', s') && Begins(r, r') && |r'.steps| == |r.steps| + 2 && s'.n == s.n
    ensures r'.states == r.states + [r'.states[|r.steps| + 1], s']
    ensures r'.states[|r.steps| + 1].peers == s.peers[l := Send(s.peers[l], bid, v)]
    ensures var a := Request(s.peers[l], s.peers[l].broadcasts[bid], v);
      var (q, reply) := HandleAppend(s.peers[v], a);
      && s'.peers == s.peers[l := Send(s.peers[l], bid, v)][v := q]
      && s'.net == s.net + {AppendReq(l, v, bid, a), AppendRep(l, v, bid, a, reply)}
  {
    hide Path, HandleAppend, SendInBounds, Request;
    assert IsOther(s.n, l, v);
    var a := Request(s.peers[l], s.peers[l].broadcasts[bid], v);
    var r1, s1 := Take(from, r, s, Issue(l, bid, v));
    assert RequestTerm(AppendReq(l, v, bid, a)) == s.peers[v].currentTerm by { RequestHasTerm(s.peers[l], bid, v); }
    r', s' := Take(from, r1, s1, ReceiveAppend(AppendReq(l, v, bid, a)));
    assert r'.states[|r.steps| + 1] == s1;
  }

  lemma RequestHasTerm(p: Peer, bid: nat, v: nat)
    requires bid < |p.broadcasts| && SendInBounds(p, p.broadcasts[bid], v)
    ensures Request(p, p.broadcasts[bid], v).term == p.broadcasts[bid].term
  {
  }
}
