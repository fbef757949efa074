/** Nothing that has happened can stop a majority: from every state of every run, any servers that are
    more than half can still elect a leader, and commit and apply a new command on all of them. */
module Progress {
  import opened Logs
  import opened Consensus
  import opened Node
  import opened Cluster
  import opened Invariants
  import opened Refinement
  import opened Theorems
  import opened Reigns
  import opened Answers
  import opened Paths

  // ---------------------------------------------------------------- going on from a state of a run

  /** Run `r` of `n` servers has arrived in state `s`. */
  ghost predicate At(n: nat, r: Run, s: System) {
    IsRun(n, r) && |r.states| == |r.steps| + 1 && r.states[|r.steps|] == s
  }

  /** Only peers in `x` have changed. */
  ghost predicate LeavesAlone(s: System, s': System, x: set<nat>) {
    |s'.peers| == |s.peers| && forall i :: 0 <= i < |s.peers| && i !in x ==> s'.peers[i] == s.peers[i]
  }

  lemma Go(n: nat, r: Run, s: System, step: Step) returns (r': Run, s': System)
    requires At(n, r, s) && Enabled(s, step)
    ensures At(n, r', s') && Begins(r, r') && InBounds(s, step) && s' == Do(s, step)
    ensures r'.steps == r.steps + [step] && r'.states == r.states + [s']
  {
    hide Enabled, InBounds, Do;
    NoPanic(n, r, |r.steps|, step);
    assert Path(Init(n), r, s);
    r', s' := Take(Init(n), r, s, step);
  }

  /** What every peer of a run knows about itself. */
  lemma Known(n: nat, r: Run, s: System)
    requires At(n, r, s)
    ensures |s.peers| == n == s.n
    ensures forall i :: 0 <= i < n ==> s.peers[i].me == i && s.peers[i].n == n && |s.peers[i].log| >= 1
  {
    hide IsRun, SystemOk, Inv, PeerOk;
    ClusterSize(n, r, |r.steps|);
    var h := Record(n, r, |r.steps|);
    SystemWellFormed(s, h);
    forall i | 0 <= i < n
      ensures s.peers[i].me == i && s.peers[i].n == n && |s.peers[i].log| >= 1
    {
      PeerAt(s, h, i);
      PeerMirrors(h, s.peers[i]);
    }
  }

  lemma BeginsLonger(a: Run, b: Run, c: Run)
    requires Begins(a, b) && Begins(b, c)
    ensures Begins(a, c)
  {
  }

  // ---------------------------------------------------------------- electing

  /** Server `c` campaigns in term `t` with this log, or has already won. */
  ghost predicate Campaigns(s: System, c: nat, t: nat, log: Log) {
    && c < |s.peers| && s.peers[c].currentTerm == t && s.peers[c].log == log && |log| >= 1 && s.peers[c].election.term == t
    && (s.peers[c].role == Leader
        || (s.peers[c].role == Candidate && s.peers[c].election.nVotes < Majority(s.n)))
  }

  function Claim(c: nat, t: nat, log: Log): VoteArgs
    requires |log| >= 1
  {
    VoteArgs(t, c, |log| - 1, LastTerm(log))
  }

  /** A server can start an election in a term beyond any given one. */
  lemma {:induction false} Outgrows(n: nat, r: Run, s: System, c: nat, t: nat) returns (r': Run, s': System)
    requires At(n, r, s) && c < n && n >= 2
    ensures At(n, r', s') && Begins(r, r') && |s.peers| == n && LeavesAlone(s, s', {c})
    ensures c < |s'.peers| && s'.peers[c].currentTerm > t && Campaigns(s', c, s'.peers[c].currentTerm, s.peers[c].log)
    ensures s'.peers[c].election == Election(s'.peers[c].currentTerm, 1, Others(n, c), {})
    ensures forall j :: 0 <= j < n && j != c ==> VoteReq(c, j, Claim(c, s'.peers[c].currentTerm, s.peers[c].log)) in s'.net
    decreases if c < |s.peers| && s.peers[c].currentTerm <= t then t - s.peers[c].currentTerm + 1 else 0
  {
    hide At, IsRun;
    Known(n, r, s);
    r', s' := Go(n, r, s, Timeout(c));
    if s'.peers[c].currentTerm <= t {
      var r1, s1 := r', s';
      r', s' := Outgrows(n, r1, s1, c, t);
    } else {
      forall j | 0 <= j < n && j != c
        ensures VoteReq(c, j, Claim(c, s'.peers[c].currentTerm, s.peers[c].log)) in s'.net
      {
        assert IsOther(n, c, j);
        assert VoteReq(c, j, BallotRequest(s'.peers[c])) in Ballots(s'.peers[c]);
      }
    }
  }

  /** A server that is behind and not ahead gives its vote. */
  lemma OneVotes(n: nat, r: Run, s: System, c: nat, v: nat, t: nat, log: Log) returns (r': Run, s': System)
    requires At(n, r, s) && Campaigns(s, c, t, log) && v < n && v != c && v in s.peers[c].election.waiting
    requires |s.peers| == n && s.peers[v].currentTerm < t && |s.peers[v].log| >= 1 && UpToDate(|log| - 1, LastTerm(log), s.peers[v].log)
    requires VoteReq(c, v, Claim(c, t, log)) in s.net
    ensures At(n, r', s') && Begins(r, r') && Campaigns(s', c, t, log) && s.net <= s'.net && LeavesAlone(s, s', {c, v})
    ensures s'.peers[v].currentTerm == t && s'.peers[v].log == s.peers[v].log
    ensures s'.peers[c].election.waiting == s.peers[c].election.waiting - {v}
    ensures s'.peers[c].election.nVotes == s.peers[c].election.nVotes + 1
  {
    hide At, IsRun, UpToDate;
    Known(n, r, s);
    var m := VoteReq(c, v, Claim(c, t, log));
    var r1, s1 := Go(n, r, s, AdoptTerm(m));
    assert Grants(s1.peers[v], m.vargs);
    var r2, s2 := Go(n, r1, s1, ReceiveVote(m));
    r', s' := Go(n, r2, s2, ReturnVote(VoteRep(c, v, Claim(c, t, log), VoteReply(t, true))));
    BeginsLonger(r, r1, r2);
    BeginsLonger(r, r2, r');
  }

  /** Server `v` can still vote for `c` in term `t`. */
  ghost predicate MayVote(s: System, c: nat, v: nat, t: nat, log: Log) {
    && c < |s.peers| && v < |s.peers| && v != c && v in s.peers[c].election.waiting && |log| >= 1
    && s.peers[v].currentTerm < t && |s.peers[v].log| >= 1 && UpToDate(|log| - 1, LastTerm(log), s.peers[v].log)
    && VoteReq(c, v, Claim(c, t, log)) in s.net
  }

  lemma StillMayVote(s: System, s1: System, c: nat, v: nat, w: nat, t: nat, log: Log)
    requires MayVote(s, c, w, t, log) && w != v && LeavesAlone(s, s1, {c, v}) && s.net <= s1.net
    requires c < |s1.peers| && s1.peers[c].election.waiting == s.peers[c].election.waiting - {v}
    ensures MayVote(s1, c, w, t, log)
  {
    hide UpToDate;
  }

  lemma AloneLonger(s: System, s1: System, s2: System, x: set<nat>, y: set<nat>, z: set<nat>)
    requires LeavesAlone(s, s1, x) && LeavesAlone(s1, s2, y) && x <= z && y <= z
    ensures LeavesAlone(s, s2, z)
  {
  }

  lemma AloneAt(s: System, s1: System, x: set<nat>, i: nat)
    requires LeavesAlone(s, s1, x) && i < |s.peers| && i !in x
    ensures i < |s1.peers| && s1.peers[i] == s.peers[i]
  {
  }

  /** All of them can, one after the other. */
  lemma {:induction false} AllVote(n: nat, r: Run, s: System, c: nat, vs: set<nat>, t: nat, log: Log) returns (r': Run, s': System)
    requires At(n, r, s) && Campaigns(s, c, t, log) && |s.peers| == n && forall v :: v in vs ==> MayVote(s, c, v, t, log)
    ensures At(n, r', s') && Begins(r, r') && Campaigns(s', c, t, log) && LeavesAlone(s, s', vs + {c})
    ensures |s'.peers| == n && forall v :: v in vs ==> v < n && s'.peers[v].currentTerm == t
    ensures c < n && s'.peers[c].election.nVotes == s.peers[c].election.nVotes + |vs|
    decreases vs
  {
    if vs == {} {
      r', s' := r, s;
    } else {
      var v :| v in vs;
      var rest := vs - {v};
      assert MayVote(s, c, v, t, log);
      var r1, s1 := OneVotes(n, r, s, c, v, t, log);
      hide At, IsRun, MayVote, Campaigns, Begins;
      forall w | w in rest
        ensures MayVote(s1, c, w, t, log)
      {
        assert MayVote(s, c, w, t, log);
        StillMayVote(s, s1, c, v, w, t, log);
      }
      r', s' := AllVote(n, r1, s1, c, rest, t, log);
      BeginsLonger(r, r1, r');
      AloneLonger(s, s1, s', {c, v}, rest + {c}, vs + {c});
      AloneAt(s1, s', rest + {c}, v);
    }
  }

  /** No member of `q` has a log ahead of that of `c`. */
  ghost predicate Best(s: System, q: set<nat>, c: nat) {
    && c < |s.peers| && |s.peers[c].log| >= 1
    && forall v :: v in q ==> v < |s.peers| && |s.peers[v].log| >= 1
                              && UpToDate(|s.peers[c].log| - 1, LastTerm(s.peers[c].log), s.peers[v].log)
  }

  lemma {:induction false} SomeoneIsBest(s: System, q: set<nat>) returns (c: nat)
    requires q != {} && forall v :: v in q ==> v < |s.peers| && |s.peers[v].log| >= 1
    ensures c in q && Best(s, q, c)
  {
    var v :| v in q;
    var rest := q - {v};
    c := v;
    if rest != {} {
      var d := SomeoneIsBest(s, rest);
      OneNotBehind(s.peers[v].log, s.peers[d].log);
      if UpToDate(|s.peers[d].log| - 1, LastTerm(s.peers[d].log), s.peers[v].log) {
        c := d;
      }
    }
  }

  /** More terms than anybody in the cluster has seen. */
  lemma {:induction false} SomeTerm(s: System, k: nat) returns (t: nat)
    requires k <= |s.peers|
    ensures forall i :: 0 <= i < k ==> s.peers[i].currentTerm <= t
  {
    t := 0;
    if k > 0 {
      t := SomeTerm(s, k - 1);
      if t < s.peers[k - 1].currentTerm {
        t := s.peers[k - 1].currentTerm;
      }
    }
  }

  /** Any majority can elect a leader: the member with the best log. */
  lemma CanElect(n: nat, r: Run, s: System, q: set<nat>) returns (r': Run, s': System, c: nat, t: nat)
    requires At(n, r, s) && n >= 2 && 2 * |q| > n && forall v :: v in q ==> v < n
    ensures At(n, r', s') && Begins(r, r') && c in q && LeadsIn(s', c, t) && LeavesAlone(s, s', q)
    ensures |s'.peers| == n && forall v :: v in q ==> s'.peers[v].currentTerm == t
  {
    hide At, IsRun, UpToDate;
    Known(n, r, s);
    c := SomeoneIsBest(s, q);
    var top := SomeTerm(s, n);
    var log := s.peers[c].log;
    var r1, s1 := Outgrows(n, r, s, c, top);
    t := s1.peers[c].currentTerm;
    var vs := q - {c};
    forall v | v in vs
      ensures MayVote(s1, c, v, t, log)
    {
      assert IsOther(n, c, v);
    }
    r', s' := AllVote(n, r1, s1, c, vs, t, log);
    BeginsLonger(r, r1, r');
    AloneLonger(s, s1, s', {c}, vs + {c}, q);
    assert q == vs + {c};
    assert s'.peers[c].role == Leader by { Known(n, r', s'); }
  }

  // ---------------------------------------------------------------- replicating

  /** Server `l` leads term `t`, and goroutine `v` of its broadcast `bid` is about to send. */
  ghost predicate Sending(s: System, l: nat, t: nat, bid: nat, v: nat) {
    && LeadsIn(s, l, t) && bid < |s.peers[l].broadcasts| && s.peers[l].broadcasts[bid].term == t
    && v < |s.peers| && v != l && s.peers[v].currentTerm == t
    && v !in s.peers[l].broadcasts[bid].calls && v !in s.peers[l].broadcasts[bid].acked
  }

  /** The leader still leads, with the same log and broadcasts, except that broadcast `bid` has counted
      the servers in `more`. */
  ghost predicate StillLeads(s: System, s': System, l: nat, t: nat, bid: nat, more: set<nat>) {
    && LeadsIn(s, l, t) && LeadsIn(s', l, t) && s'.peers[l].log == s.peers[l].log
    && bid < |s.peers[l].broadcasts| == |s'.peers[l].broadcasts|
    && var b, b' := s.peers[l].broadcasts[bid], s'.peers[l].broadcasts[bid];
       b'.term == b.term && b'.index == b.index && b'.calls == b.calls && b'.acked == b.acked + more
  }

  /** One request is sent and answered. */
  lemma Asked(n: nat, r: Run, s: System, l: nat, t: nat, bid: nat, v: nat) returns (r': Run, s': System, m: Message, reply: AppendReply)
    requires At(n, r, s) && Sending(s, l, t, bid, v)
    ensures At(n, r', s') && Begins(r, r') && |r'.steps| == |r.steps| + 2 && |s.peers| == n && LeavesAlone(s, s', {l, v})
    ensures r'.steps[|r.steps| + 1] == ReceiveAppend(m) && m.AppendReq? && m.src == l && m.dst == v && m.bid == bid && m.args.term == t
    ensures v < |s.peers[l].nextIndex| && m.args.prevLogIndex + 1 == s.peers[l].nextIndex[v]
    ensures reply == HandleAppend(s.peers[v], m.args).1 && s'.peers[v] == HandleAppend(s.peers[v], m.args).0
    ensures AppendRep(l, v, bid, m.args, reply) in s'.net
    ensures var p, q := s.peers[l], s'.peers[l];
      q == p.(broadcasts := p.broadcasts[bid := p.broadcasts[bid].(calls := p.broadcasts[bid].calls[v := m.args])])
    ensures |r'.states| == |r.steps| + 3 && |r'.states[|r.steps| + 1].peers| == n && r'.states[|r.steps| + 1].peers[v] == s.peers[v]
  {
    hide At, IsRun, HandleAppend;
    Known(n, r, s);
    assert IsOther(n, l, v);
    var r1, s1 := Go(n, r, s, Issue(l, bid, v));
    var a := Request(s.peers[l], s.peers[l].broadcasts[bid], v);
    m := AppendReq(l, v, bid, a);
    r', s' := Go(n, r1, s1, ReceiveAppend(m));
    reply := HandleAppend(s.peers[v], a).1;
    BeginsLonger(r, r1, r');
    assert |r.states| == |r.steps| + 1 by { Arrived(n, r, s); }
  }

  lemma Arrived(n: nat, r: Run, s: System)
    requires At(n, r, s)
    ensures |r.states| == |r.steps| + 1 && r.states[|r.steps|] == s && IsRun(n, r)
  {
  }

  /** The answer is counted, or moves nextIndex back. */
  lemma Exchange(n: nat, r: Run, s: System, l: nat, t: nat, bid: nat, v: nat) returns (r': Run, s': System, m: Message, ok: bool)
    requires At(n, r, s) && Sending(s, l, t, bid, v)
    ensures At(n, r', s') && Begins(r, r') && |s.peers| == n && LeavesAlone(s, s', {l, v}) && s'.peers[v].currentTerm == t
    ensures StillLeads(s, s', l, t, bid, if ok then {v} else {})
    ensures v < |s.peers[l].nextIndex| && v < |s'.peers[l].nextIndex|
    ensures !ok ==> s'.peers[l].nextIndex[v] < s.peers[l].nextIndex[v]
    ensures ok ==> m.AppendReq? && m.src == l && m.dst == v && m.bid == bid && m.args.term == t
    ensures ok ==> Accepts(r', |r.steps| + 1, m) && r'.states[|r.steps| + 2].peers[v] == s'.peers[v]
  {
    hide At, IsRun;
    var r2, s2, reply;
    r2, s2, m, reply := Asked(n, r, s, l, t, bid, v);
    ok := reply.success;
    var back := AppendRep(l, v, bid, m.args, reply);
    r', s' := Go(n, r2, s2, ReturnAppend(back));
    BeginsLonger(r, r2, r');
    Arrived(n, r', s');
    Arrived(n, r2, s2);
    assert r'.states[|r.steps| + 2] == s2 && r'.states[|r.steps| + 3] == s';
    if ok {
      Counted(s.peers[l], s2.peers[l], bid, v, m.args, reply);
    } else {
      hide Do;
      RejectionMovesBack(n, r', |r.steps| + 2, back);
      MovedBack(s.peers[l], s2.peers[l], bid, v, m.args, reply);
    }
  }

  lemma Counted(p: Peer, q: Peer, bid: nat, v: nat, a: AppendArgs, reply: AppendReply)
    requires bid < |p.broadcasts| && v !in p.broadcasts[bid].calls
    requires q == p.(broadcasts := p.broadcasts[bid := p.broadcasts[bid].(calls := p.broadcasts[bid].calls[v := a])])
    requires q.currentTerm == a.term && reply.success && ReturnInBounds(q, bid, v, a, reply)
    ensures var w := AppendReturn(q, bid, v, a, reply);
      && w.role == p.role && w.currentTerm == p.currentTerm && w.log == p.log && |w.broadcasts| == |p.broadcasts|
      && |w.nextIndex| == |p.nextIndex|
      && var b, b' := p.broadcasts[bid], w.broadcasts[bid];
         b'.term == b.term && b'.index == b.index && b'.calls == b.calls && b'.acked == b.acked + {v}
  {
  }

  lemma MovedBack(p: Peer, q: Peer, bid: nat, v: nat, a: AppendArgs, reply: AppendReply)
    requires bid < |p.broadcasts| && v !in p.broadcasts[bid].calls
    requires q == p.(broadcasts := p.broadcasts[bid := p.broadcasts[bid].(calls := p.broadcasts[bid].calls[v := a])])
    requires q.currentTerm == a.term && !reply.success && reply.term <= a.term && ReturnInBounds(q, bid, v, a, reply)
    ensures var w := AppendReturn(q, bid, v, a, reply);
      && w.role == p.role && w.currentTerm == p.currentTerm && w.log == p.log && |w.broadcasts| == |p.broadcasts|
      && var b, b' := p.broadcasts[bid], w.broadcasts[bid];
         b'.term == b.term && b'.index == b.index && b'.calls == b.calls && b'.acked == b.acked
  {
    hide GetNextIndex;
  }

  /** Broadcast `bid` did not exist yet at moment `b`, when its leader had committed `k`. */
  ghost predicate Later(r: Run, b: nat, l: nat, t: nat, bid: nat, k: nat) {
    b < |r.states| && LeadsIn(r.states[b], l, t) && |r.states[b].peers[l].broadcasts| <= bid && k <= r.states[b].peers[l].commitIndex
  }

  lemma LaterBegins(r: Run, r': Run, b: nat, l: nat, t: nat, bid: nat, k: nat)
    requires Later(r, b, l, t, bid, k) && Begins(r, r')
    ensures Later(r', b, l, t, bid, k)
  {
  }

  ghost function NextOrZero(s: System, l: nat, v: nat): nat {
    if l < |s.peers| && v < |s.peers[l].nextIndex| then s.peers[l].nextIndex[v] else 0
  }

  lemma StillLeadsLonger(s: System, s1: System, s2: System, l: nat, t: nat, bid: nat, x: set<nat>, y: set<nat>)
    requires StillLeads(s, s1, l, t, bid, x) && StillLeads(s1, s2, l, t, bid, y)
    ensures StillLeads(s, s2, l, t, bid, x + y)
  {
  }

  lemma SendsAgain(s: System, s1: System, l: nat, t: nat, bid: nat, v: nat)
    requires Sending(s, l, t, bid, v) && StillLeads(s, s1, l, t, bid, {}) && |s1.peers| == |s.peers| && s1.peers[v].currentTerm == t
    ensures Sending(s1, l, t, bid, v)
  {
  }

  /** Asking again after each rejection, a leader gets its broadcast accepted by any server of its term,
      which then has committed all that the leader had when it created the broadcast. */
  lemma {:induction false} Convinces(n: nat, r: Run, s: System, l: nat, t: nat, bid: nat, v: nat, b: nat, k: nat)
    returns (r': Run, s': System)
    requires At(n, r, s) && Sending(s, l, t, bid, v) && Later(r, b, l, t, bid, k)
    ensures At(n, r', s') && Begins(r, r') && |s.peers| == n && LeavesAlone(s, s', {l, v})
    ensures StillLeads(s, s', l, t, bid, {v}) && s'.peers[v].currentTerm == t && k <= s'.peers[v].commitIndex
    decreases NextOrZero(s, l, v)
  {
    hide At, IsRun, Later, StillLeads, Accepts, Begins;
    var r1, s1, m, ok := Exchange(n, r, s, l, t, bid, v);
    LaterBegins(r, r1, b, l, t, bid, k);
    if ok {
      r', s' := r1, s1;
      SpreadsTo(n, r', s', |r.steps| + 1, m, b, k);
    } else {
      SendsAgain(s, s1, l, t, bid, v);
      assert NextOrZero(s1, l, v) < NextOrZero(s, l, v) by { StillThere(s, s1, l, t, bid, {}); }
      r', s' := Convinces(n, r1, s1, l, t, bid, v, b, k);
      BeginsLonger(r, r1, r');
      AloneLonger(s, s1, s', {l, v}, {l, v}, {l, v});
      StillLeadsLonger(s, s1, s', l, t, bid, {}, {v});
      assert {} + {v} == {v};
    }
  }

  lemma StillThere(s: System, s': System, l: nat, t: nat, bid: nat, more: set<nat>)
    requires StillLeads(s, s', l, t, bid, more)
    ensures l < |s.peers| && l < |s'.peers|
  {
  }

  lemma SpreadsTo(n: nat, r: Run, s: System, a: nat, m: Message, b: nat, k: nat)
    requires At(n, r, s) && Accepts(r, a, m) && m.dst < |s.peers| && r.states[a + 1].peers[m.dst] == s.peers[m.dst]
    requires Later(r, b, m.src, m.args.term, m.bid, k)
    ensures k <= s.peers[m.dst].commitIndex
  {
    hide IsRun;
    CommitSpreads(n, r, b, a, m);
  }

  /** So it does with any number of servers. */
  lemma {:induction false} ConvincesAll(n: nat, r: Run, s: System, l: nat, t: nat, bid: nat, vs: set<nat>, b: nat, k: nat)
    returns (r': Run, s': System)
    requires At(n, r, s) && Later(r, b, l, t, bid, k) && LeadsIn(s, l, t) && bid < |s.peers[l].broadcasts|
    requires forall v :: v in vs ==> Sending(s, l, t, bid, v)
    ensures At(n, r', s') && Begins(r, r') && LeavesAlone(s, s', vs + {l}) && StillLeads(s, s', l, t, bid, vs)
    ensures forall v :: v in vs ==> v < |s'.peers| && s'.peers[v].currentTerm == t && k <= s'.peers[v].commitIndex
    decreases vs
  {
    if vs == {} {
      r', s' := r, s;
    } else {
      hide At, IsRun, Later, StillLeads, Begins, Sending;
      var v :| v in vs;
      var rest := vs - {v};
      var r1, s1 := Convinces(n, r, s, l, t, bid, v, b, k);
      LaterBegins(r, r1, b, l, t, bid, k);
      forall w | w in rest
        ensures Sending(s1, l, t, bid, w)
      {
        OthersSend(s, s1, l, t, bid, v, w);
      }
      assert LeadsIn(s1, l, t) && bid < |s1.peers[l].broadcasts| by { Leading(s, s1, l, t, bid, {v}); }
      r', s' := ConvincesAll(n, r1, s1, l, t, bid, rest, b, k);
      BeginsLonger(r, r1, r');
      AloneLonger(s, s1, s', {l, v}, rest + {l}, vs + {l});
      assert v < |s.peers| && v != l by { Receiver(s, l, t, bid, v); }
      AloneAt(s1, s', rest + {l}, v);
      StillLeadsLonger(s, s1, s', l, t, bid, {v}, rest);
      assert vs == {v} + rest;
    }
  }

  lemma Receiver(s: System, l: nat, t: nat, bid: nat, v: nat)
    requires Sending(s, l, t, bid, v)
    ensures v < |s.peers| && v != l
  {
  }

  lemma Leading(s: System, s': System, l: nat, t: nat, bid: nat, more: set<nat>)
    requires StillLeads(s, s', l, t, bid, more)
    ensures LeadsIn(s', l, t) && bid < |s'.peers[l].broadcasts|
  {
  }

  lemma OthersSend(s: System, s1: System, l: nat, t: nat, bid: nat, v: nat, w: nat)
    requires Sending(s, l, t, bid, w) && w != v && StillLeads(s, s1, l, t, bid, {v}) && LeavesAlone(s, s1, {l, v})
    ensures Sending(s1, l, t, bid, w)
  {
  }

  // ---------------------------------------------------------------- applying

  /** Peer `i` has applied up to `k`, and is otherwise as before; so are all others. */
  ghost predicate AppliedTo(s: System, s': System, i: nat, k: nat) {
    && LeavesAlone(s, s', {i}) && i < |s.peers| && i < |s'.peers| && s'.peers[i].lastApplied == k
    && s'.peers[i].log == s.peers[i].log && s'.peers[i].commitIndex == s.peers[i].commitIndex
  }

  lemma {:induction false} Drains(n: nat, r: Run, s: System, i: nat) returns (r': Run, s': System)
    requires At(n, r, s) && i < |s.peers| && s.peers[i].lastApplied <= s.peers[i].applyTo
    ensures At(n, r', s') && Begins(r, r') && AppliedTo(s, s', i, s.peers[i].applyTo) && s'.peers[i].applyTo == s.peers[i].applyTo
    decreases if i < |s.peers| then s.peers[i].applyTo - s.peers[i].lastApplied else 0
  {
    hide At, IsRun;
    if s.peers[i].lastApplied == s.peers[i].applyTo {
      r', s' := r, s;
    } else {
      var r1, s1 := Go(n, r, s, Deliver(i));
      r', s' := Drains(n, r1, s1, i);
      BeginsLonger(r, r1, r');
    }
  }

  lemma ApplyOrder(n: nat, r: Run, s: System, i: nat)
    requires At(n, r, s) && i < |s.peers|
    ensures s.peers[i].lastApplied <= s.peers[i].applyTo <= s.peers[i].commitIndex
  {
    hide IsRun, SystemOk, Inv, PeerOk, CommitBacked, Backed, LeaderLogsOk;
    var h := Record(n, r, |r.steps|);
    PeerAt(s, h, i);
    PeerMirrors(h, s.peers[i]);
  }

  /** A peer can apply everything it has committed. */
  lemma CatchesUp(n: nat, r: Run, s: System, i: nat) returns (r': Run, s': System)
    requires At(n, r, s) && i < |s.peers|
    ensures At(n, r', s') && Begins(r, r') && AppliedTo(s, s', i, s.peers[i].commitIndex)
  {
    hide At, IsRun;
    ApplyOrder(n, r, s, i);
    var r1, s1 := Drains(n, r, s, i);
    var r2, s2 := Go(n, r1, s1, Collect(i));
    r', s' := Drains(n, r2, s2, i);
    BeginsLonger(r, r1, r2);
    BeginsLonger(r, r2, r');
  }

  ghost predicate Applied(s: System, i: nat, k: nat) {
    i < |s.peers| && k <= s.peers[i].commitIndex && s.peers[i].lastApplied == s.peers[i].commitIndex
  }

  ghost predicate SameLogs(s: System, s': System) {
    |s'.peers| == |s.peers| && forall i :: 0 <= i < |s.peers| ==>
      s'.peers[i].log == s.peers[i].log && s'.peers[i].commitIndex == s.peers[i].commitIndex
  }

  lemma {:induction false} AllCatchUp(n: nat, r: Run, s: System, q: set<nat>, k: nat) returns (r': Run, s': System)
    requires At(n, r, s) && forall i :: i in q ==> i < |s.peers| && k <= s.peers[i].commitIndex
    ensures At(n, r', s') && Begins(r, r') && SameLogs(s, s') && LeavesAlone(s, s', q)
    ensures forall i :: i in q ==> Applied(s', i, k)
    decreases q
  {
    if q == {} {
      r', s' := r, s;
    } else {
      hide At, IsRun, Begins;
      var i :| i in q;
      var r1, s1 := CatchesUp(n, r, s, i);
      r', s' := AllCatchUp(n, r1, s1, q - {i}, k);
      BeginsLonger(r, r1, r');
    }
  }

  // ---------------------------------------------------------------- all together

  /** The leader takes a command or sends a heartbeat; the broadcast is ready for all servers of `q`. */
  lemma Announces(n: nat, r: Run, s: System, c: nat, t: nat, q: set<nat>, step: Step) returns (r': Run, s': System, bid: nat)
    requires At(n, r, s) && LeadsIn(s, c, t) && |s.peers| == n && forall v :: v in q ==> v < n && v != c && s.peers[v].currentTerm == t
    requires step == Beat(c) || (step.Submit? && step.i == c)
    ensures At(n, r', s') && Begins(r, r') && LeavesAlone(s, s', {c}) && LeadsIn(s', c, t) && bid < |s'.peers[c].broadcasts|
    ensures Later(r', |r.steps|, c, t, bid, s.peers[c].commitIndex)
    ensures s'.peers[c].broadcasts[bid].term == t && s'.peers[c].broadcasts[bid].acked == {}
    ensures s'.peers[c].log == if step.Submit? then s.peers[c].log + [Entry(step.command, t)] else s.peers[c].log
    ensures s'.peers[c].broadcasts[bid].index == |s'.peers[c].log| - 1
    ensures forall v :: v in q ==> Sending(s', c, t, bid, v)
  {
    hide IsRun;
    Known(n, r, s);
    r', s' := Go(n, r, s, step);
    bid := |s.peers[c].broadcasts|;
  }

  /** A majority in the leader's term commits a new command. */
  lemma CanCommit(n: nat, r: Run, s: System, c: nat, t: nat, q: set<nat>, command: Command) returns (r': Run, s': System, k: nat)
    requires At(n, r, s) && n >= 2 && LeadsIn(s, c, t) && |s.peers| == n && c in q && 2 * |q| > n
    requires forall v :: v in q ==> v < n && s.peers[v].currentTerm == t
    ensures At(n, r', s') && Begins(r, r') && LeadsIn(s', c, t) && |s'.peers| == n && LeavesAlone(s, s', q)
    ensures forall v :: v in q ==> v < n && s'.peers[v].currentTerm == t
    ensures 1 <= k <= s'.peers[c].commitIndex && k < |s'.peers[c].log| && s'.peers[c].log[k] == Entry(command, t)
  {
    hide At, IsRun, Begins, Later, Sending, LeavesAlone;
    assert |s.peers[c].log| >= 1 by { Known(n, r, s); }
    var vs := q - {c};
    k := |s.peers[c].log|;
    var r1, s1, bid := Announces(n, r, s, c, t, vs, Submit(c, command));
    r', s' := ConvincesAll(n, r1, s1, c, t, bid, vs, |r.steps|, s.peers[c].commitIndex);
    BeginsLonger(r, r1, r');
    AloneLonger(s, s1, s', {c}, vs + {c}, q);
    assert |s'.peers| == n by { Known(n, r', s'); }
    assert vs + {c} == q && {} + vs == vs;
    assert |q| == |vs| + 1;
    NowCommitted(n, r', s', c, bid);
  }

  lemma NowCommitted(n: nat, r: Run, s: System, c: nat, bid: nat)
    requires At(n, r, s) && c < |s.peers| && bid < |s.peers[c].broadcasts| && s.peers[c].broadcasts[bid].acked != {}
    requires s.peers[c].broadcasts[bid].term == s.peers[c].currentTerm && 2 * |s.peers[c].broadcasts[bid].acked + {c}| > n
    requires Has(s.peers[c].log, s.peers[c].currentTerm, s.peers[c].broadcasts[bid].index)
    ensures s.peers[c].broadcasts[bid].index <= s.peers[c].commitIndex
  {
    hide IsRun;
    MajorityCommits(n, r, |r.steps|, c, bid);
  }

  /** And all of the majority learn of it. */
  lemma CanSpread(n: nat, r: Run, s: System, c: nat, t: nat, q: set<nat>, k: nat) returns (r': Run, s': System)
    requires At(n, r, s) && LeadsIn(s, c, t) && |s.peers| == n && c in q && k <= s.peers[c].commitIndex
    requires forall v :: v in q ==> v < n && s.peers[v].currentTerm == t
    ensures At(n, r', s') && Begins(r, r') && LeadsIn(s', c, t) && LeavesAlone(s, s', q)
    ensures |s'.peers| == n && s'.peers[c].log == s.peers[c].log
    ensures forall v :: v in q ==> v < n && k <= s'.peers[v].commitIndex
  {
    hide At, IsRun, Begins, Later, Sending;
    var vs := q - {c};
    var r1, s1, bid := Announces(n, r, s, c, t, vs, Beat(c));
    var r2, s2 := ConvincesAll(n, r1, s1, c, t, bid, vs, |r.steps|, s.peers[c].commitIndex);
    r', s' := r2, s2;
    BeginsLonger(r, r1, r');
    AloneLonger(s, s1, s', {c}, vs + {c}, q);
    LeaderKept(n, r, s, r', s', c, t);
  }

  lemma LeaderKept(n: nat, r: Run, s: System, r': Run, s': System, c: nat, t: nat)
    requires At(n, r, s) && At(n, r', s') && Begins(r, r') && LeadsIn(s, c, t) && LeadsIn(s', c, t)
    ensures s.peers[c].commitIndex <= s'.peers[c].commitIndex
  {
    hide IsRun;
    ReignGrows(n, r', |r.steps|, |r'.steps|, c, t);
  }

  /** Where everything committed is applied, an entry below the commit index is in the stream. */
  lemma InStream(n: nat, r: Run, s: System, c: nat, i: nat, k: nat, e: Entry)
    requires At(n, r, s) && c < |s.peers| && Applied(s, i, k) && 1 <= k <= s.peers[c].commitIndex
    requires k < |s.peers[c].log| && s.peers[c].log[k] == e
    ensures k <= |s.peers[i].stream| && s.peers[i].stream[k - 1] == ApplyMsg(k, e.command)
  {
    hide IsRun, Agree;
    AppliesInOrder(n, r, |r.steps|, i);
    CommittedAgree(n, r, |r.steps|, |r.steps|, c, i, k);
    AgreeAt(s.peers[c].log, s.peers[i].log, k);
  }

  /** Progress stays possible: whatever has happened in a run of two or more servers, whatever was lost
      and whoever has crashed, any servers that are more than half can, by themselves, go on to elect a
      leader among them and commit and apply any new command on all of them.  The others need not take
      part: they stay as they are. */
  lemma CanProgress(n: nat, r: Run, q: set<nat>, command: Command) returns (r': Run, k: nat)
    requires IsRun(n, r) && n >= 2 && 2 * |q| > n && forall v :: v in q ==> v < n
    ensures IsRun(n, r') && Begins(r, r') && |r'.states| == |r'.steps| + 1 && |r'.states[|r'.steps|].peers| == n
    ensures |r.states| == |r.steps| + 1 && LeavesAlone(r.states[|r.steps|], r'.states[|r'.steps|], q)
    ensures k >= 1 && forall i :: i in q ==>
              var p := r'.states[|r'.steps|].peers[i]; k <= |p.stream| && p.stream[k - 1] == ApplyMsg(k, command)
  {
    hide IsRun, Begins;
    RunLength(n, r);
    var s := r.states[|r.steps|];
    var r1, s1, c, t := CanElect(n, r, s, q);
    var r2, s2;
    r2, s2, k := CanCommit(n, r1, s1, c, t, q, command);
    var r3, s3 := CanSpread(n, r2, s2, c, t, q, k);
    var s4;
    r', s4 := AllCatchUp(n, r3, s3, q, k);
    BeginsLonger(r, r1, r2);
    BeginsLonger(r, r2, r3);
    BeginsLonger(r, r3, r');
    AloneLonger(s, s1, s2, q, q, q);
    AloneLonger(s, s2, s3, q, q, q);
    AloneLonger(s, s3, s4, q, q, q);
    forall i | i in q
      ensures i < n && k <= |s4.peers[i].stream| && s4.peers[i].stream[k - 1] == ApplyMsg(k, command)
    {
      InStream(n, r', s4, c, i, k, Entry(command, t));
    }
  }
}
