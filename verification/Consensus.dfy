/** The election and replication history of a cluster, and why it is safe.

  A `History` records, besides each server's current term and log, every ballot cast, the leader and
  the log of every term that has had one, how far each server acknowledged each leader's log, and
  which entries a leader declared committed.  Six transitions describe everything a cluster does to
  such a record.  Each preserves `Inv`; the invariant that carries leader completeness is `Settled`.

  The history only observes: no step of the cluster (module Cluster) reads it.
 */
module Consensus {
  import opened Logs

  /** A server in a term. */
  datatype Slot = Slot(server: nat, term: nat)

  /** A log position, named by the term of its entry. */
  datatype Mark = Mark(term: nat, index: nat)

  /** A vote, with the candidate's claim about the end of its log and the voter's log at the time. */
  datatype Ballot = Ballot(candidate: nat, lastIndex: nat, lastTerm: nat, log: Log)

  datatype History = History(
    n: nat,
    term: seq<nat>,                  // current term, by server
    log: seq<Log>,                   // current log, by server
    voted: map<Slot, Ballot>,  // by voter and term
    leader: map<nat, nat>,           // by term
    glog: LeaderLogs,                // log of the leader of each term
    ack: map<Slot, nat>,       // by server and term: highest index acknowledged
    chosen: set<Mark>)         // entries declared committed

  function Majority(n: nat): nat { n / 2 + 1 }

  ghost predicate Acked(h: History, v: nat, t: nat, k: nat) {
    Slot(v, t) in h.ack && k <= h.ack[Slot(v, t)]
  }

  ghost function Ackers(h: History, t: nat, k: nat): set<nat> {
    set v: nat | v < h.n && Acked(h, v, t, k)
  }

  /** The servers that acknowledged entry (t, k), or may still do so. */
  ghost function Potential(h: History, t: nat, k: nat): set<nat>
    requires |h.term| == h.n
  {
    set v: nat | v < h.n && (Acked(h, v, t, k) || h.term[v] <= t)
  }

  /** Entry (t, k) has a majority behind it or may still get one.  Once false, false forever. */
  ghost predicate Choosable(h: History, t: nat, k: nat)
    requires |h.term| == h.n
  {
    |Potential(h, t, k)| >= Majority(h.n)
  }

  ghost function Voters(h: History, t: nat, candidate: nat): set<nat> {
    set v: nat | v < h.n && Slot(v, t) in h.voted && h.voted[Slot(v, t)].candidate == candidate
  }

  // ---------------------------------------------------------------- invariant

  ghost predicate Sizes(h: History) {
    |h.term| == h.n && |h.log| == h.n && h.leader.Keys == h.glog.Keys
  }

  ghost predicate VotesOk(h: History)
    requires Sizes(h)
  {
    forall key :: key in h.voted ==> key.server < h.n && key.term <= h.term[key.server]
  }

  ghost predicate AcksOk(h: History)
    requires Sizes(h)
  {
    forall key :: key in h.ack ==>
      && key.server < h.n && key.term in h.glog && key.term <= h.term[key.server]
      && h.ack[key] < |h.glog[key.term]|
  }

  ghost predicate LeadersOk(h: History)
    requires Sizes(h)
  {
    forall t :: t in h.leader ==>
      && h.leader[t] < h.n
      && Slot(h.leader[t], t) in h.ack && h.ack[Slot(h.leader[t], t)] == |h.glog[t]| - 1
  }

  ghost predicate WellFormed(h: History) {
    Sizes(h) && VotesOk(h) && AcksOk(h) && LeadersOk(h)
  }

  ghost predicate LogsOk(h: History)
    requires WellFormed(h)
  {
    && LeaderLogsOk(h.glog)
    && (forall v :: 0 <= v < h.n ==> Backed(h.glog, h.log[v]) && TermsAtMost(h.log[v], h.term[v]))
    && (forall key :: key in h.voted ==>
          Backed(h.glog, h.voted[key].log)
          && UpToDate(h.voted[key].lastIndex, h.voted[key].lastTerm, h.voted[key].log))
  }

  ghost predicate Elections(h: History) {
    forall t :: t in h.leader ==> |Voters(h, t, h.leader[t])| >= Majority(h.n)
  }

  /** As long as entry (t, k) may be chosen, everyone who acknowledged it keeps it and had it when
      voting in a later term, and every leader of a later term has it. */
  ghost predicate Safe(h: History, t: nat, k: nat)
    requires |h.term| == h.n && |h.log| == h.n
  {
    Choosable(h, t, k) ==>
      && (forall v :: 0 <= v < h.n && Acked(h, v, t, k) ==> Has(h.log[v], t, k))
      && (forall key :: key in h.voted && key.term > t && Acked(h, key.server, t, k) ==> Has(h.voted[key].log, t, k))
      && (forall u :: u in h.glog && u > t ==> Has(h.glog[u], t, k))
  }

  /** (t, k) is an entry created by the leader of term t. */
  ghost predicate Own(h: History, t: nat, k: nat) {
    t in h.glog && k >= 1 && Has(h.glog[t], t, k)
  }

  ghost predicate Settled(h: History)
    requires |h.term| == h.n && |h.log| == h.n
  {
    forall t, k :: Own(h, t, k) ==> Safe(h, t, k)
  }

  ghost predicate ChosenOk(h: History) {
    forall e :: e in h.chosen ==> Own(h, e.term, e.index) && |Ackers(h, e.term, e.index)| >= Majority(h.n)
  }

  ghost predicate Inv(h: History) {
    WellFormed(h) && LogsOk(h) && Elections(h) && Settled(h) && ChosenOk(h)
  }

  // ---------------------------------------------------------------- quorums

  lemma {:induction false} SubsetCard<T>(a: set<T>, b: set<T>)
    requires a <= b
    ensures |a| <= |b|
  {
    assert b == a + (b - a);
  }

  lemma {:induction false} RangeCard(s: set<nat>, n: nat)
    requires forall v :: v in s ==> v < n
    ensures |s| <= n
  {
    if n == 0 {
      assert s == {};
    } else {
      var r := s - {n - 1};
      RangeCard(r, n - 1);
      SubsetCard(s, r + {n - 1});
    }
  }

  /** Two majorities of n servers share a server. */
  lemma MajoritiesMeet(a: set<nat>, b: set<nat>, n: nat) returns (v: nat)
    requires forall x :: x in a || x in b ==> x < n
    requires |a| >= Majority(n) && |b| >= Majority(n)
    ensures v in a && v in b
  {
    RangeCard(a + b, n);
    assert |a| + |b| == |a + b| + |a * b|;
    assert a * b != {};
    v :| v in a * b;
  }

  // ---------------------------------------------------------------- monotonicity

  /** Everything recorded stays recorded; terms, acknowledgements and leader logs only grow. */
  ghost predicate Grows(h: History, h': History) {
    && |h.term| == h.n && |h'.term| == h'.n && h'.n == h.n
    && (forall v :: 0 <= v < h.n ==> h.term[v] <= h'.term[v])
    && (forall key :: key in h.voted ==> key in h'.voted && h'.voted[key] == h.voted[key])
    && (forall t :: t in h.leader ==> t in h'.leader && h'.leader[t] == h.leader[t])
    && LogsGrow(h.glog, h'.glog)
    && (forall key :: key in h.ack ==> key in h'.ack && h.ack[key] <= h'.ack[key])
    && h.chosen <= h'.chosen
  }

  /** An acknowledgement is recorded only for what the server holds, in the term it is in. */
  ghost predicate AcksEarned(h: History, h': History)
    requires |h'.term| == h'.n && |h'.log| == h'.n
  {
    forall key :: key in h'.ack && (key in h.ack ==> h'.ack[key] != h.ack[key]) ==>
      && key.server < h'.n && h'.term[key.server] == key.term && key.term in h'.glog
      && Agree(h'.log[key.server], h'.glog[key.term], h'.ack[key])
  }

  /** One transition: the record grows, and its new acknowledgements are earned. */
  ghost predicate Moves(h: History, h': History) {
    Grows(h, h') && |h'.term| == h'.n && |h'.log| == h'.n && AcksEarned(h, h')
  }

  lemma SameAcksEarned(h: History, h': History)
    requires |h'.term| == h'.n && |h'.log| == h'.n && h'.ack == h.ack
    ensures AcksEarned(h, h')
  {
  }

  lemma GrowsTransitive(a: History, b: History, c: History)
    requires Grows(a, b) && Grows(b, c)
    ensures Grows(a, c)
  {
    forall t | t in a.glog
      ensures t in c.glog && Extends(a.glog[t], c.glog[t], t)
    {
      assert Extends(a.glog[t], b.glog[t], t);
      assert Extends(b.glog[t], c.glog[t], t);
    }
  }

  /** New acknowledgements of (t, k) come only from servers still in a term at most t, so the set
      that may support (t, k) only shrinks. */
  ghost predicate NoNewSupport(h: History, h': History, t: nat, k: nat) {
    && |h.term| == h.n && |h'.term| == h'.n && h'.n == h.n
    && (forall v :: 0 <= v < h.n ==> h.term[v] <= h'.term[v])
    && (forall v :: 0 <= v < h.n && Acked(h', v, t, k) && !Acked(h, v, t, k) ==> h.term[v] <= t)
  }

  lemma ChoosableShrinks(h: History, h': History, t: nat, k: nat)
    requires NoNewSupport(h, h', t, k)
    requires Choosable(h', t, k)
    ensures Choosable(h, t, k)
  {
    SubsetCard(Potential(h', t, k), Potential(h, t, k));
  }

  lemma ChosenIsChoosable(h: History, t: nat, k: nat)
    requires |h.term| == h.n
    requires |Ackers(h, t, k)| >= Majority(h.n)
    ensures Choosable(h, t, k)
  {
    SubsetCard(Ackers(h, t, k), Potential(h, t, k));
  }

  lemma VotersGrow(h: History, h': History, t: nat, candidate: nat)
    requires Grows(h, h')
    ensures |Voters(h, t, candidate)| <= |Voters(h', t, candidate)|
  {
    SubsetCard(Voters(h, t, candidate), Voters(h', t, candidate));
  }

  lemma AckersGrow(h: History, h': History, t: nat, k: nat)
    requires Grows(h, h')
    ensures |Ackers(h, t, k)| <= |Ackers(h', t, k)|
  {
    SubsetCard(Ackers(h, t, k), Ackers(h', t, k));
  }

  lemma OwnGrows(h: History, h': History, t: nat, k: nat)
    requires Grows(h, h') && Own(h, t, k)
    ensures Own(h', t, k)
  {
    assert h.glog[t] <= h'.glog[t];
  }

  lemma ChosenGrows(h: History, h': History)
    requires Grows(h, h') && ChosenOk(h) && h'.chosen == h.chosen
    ensures ChosenOk(h')
  {
    forall e | e in h'.chosen
      ensures Own(h', e.term, e.index) && |Ackers(h', e.term, e.index)| >= Majority(h'.n)
    {
      OwnGrows(h, h', e.term, e.index);
      AckersGrow(h, h', e.term, e.index);
    }
  }

  lemma ElectionsGrow(h: History, h': History)
    requires Grows(h, h') && Elections(h)
    requires h'.leader == h.leader
    ensures Elections(h')
  {
    forall t | t in h'.leader
      ensures |Voters(h', t, h'.leader[t])| >= Majority(h'.n)
    {
      VotersGrow(h, h', t, h.leader[t]);
    }
  }

  // ---------------------------------------------------------------- transition 1: a term advances

  function BumpTerm(h: History, v: nat, t: nat): History
    requires v < |h.term|
  {
    h.(term := h.term[v := t])
  }

  lemma BumpTermLogs(h: History, v: nat, t: nat)
    requires WellFormed(h) && LogsOk(h) && v < h.n && h.term[v] <= t
    ensures WellFormed(BumpTerm(h, v, t)) && LogsOk(BumpTerm(h, v, t)) && Grows(h, BumpTerm(h, v, t))
  {
    hide Backed, UpToDate, LeaderLogsOk;
    var h' := BumpTerm(h, v, t);
    forall w | 0 <= w < h.n
      ensures TermsAtMost(h'.log[w], h'.term[w])
    {
      assert TermsAtMost(h.log[w], h.term[w]);
    }
  }

  lemma BumpTermSafe(h: History, v: nat, t: nat, u: nat, k: nat)
    requires WellFormed(h) && v < h.n && h.term[v] <= t && Safe(h, u, k)
    ensures Safe(BumpTerm(h, v, t), u, k)
  {
    hide Has, Choosable, Potential;
    if Choosable(BumpTerm(h, v, t), u, k) {
      ChoosableShrinks(h, BumpTerm(h, v, t), u, k);
    }
  }

  lemma BumpTermInv(h: History, v: nat, t: nat)
    requires Inv(h) && v < h.n && h.term[v] <= t
    ensures Inv(BumpTerm(h, v, t)) && Grows(h, BumpTerm(h, v, t))
  {
    hide Has, LogsOk, Safe, Elections, ChosenOk, VotesOk, AcksOk, LeadersOk;
    var h' := BumpTerm(h, v, t);
    BumpTermLogs(h, v, t);
    ElectionsGrow(h, h');
    ChosenGrows(h, h');
    forall u, k | Own(h', u, k)
      ensures Safe(h', u, k)
    {
      assert Own(h, u, k);
      BumpTermSafe(h, v, t, u, k);
    }
  }

  // ---------------------------------------------------------------- transition 2: a vote is cast

  function CastVote(h: History, v: nat, candidate: nat, lastIndex: nat, lastTerm: nat): History
    requires v < |h.term| && v < |h.log|
  {
    h.(voted := h.voted[Slot(v, h.term[v]) := Ballot(candidate, lastIndex, lastTerm, h.log[v])])
  }

  lemma CastVoteSafe(h: History, v: nat, candidate: nat, lastIndex: nat, lastTerm: nat, t: nat, k: nat)
    requires WellFormed(h) && Safe(h, t, k) && v < h.n && Slot(v, h.term[v]) !in h.voted
    ensures Safe(CastVote(h, v, candidate, lastIndex, lastTerm), t, k)
  {
    hide Has, Choosable, Potential;
    var h' := CastVote(h, v, candidate, lastIndex, lastTerm);
    if Choosable(h', t, k) {
      ChoosableShrinks(h, h', t, k);
      forall key | key in h'.voted && key.term > t && Acked(h', key.server, t, k)
        ensures Has(h'.voted[key].log, t, k)
      {
        assert key in h.voted || key == Slot(v, h.term[v]);
      }
    }
  }

  lemma CastVoteLogs(h: History, v: nat, candidate: nat, lastIndex: nat, lastTerm: nat)
    requires WellFormed(h) && LogsOk(h) && v < h.n && Slot(v, h.term[v]) !in h.voted
    requires UpToDate(lastIndex, lastTerm, h.log[v])
    requires WellFormed(CastVote(h, v, candidate, lastIndex, lastTerm))
    ensures LogsOk(CastVote(h, v, candidate, lastIndex, lastTerm))
  {
    hide Backed, TermsAtMost, LeaderLogsOk, UpToDate, VotesOk, AcksOk, LeadersOk;
  }

  lemma CastVoteGrows(h: History, v: nat, candidate: nat, lastIndex: nat, lastTerm: nat)
    requires WellFormed(h) && v < h.n && Slot(v, h.term[v]) !in h.voted
    ensures Grows(h, CastVote(h, v, candidate, lastIndex, lastTerm))
  {
    hide VotesOk, AcksOk, LeadersOk;
  }

  lemma CastVoteWellFormed(h: History, v: nat, candidate: nat, lastIndex: nat, lastTerm: nat)
    requires WellFormed(h) && v < h.n && Slot(v, h.term[v]) !in h.voted
    ensures WellFormed(CastVote(h, v, candidate, lastIndex, lastTerm))
  {
    var h' := CastVote(h, v, candidate, lastIndex, lastTerm);
    assert AcksOk(h');
    assert LeadersOk(h');
    hide AcksOk, LeadersOk;
  }

  lemma CastVoteInv(h: History, v: nat, candidate: nat, lastIndex: nat, lastTerm: nat)
    requires Inv(h) && v < h.n && Slot(v, h.term[v]) !in h.voted && |h.log[v]| >= 1
    requires UpToDate(lastIndex, lastTerm, h.log[v])
    ensures Inv(CastVote(h, v, candidate, lastIndex, lastTerm))
    ensures Grows(h, CastVote(h, v, candidate, lastIndex, lastTerm))
  {
    hide Has, UpToDate, LogsOk, Safe, Elections, ChosenOk;
    var h' := CastVote(h, v, candidate, lastIndex, lastTerm);
    CastVoteGrows(h, v, candidate, lastIndex, lastTerm);
    CastVoteWellFormed(h, v, candidate, lastIndex, lastTerm);
    CastVoteLogs(h, v, candidate, lastIndex, lastTerm);
    ElectionsGrow(h, h');
    ChosenGrows(h, h');
    forall u, k | Own(h', u, k)
      ensures Safe(h', u, k)
    {
      assert Own(h, u, k);
      CastVoteSafe(h, v, candidate, lastIndex, lastTerm, u, k);
    }
  }

  // ---------------------------------------------------------------- transition 3: a candidate wins

  function Elect(h: History, l: nat): History
    requires l < |h.term| && l < |h.log| && |h.log[l]| >= 1
  {
    var t := h.term[l];
    h.(leader := h.leader[t := l], glog := h.glog[t := h.log[l]], ack := h.ack[Slot(l, t) := |h.log[l]| - 1])
  }

  /** The candidate's log, as every one of its voters saw it described. */
  ghost predicate Wins(h: History, l: nat)
    requires |h.term| == h.n && |h.log| == h.n
  {
    && l < h.n && h.term[l] >= 1 && |h.log[l]| >= 1
    && |Voters(h, h.term[l], l)| >= Majority(h.n)
    && forall v :: v in Voters(h, h.term[l], l) ==>
         h.voted[Slot(v, h.term[l])].lastIndex == |h.log[l]| - 1
         && h.voted[Slot(v, h.term[l])].lastTerm == LastTerm(h.log[l])
  }

  /** Election Safety: a majority of ballots for `l` in a term rules out any other leader. */
  lemma OneLeaderPerTerm(h: History, t: nat, l: nat)
    requires WellFormed(h) && Elections(h) && |Voters(h, t, l)| >= Majority(h.n) && t in h.leader
    ensures h.leader[t] == l
  {
    var v := MajoritiesMeet(Voters(h, t, l), Voters(h, t, h.leader[t]), h.n);
  }

  /** A voter had (t, k); then a candidate it found at least as up to date has (t, k) as well. */
  lemma UpToDateHas(h: History, w: Log, c: Log, t: nat, k: nat)
    requires LeaderLogsOk(h.glog) && Backed(h.glog, w) && Backed(h.glog, c)
    requires UpToDate(|c| - 1, LastTerm(c), w)
    requires Own(h, t, k) && Has(w, t, k)
    requires forall u :: u in h.glog && u > t ==> Has(h.glog[u], t, k)
    ensures Has(c, t, k)
  {
    var last := |w| - 1;
    TermsSorted(h.glog, w, k, last);
    var u := LastTerm(c);
    var m := |c| - 1;
    assert u >= t >= 1;
    assert m >= 1;
    assert Agree(c, h.glog[u], m);
    if u == LastTerm(w) {
      assert Agree(w, h.glog[u], last);
      assert c[k] == h.glog[u][k] == w[k];
    } else {
      assert Has(h.glog[u], t, k);
      TermsSortedContra(h.glog, h.glog[u], k, m);
      assert c[k] == h.glog[u][k];
    }
  }

  /** Leader Completeness at the moment of election. */
  lemma WinnerHas(h: History, l: nat, t: nat, k: nat)
    requires Inv(h) && Wins(h, l) && Own(h, t, k) && t < h.term[l] && Choosable(h, t, k)
    ensures Has(h.log[l], t, k)
  {
    var q := Voters(h, h.term[l], l);
    var v := MajoritiesMeet(Potential(h, t, k), q, h.n);
    var key := Slot(v, h.term[l]);
    assert key in h.voted;
    assert Acked(h, key.server, t, k);
    assert Safe(h, t, k);
    UpToDateHas(h, h.voted[key].log, h.log[l], t, k);
  }

  lemma ElectAcks(h: History, l: nat)
    requires WellFormed(h) && l < h.n && |h.log[l]| >= 1 && h.term[l] !in h.leader
    ensures Slot(l, h.term[l]) !in h.ack && AcksOk(Elect(h, l))
  {
    hide VotesOk, LeadersOk;
  }

  lemma ElectGrows(h: History, l: nat)
    requires WellFormed(h) && l < h.n && |h.log[l]| >= 1 && h.term[l] !in h.leader
    ensures Grows(h, Elect(h, l))
  {
    ElectAcks(h, l);
    hide AcksOk, VotesOk, LeadersOk;
  }

  lemma ElectLeaders(h: History, l: nat)
    requires WellFormed(h) && l < h.n && |h.log[l]| >= 1 && h.term[l] !in h.leader
    ensures Sizes(Elect(h, l)) && LeadersOk(Elect(h, l))
  {
    hide AcksOk, VotesOk;
  }

  lemma ElectWellFormed(h: History, l: nat)
    requires WellFormed(h) && l < h.n && |h.log[l]| >= 1 && h.term[l] !in h.leader
    ensures WellFormed(Elect(h, l))
  {
    ElectAcks(h, l);
    ElectLeaders(h, l);
    hide AcksOk, LeadersOk;
  }

  lemma ElectEarned(h: History, l: nat)
    requires WellFormed(h) && l < h.n && |h.log[l]| >= 1
    ensures WellFormed(Elect(h, l)) ==> AcksEarned(h, Elect(h, l))
  {
    hide VotesOk, AcksOk, LeadersOk;
  }

  lemma ElectLogsOk(h: History, l: nat)
    requires WellFormed(h) && LogsOk(h) && l < h.n && |h.log[l]| >= 1
    requires h.term[l] !in h.leader && h.term[l] >= 1
    requires Grows(h, Elect(h, l)) && WellFormed(Elect(h, l))
    ensures LogsOk(Elect(h, l))
  {
    hide Backed, TermsAtMost, UpToDate, VotesOk, AcksOk, LeadersOk;
    var h' := Elect(h, l);
    forall log | Backed(h.glog, log)
      ensures Backed(h'.glog, log)
    {
      BackedGrows(h.glog, h'.glog, log);
    }
  }

  lemma ElectSafe(h: History, l: nat, t: nat, k: nat)
    requires WellFormed(h) && Safe(h, t, k) && l < h.n && |h.log[l]| >= 1 && h.term[l] !in h.leader
    requires Choosable(h, t, k) && t < h.term[l] ==> Has(h.log[l], t, k)
    requires t != h.term[l]
    ensures Safe(Elect(h, l), t, k)
  {
    hide Has, Choosable, Potential;
    var h' := Elect(h, l);
    if Choosable(h', t, k) {
      assert Slot(l, h.term[l]) !in h.ack;
      ChoosableShrinks(h, h', t, k);
    }
  }

  lemma ElectOwn(h: History, l: nat, t: nat, k: nat)
    requires WellFormed(h) && LogsOk(h) && l < h.n && |h.log[l]| >= 1 && h.term[l] !in h.leader
    requires Own(Elect(h, l), t, k)
    ensures t != h.term[l] && Own(h, t, k)
  {
    hide UpToDate, LeaderLogsOk;
    assert Backed(h.glog, h.log[l]);
    assert forall i :: 1 <= i < |h.log[l]| ==> h.log[l][i].term in h.glog;
  }

  lemma ElectInv(h: History, l: nat)
    requires Inv(h) && Wins(h, l) && h.term[l] !in h.leader
    ensures Inv(Elect(h, l)) && Grows(h, Elect(h, l))
  {
    hide Has, Safe, Voters, Choosable, ChosenOk, LogsOk, VotesOk, AcksOk, LeadersOk;
    var h' := Elect(h, l);
    ElectGrows(h, l);
    ElectWellFormed(h, l);
    ElectLogsOk(h, l);
    forall t | t in h'.leader
      ensures |Voters(h', t, h'.leader[t])| >= Majority(h'.n)
    {
      VotersGrow(h, h', t, h'.leader[t]);
    }
    forall t, k | Own(h', t, k)
      ensures Safe(h', t, k)
    {
      ElectOwn(h, l, t, k);
      if Choosable(h, t, k) && t < h.term[l] {
        WinnerHas(h, l, t, k);
      }
      ElectSafe(h, l, t, k);
    }
    ChosenGrows(h, h');
  }

  // ---------------------------------------------------------------- transition 4: a leader appends

  function Extend(h: History, l: nat, command: Command): History
    requires l < |h.term| && l < |h.log|
  {
    var t := h.term[l];
    var log := h.log[l] + [Entry(command, t)];
    h.(log := h.log[l := log], glog := h.glog[t := log], ack := h.ack[Slot(l, t) := |log| - 1])
  }

  ghost predicate Leads(h: History, l: nat)
    requires |h.term| == h.n && |h.log| == h.n
  {
    l < h.n && h.term[l] in h.leader && h.term[l] in h.glog && h.leader[h.term[l]] == l && h.glog[h.term[l]] == h.log[l]
  }

  lemma ExtendAcks(h: History, l: nat, command: Command)
    requires WellFormed(h) && Leads(h, l)
    ensures AcksOk(Extend(h, l, command)) && VotesOk(Extend(h, l, command))
  {
    hide LeadersOk;
  }

  lemma ExtendGrows(h: History, l: nat, command: Command)
    requires WellFormed(h) && Leads(h, l)
    ensures Grows(h, Extend(h, l, command))
  {
    assert Slot(l, h.term[l]) in h.ack && h.ack[Slot(l, h.term[l])] == |h.log[l]| - 1;
    hide AcksOk, VotesOk, LeadersOk;
  }

  lemma ExtendLeaders(h: History, l: nat, command: Command)
    requires WellFormed(h) && Leads(h, l)
    ensures Sizes(Extend(h, l, command)) && LeadersOk(Extend(h, l, command))
  {
    hide AcksOk, VotesOk;
    var h' := Extend(h, l, command);
    var t := h.term[l];
    forall u | u in h'.leader
      ensures Slot(h'.leader[u], u) in h'.ack && h'.ack[Slot(h'.leader[u], u)] == |h'.glog[u]| - 1
    {
      assert u != t ==> Slot(h'.leader[u], u) != Slot(l, t);
    }
  }

  lemma ExtendWellFormed(h: History, l: nat, command: Command)
    requires WellFormed(h) && Leads(h, l)
    ensures WellFormed(Extend(h, l, command))
  {
    ExtendAcks(h, l, command);
    ExtendLeaders(h, l, command);
    hide AcksOk, VotesOk, LeadersOk;
  }

  lemma ExtendEarned(h: History, l: nat, command: Command)
    requires WellFormed(h) && Leads(h, l)
    ensures WellFormed(Extend(h, l, command)) ==> AcksEarned(h, Extend(h, l, command))
  {
    hide VotesOk, AcksOk, LeadersOk;
  }

  lemma ExtendBacked(g: LeaderLogs, t: nat, e: Entry)
    requires t in g && Backed(g, g[t]) && e.term == t
    ensures Backed(g[t := g[t] + [e]], g[t] + [e])
  {
    var log := g[t] + [e];
    var g' := g[t := log];
    forall k | 1 <= k < |log|
      ensures log[k].term in g' && Agree(log, g'[log[k].term], k)
    {
      if k < |g[t]| {
        assert Agree(g[t], g[g[t][k].term], k);
      }
    }
  }

  lemma ExtendLogsOk(h: History, l: nat, command: Command)
    requires WellFormed(h) && LogsOk(h) && Leads(h, l)
    requires Grows(h, Extend(h, l, command)) && WellFormed(Extend(h, l, command))
    ensures LogsOk(Extend(h, l, command))
  {
    hide Backed, UpToDate, LeaderLogsOk, TermsAtMost, VotesOk, AcksOk, LeadersOk;
    var h' := Extend(h, l, command);
    var t := h.term[l];
    forall log | Backed(h.glog, log)
      ensures Backed(h'.glog, log)
    {
      BackedGrows(h.glog, h'.glog, log);
    }
    LeaderLogBacked(h.glog, t);
    ExtendBacked(h.glog, t, Entry(command, t));
    ExtendLeaderLogs(h.glog, t, Entry(command, t));
  }

  lemma ExtendLeaderLogs(g: LeaderLogs, t: nat, e: Entry)
    requires t in g && LeaderLogsOk(g) && e.term == t
    ensures LeaderLogsOk(g[t := g[t] + [e]]) && TermsAtMost(g[t] + [e], t)
  {
    hide Backed;
    var g' := g[t := g[t] + [e]];
    assert LogsGrow(g, g');
    ExtendBacked(g, t, e);
    forall u | u in g'
      ensures u >= 1 && Backed(g', g'[u]) && TermsAtMost(g'[u], u)
    {
      if u != t {
        BackedGrows(g, g', g[u]);
      }
    }
  }

  /** The new entry cannot get a majority if a later leader exists: that leader's voters have moved on. */
  lemma NewEntryUnsupported(h: History, l: nat, command: Command, u: nat)
    requires WellFormed(h) && Leads(h, l) && u in h.leader && u > h.term[l]
    ensures Potential(Extend(h, l, command), h.term[l], |h.log[l]|) !! Voters(h, u, h.leader[u])
  {
    var h' := Extend(h, l, command);
    var t := h.term[l];
    var k := |h.log[l]|;
    forall v | v in Voters(h, u, h.leader[u])
      ensures v !in Potential(h', t, k)
    {
      assert Slot(v, u) in h.voted;
      assert Slot(v, t) in h.ack ==> h.ack[Slot(v, t)] < k;
    }
  }

  lemma NewEntryNotChoosable(h: History, l: nat, command: Command, u: nat)
    requires WellFormed(h) && Elections(h) && Leads(h, l) && u in h.leader && u > h.term[l]
    ensures !Choosable(Extend(h, l, command), h.term[l], |h.log[l]|)
  {
    var a := Potential(Extend(h, l, command), h.term[l], |h.log[l]|);
    var b := Voters(h, u, h.leader[u]);
    NewEntryUnsupported(h, l, command, u);
    RangeCard(a + b, h.n);
    assert |a + b| == |a| + |b|;
  }

  lemma ExtendNewSafe(h: History, l: nat, command: Command)
    requires WellFormed(h) && Elections(h) && Leads(h, l)
    ensures Safe(Extend(h, l, command), h.term[l], |h.log[l]|)
  {
    hide Elections, Choosable, Potential;
    var h' := Extend(h, l, command);
    var t := h.term[l];
    var k := |h.log[l]|;
    if w :| w in h.glog && w > t {
      NewEntryNotChoosable(h, l, command, w);
    } else {
      assert forall v :: 0 <= v < h.n && v != l ==> !Acked(h', v, t, k);
      assert forall key :: key in h.voted && key.term > t ==> key.server != l;
    }
  }

  lemma ExtendOldSafe(h: History, l: nat, command: Command, t: nat, k: nat)
    requires WellFormed(h) && Leads(h, l) && Own(h, t, k) && Safe(h, t, k)
    ensures Safe(Extend(h, l, command), t, k)
  {
    hide Choosable, Potential;
    var h' := Extend(h, l, command);
    if Choosable(h', t, k) {
      ChoosableShrinks(h, h', t, k);
    }
  }

  lemma ExtendInv(h: History, l: nat, command: Command)
    requires Inv(h) && Leads(h, l)
    ensures Inv(Extend(h, l, command)) && Grows(h, Extend(h, l, command))
  {
    hide Safe, LogsOk, Elections, ChosenOk, VotesOk, AcksOk, LeadersOk;
    var h' := Extend(h, l, command);
    ExtendGrows(h, l, command);
    ExtendWellFormed(h, l, command);
    ExtendLogsOk(h, l, command);
    ElectionsGrow(h, h');
    ChosenGrows(h, h');
    forall t, k | Own(h', t, k)
      ensures Safe(h', t, k)
    {
      if t == h.term[l] && k == |h.log[l]| {
        ExtendNewSafe(h, l, command);
      } else {
        assert Own(h, t, k);
        ExtendOldSafe(h, l, command, t, k);
      }
    }
  }

  // ---------------------------------------------------------------- transition 5: a follower accepts

  function Accept(h: History, v: nat, prev: nat, entries: seq<Entry>): History
    requires v < |h.term| && v < |h.log| && prev < |h.log[v]|
  {
    var t := h.term[v];
    var last := prev + |entries|;
    h.(log := h.log[v := Reconcile(h.log[v], prev, entries)],
       ack := h.ack[Slot(v, t) := if Slot(v, t) in h.ack && h.ack[Slot(v, t)] > last then h.ack[Slot(v, t)] else last])
  }

  /** The batch is a stretch of the leader log of term `t`, following the entry at `prev`. */
  ghost predicate CutFrom(h: History, t: nat, prev: nat, prevTerm: nat, entries: seq<Entry>) {
    && t in h.glog && prev + |entries| < |h.glog[t]|
    && prevTerm == h.glog[t][prev].term
    && entries == h.glog[t][prev + 1..prev + |entries| + 1]
  }

  ghost predicate Acceptable(h: History, v: nat, prev: nat, entries: seq<Entry>)
    requires |h.term| == h.n && |h.log| == h.n
  {
    && v < h.n && prev < |h.log[v]|
    && CutFrom(h, h.term[v], prev, h.log[v][prev].term, entries)
    && h.term[v] in h.leader && h.leader[h.term[v]] != v
  }

  lemma AcceptAcks(h: History, v: nat, prev: nat, entries: seq<Entry>)
    requires WellFormed(h) && Acceptable(h, v, prev, entries)
    ensures AcksOk(Accept(h, v, prev, entries)) && VotesOk(Accept(h, v, prev, entries))
  {
    hide Reconcile, LeadersOk;
  }

  lemma AcceptGrows(h: History, v: nat, prev: nat, entries: seq<Entry>)
    requires WellFormed(h) && Acceptable(h, v, prev, entries)
    ensures Grows(h, Accept(h, v, prev, entries))
  {
    hide Reconcile, VotesOk, AcksOk, LeadersOk, CutFrom;
  }

  lemma AcceptLeaders(h: History, v: nat, prev: nat, entries: seq<Entry>)
    requires WellFormed(h) && Acceptable(h, v, prev, entries)
    ensures Sizes(Accept(h, v, prev, entries)) && LeadersOk(Accept(h, v, prev, entries))
  {
    hide Reconcile, VotesOk, AcksOk, CutFrom;
    var h' := Accept(h, v, prev, entries);
    forall u | u in h'.leader
      ensures Slot(h'.leader[u], u) in h'.ack && h'.ack[Slot(h'.leader[u], u)] == |h'.glog[u]| - 1
    {
      assert Slot(h'.leader[u], u) != Slot(v, h.term[v]);
    }
  }

  lemma AcceptWellFormed(h: History, v: nat, prev: nat, entries: seq<Entry>)
    requires WellFormed(h) && Acceptable(h, v, prev, entries)
    ensures WellFormed(Accept(h, v, prev, entries))
  {
    hide Reconcile, AcksOk, LeadersOk, VotesOk;
    AcceptAcks(h, v, prev, entries);
    AcceptLeaders(h, v, prev, entries);
  }

  /** What accepting does to the follower's log, compared with the leader's. */
  lemma AcceptLog(h: History, v: nat, prev: nat, entries: seq<Entry>)
    requires WellFormed(h) && LogsOk(h) && Acceptable(h, v, prev, entries)
    ensures var out := Reconcile(h.log[v], prev, entries);
      && Backed(h.glog, out) && TermsAtMost(out, h.term[v])
      && Agree(out, h.glog[h.term[v]], prev + |entries|)
      && forall k: nat :: Agree(h.log[v], h.glog[h.term[v]], k) ==> Agree(out, h.log[v], k)
  {
    hide Backed, UpToDate, LeaderLogsOk, Reconcile;
    var t := h.term[v];
    LeaderLogBacked(h.glog, t);
    ReconcileWithLeader(h.glog, h.glog[t], h.log[v], prev, prev + |entries|);
    ReconcileTerms(h.glog[t], h.log[v], prev, entries, t);
  }

  lemma ReconcileTerms(lead: Log, log: Log, prev: nat, entries: seq<Entry>, t: nat)
    requires prev < |log| && prev + |entries| < |lead| && entries == lead[prev + 1..prev + |entries| + 1]
    requires TermsAtMost(lead, t) && TermsAtMost(log, t)
    ensures TermsAtMost(Reconcile(log, prev, entries), t)
  {
    assert forall i :: 0 <= i < |entries| ==> entries[i] == lead[prev + 1 + i];
  }

  lemma AcceptLogs(h: History, v: nat, prev: nat, entries: seq<Entry>)
    requires WellFormed(h) && LogsOk(h) && Acceptable(h, v, prev, entries)
    ensures WellFormed(Accept(h, v, prev, entries)) && LogsOk(Accept(h, v, prev, entries))
  {
    hide UpToDate, Reconcile, Backed, TermsAtMost, LeaderLogsOk, Agree;
    AcceptWellFormed(h, v, prev, entries);
    AcceptLog(h, v, prev, entries);
  }

  lemma AcceptSafe(h: History, v: nat, prev: nat, entries: seq<Entry>, t: nat, k: nat)
    requires WellFormed(h) && v < h.n && prev < |h.log[v]| && Safe(h, t, k)
    requires Choosable(h, t, k) && Acked(Accept(h, v, prev, entries), v, t, k)
             ==> Has(Accept(h, v, prev, entries).log[v], t, k)
    ensures Safe(Accept(h, v, prev, entries), t, k)
  {
    hide Has, Choosable, Potential, Reconcile;
    var h' := Accept(h, v, prev, entries);
    if Choosable(h', t, k) {
      assert NoNewSupport(h, h', t, k);
      ChoosableShrinks(h, h', t, k);
    }
  }

  /** A server that acknowledged (t, k) keeps it when accepting a batch from a later leader. */
  lemma AcceptKeeps(h: History, v: nat, prev: nat, entries: seq<Entry>, t: nat, k: nat)
    requires WellFormed(h) && LogsOk(h) && Acceptable(h, v, prev, entries) && Own(h, t, k) && Safe(h, t, k)
    requires Choosable(h, t, k) && Acked(Accept(h, v, prev, entries), v, t, k)
    ensures Has(Accept(h, v, prev, entries).log[v], t, k)
  {
    hide UpToDate, Choosable, Reconcile, LeaderLogsOk, Backed;
    var u := h.term[v];
    AcceptLog(h, v, prev, entries);
    if Acked(h, v, t, k) {
      LeaderLogBacked(h.glog, u);
      HasAgrees(h.glog, h.log[v], t, k);
      HasAgrees(h.glog, h.glog[u], t, k);
      assert Agree(h.log[v], h.glog[u], k);
    }
  }

  lemma AcceptInv(h: History, v: nat, prev: nat, entries: seq<Entry>)
    requires Inv(h) && Acceptable(h, v, prev, entries)
    ensures Inv(Accept(h, v, prev, entries)) && Grows(h, Accept(h, v, prev, entries))
  {
    hide Safe, LogsOk, Elections, ChosenOk, Reconcile, Choosable, Has, VotesOk, AcksOk, LeadersOk;
    var h' := Accept(h, v, prev, entries);
    AcceptGrows(h, v, prev, entries);
    AcceptLogs(h, v, prev, entries);
    ElectionsGrow(h, h');
    ChosenGrows(h, h');
    forall t, k | Own(h', t, k)
      ensures Safe(h', t, k)
    {
      assert Own(h, t, k);
      if Choosable(h, t, k) && Acked(h', v, t, k) {
        AcceptKeeps(h, v, prev, entries, t, k);
      }
      AcceptSafe(h, v, prev, entries, t, k);
    }
  }

  lemma AcceptEarned(h: History, v: nat, prev: nat, entries: seq<Entry>)
    requires WellFormed(h) && LogsOk(h) && Acceptable(h, v, prev, entries)
    ensures AcksEarned(h, Accept(h, v, prev, entries))
  {
    hide LogsOk, Reconcile, Backed;
    AcceptLog(h, v, prev, entries);
  }

  // ---------------------------------------------------------------- transition 6: a leader commits

  function Choose(h: History, t: nat, k: nat): History {
    h.(chosen := h.chosen + {Mark(t, k)})
  }

  lemma ChooseInv(h: History, t: nat, k: nat)
    requires Inv(h) && Own(h, t, k) && |Ackers(h, t, k)| >= Majority(h.n)
    ensures Inv(Choose(h, t, k)) && Grows(h, Choose(h, t, k))
  {
    hide Has, Safe, Elections, Ackers, LogsOk, VotesOk, AcksOk, LeadersOk;
    var h' := Choose(h, t, k);
    ChooseLogs(h, t, k);
    ElectionsGrow(h, h');
    forall e | e in h'.chosen
      ensures Own(h', e.term, e.index) && |Ackers(h', e.term, e.index)| >= Majority(h'.n)
    {
      AckersGrow(h, h', e.term, e.index);
    }
    forall u, j | Own(h', u, j)
      ensures Safe(h', u, j)
    {
      assert Own(h, u, j);
      ChooseSafe(h, t, k, u, j);
    }
  }

  lemma ChooseLogs(h: History, t: nat, k: nat)
    requires WellFormed(h) && LogsOk(h)
    ensures WellFormed(Choose(h, t, k)) && LogsOk(Choose(h, t, k)) && Grows(h, Choose(h, t, k))
  {
    hide Backed, TermsAtMost, LeaderLogsOk, UpToDate;
  }

  lemma ChooseSafe(h: History, t: nat, k: nat, u: nat, j: nat)
    requires WellFormed(h) && Safe(h, u, j)
    ensures Safe(Choose(h, t, k), u, j)
  {
    hide Has, Choosable, Potential;
    if Choosable(Choose(h, t, k), u, j) {
      ChoosableShrinks(h, Choose(h, t, k), u, j);
    }
  }

  // ---------------------------------------------------------------- consequences

  /** Leader Completeness (sections 5.4.1 and 5.4.2 of the Raft paper): a committed entry and all
      before it are in the log of every leader of the same or a later term. */
  lemma LeaderCompleteness(h: History, e: Mark, u: nat)
    requires Inv(h) && e in h.chosen && u in h.glog && u >= e.term
    ensures e.term in h.glog && Agree(h.glog[u], h.glog[e.term], e.index)
  {
    hide Elections, UpToDate, Choosable, Ackers, LeaderLogsOk;
    assert Own(h, e.term, e.index);
    ChosenIsChoosable(h, e.term, e.index);
    assert Safe(h, e.term, e.index);
    LeaderLogBacked(h.glog, u);
    HasAgrees(h.glog, h.glog[u], e.term, e.index);
  }

  /** The same for the log that a leader of a later term had at an earlier time, even before the
      entry was committed: what a leader log gains later is of its own term. */
  lemma EarlierLeaderHas(h: History, h': History, e: Mark, u: nat)
    requires Inv(h') && Grows(h, h') && e in h'.chosen && u in h.glog && u > e.term
    ensures e.term in h'.glog && Agree(h.glog[u], h'.glog[e.term], e.index)
  {
    hide Inv;
    LeaderCompleteness(h', e, u);
    ChosenIsOwn(h', e);
    assert h'.glog[u][e.index].term == e.term;
    assert Extends(h.glog[u], h'.glog[u], u);
  }

  lemma ChosenIsOwn(h: History, e: Mark)
    requires Inv(h) && e in h.chosen
    ensures Own(h, e.term, e.index)
  {
    hide WellFormed, LogsOk, Elections, Settled, Ackers;
  }

  /** Any two committed entries lie on one log. */
  lemma ChosenAgree(h: History, d: Mark, e: Mark, k: nat)
    requires Inv(h) && d in h.chosen && e in h.chosen && k <= d.index && k <= e.index
    ensures d.term in h.glog && e.term in h.glog && Agree(h.glog[d.term], h.glog[e.term], k)
  {
    hide LogsOk, Settled, Elections, Ackers, VotesOk, AcksOk, LeadersOk;
    assert Own(h, d.term, d.index) && Own(h, e.term, e.index);
    if d.term <= e.term {
      LeaderCompleteness(h, d, e.term);
    } else {
      LeaderCompleteness(h, e, d.term);
    }
  }
}
