/** One Raft peer as a value, and what each critical section of src/raft/raft.go does to it.

  The class in module RaftNode is proved to compute these functions; module Cluster runs them.
  Goroutines that outlive a critical section are part of the peer: the voting goroutines of its
  latest election and those of each AppendEntries broadcast.  (Replies to an earlier election are
  dropped by the term check, because every election has a new term, so only the latest matters.)
 */
module Node {
  import opened Logs
  import opened Consensus

  datatype Role = Follower | Candidate | Leader

  /** What the persister holds: nothing before the first write, afterwards an encoded triple.
      Encoding is taken to be faithful, so the triple stands for its own encoding. */
  datatype Disk = Empty | Saved(term: nat, vote: int, log: Log)

  datatype VoteArgs = VoteArgs(term: nat, candidateId: nat, lastLogIndex: nat, lastLogTerm: nat)
  datatype VoteReply = VoteReply(term: nat, granted: bool)

  datatype AppendArgs = AppendArgs(term: nat, leaderId: nat, prevLogIndex: nat, prevLogTerm: nat,
                                   entries: seq<Entry>, leaderCommit: nat)
  datatype AppendReply = AppendReply(term: nat, conflictTerm: nat, conflictFirstIndex: nat, success: bool)

  datatype ApplyMsg = ApplyMsg(index: nat, command: Command)

  /** The goroutines of one election: those still waiting, and those that returned with a vote. */
  datatype Election = Election(term: nat, nVotes: nat, waiting: set<nat>, granted: set<nat>)

  /** The goroutines of one broadcast: the call each one waits for, and those that ended in success. */
  datatype Broadcast = Broadcast(index: nat, term: nat, commitIndex: nat, nReplica: nat, isAgree: bool,
                                 calls: map<nat, AppendArgs>, acked: set<nat>)

  datatype Peer = Peer(
    me: nat, n: nat,
    role: Role, currentTerm: nat, voteFor: int, log: Log,
    commitIndex: nat, lastApplied: nat,
    nextIndex: seq<nat>, matchIndex: seq<nat>,
    election: Election, broadcasts: seq<Broadcast>,
    applyTo: nat,            // upper end of the batch the apply loop is working on
    stream: seq<ApplyMsg>,   // what this incarnation has sent on applyCh
    disk: Disk)

  const NOBODY: int := -1

  const NO_ELECTION := Election(0, 0, {}, {})

  predicate IsOther(n: nat, me: nat, j: nat) {
    j < n && j != me
  }

  function Others(n: nat, me: nat): set<nat> {
    set j: nat | j < n && IsOther(n, me, j)
  }

  function Filled(n: nat, x: nat): seq<nat> {
    seq(n, i => x)
  }

  // ---------------------------------------------------------------- persistence and restart

  function Persist(p: Peer): Peer {
    p.(disk := Saved(p.currentTerm, p.voteFor, p.log))
  }

  function StoredTerm(d: Disk): nat { if d.Empty? then 0 else d.term }
  function StoredVote(d: Disk): int { if d.Empty? then NOBODY else d.vote }
  function StoredLog(d: Disk): Log { if d.Empty? then [SENTINEL] else d.log }

  /** Make: volatile state afresh, persistent state from the disk. */
  function Boot(me: nat, n: nat, d: Disk): Peer {
    Peer(me, n, Follower, StoredTerm(d), StoredVote(d), StoredLog(d), 0, 0,
         Filled(n, 0), Filled(n, 0), NO_ELECTION, [], 0, [], d)
  }

  /** A crash loses everything but the disk. */
  function Restart(p: Peer): Peer {
    Boot(p.me, p.n, p.disk)
  }

  // ---------------------------------------------------------------- election

  function StartElection(p: Peer): Peer {
    Persist(p.(role := Candidate, currentTerm := p.currentTerm + 1, voteFor := p.me,
               election := Election(p.currentTerm + 1, 1, Others(p.n, p.me), {})))
  }

  function BallotRequest(p: Peer): VoteArgs
    requires |p.log| >= 1
  {
    VoteArgs(p.currentTerm, p.me, |p.log| - 1, LastTerm(p.log))
  }

  /** Adopting a newer term, the first part of both handlers and of both reply paths. */
  function StepDown(p: Peer, t: nat): Peer {
    if p.currentTerm < t then Persist(p.(currentTerm := t, voteFor := NOBODY, role := Follower)) else p
  }

  predicate Grants(p: Peer, a: VoteArgs)
    requires |p.log| >= 1
  {
    && p.currentTerm <= a.term
    && (p.voteFor == NOBODY || p.voteFor == a.candidateId)
    && UpToDate(a.lastLogIndex, a.lastLogTerm, p.log)
  }

  /** RequestVote once the term is up to date. */
  function HandleVote(p: Peer, a: VoteArgs): (Peer, VoteReply)
    requires |p.log| >= 1
  {
    if Grants(p, a) then
      (Persist(p.(voteFor := a.candidateId, role := Follower)), VoteReply(p.currentTerm, true))
    else
      (p, VoteReply(p.currentTerm, false))
  }

  function BecomeLeader(p: Peer): Peer {
    Persist(p.(role := Leader, nextIndex := Filled(p.n, |p.log|), matchIndex := Filled(p.n, 0)))
  }

  /** A vote is counted; it may decide the election. */
  function CountVote(p: Peer, from: nat): Peer {
    var e := p.election.(nVotes := p.election.nVotes + 1, waiting := p.election.waiting - {from},
                         granted := p.election.granted + {from});
    var q := p.(election := e);
    if q.role == Candidate && e.nVotes >= Majority(p.n) then BecomeLeader(q) else q
  }

  /** The reply to a vote request reaches the goroutine that waits for it. */
  function VoteReturn(p: Peer, from: nat, a: VoteArgs, r: VoteReply): Peer {
    if p.currentTerm != a.term then p
    else if !r.granted then StepDown(p, r.term).(election := p.election.(waiting := p.election.waiting - {from}))
    else CountVote(p, from)
  }

  // ---------------------------------------------------------------- replication, leader side

  function NewBroadcast(p: Peer): Peer
    requires |p.log| >= 1
  {
    p.(broadcasts := p.broadcasts + [Broadcast(|p.log| - 1, p.currentTerm, p.commitIndex, 1, false, map[], {})])
  }

  function Start(p: Peer, command: Command): Peer {
    if p.role == Leader then NewBroadcast(Persist(p.(log := p.log + [Entry(command, p.currentTerm)]))) else p
  }

  function Heartbeat(p: Peer): Peer
    requires |p.log| >= 1
  {
    if p.role == Leader then NewBroadcast(p) else p
  }

  /** Every index that building a request for `dst` evaluates is in range. */
  predicate SendInBounds(p: Peer, b: Broadcast, dst: nat) {
    && dst < |p.nextIndex| && 1 <= p.nextIndex[dst] <= |p.log|
    && (p.nextIndex[dst] < b.index + 1 ==> b.index < |p.log|)
  }

  function Request(p: Peer, b: Broadcast, dst: nat): AppendArgs
    requires SendInBounds(p, b, dst)
  {
    var next := p.nextIndex[dst];
    AppendArgs(b.term, p.me, next - 1, p.log[next - 1].term,
               if next < b.index + 1 then p.log[next..b.index + 1] else [], b.commitIndex)
  }

  function Send(p: Peer, bid: nat, dst: nat): Peer
    requires bid < |p.broadcasts| && SendInBounds(p, p.broadcasts[bid], dst)
  {
    var b := p.broadcasts[bid];
    p.(broadcasts := p.broadcasts[bid := b.(calls := b.calls[dst := Request(p, b, dst)])])
  }

  /** Largest j <= i that is 0 or has term t. */
  function SearchBack(log: Log, i: nat, t: nat): (j: nat)
    requires i < |log|
    ensures j <= i && (j == 0 || log[j].term == t)
    ensures forall k :: j < k <= i ==> log[k].term != t
  {
    if i == 0 || log[i].term == t then i else SearchBack(log, i - 1, t)
  }

  /** Last index of the stretch of term-t entries that follows j, below `end`. */
  function SearchForward(log: Log, j: nat, end: nat, t: nat): (m: nat)
    requires j < end <= |log|
    ensures j <= m < end && (forall k :: j < k <= m ==> log[k].term == t)
    ensures m + 1 < end ==> log[m + 1].term != t
    decreases end - j
  {
    if j + 1 < end && log[j + 1].term == t then SearchForward(log, j + 1, end, t) else j
  }

  predicate NextIndexInBounds(log: Log, r: AppendReply, next: nat) {
    r.conflictTerm != 0 ==> r.conflictFirstIndex < next <= |log|
  }

  /** getNextIndex: where the leader retries after a rejection. */
  function GetNextIndex(log: Log, r: AppendReply, next: nat): nat
    requires NextIndexInBounds(log, r, next)
  {
    if r.conflictTerm == 0 || log[r.conflictFirstIndex].term < r.conflictTerm then r.conflictFirstIndex
    else
      var j := SearchBack(log, r.conflictFirstIndex, r.conflictTerm);
      if j == 0 then r.conflictFirstIndex else SearchForward(log, j, next, r.conflictTerm) + 1
  }

  /** The indices evaluated when the reply to a call is processed are in range. */
  predicate ReturnInBounds(p: Peer, bid: nat, from: nat, a: AppendArgs, r: AppendReply) {
    p.currentTerm == a.term && bid < |p.broadcasts| ==>
      && from < |p.nextIndex| && from < |p.matchIndex|
      && (r.success ==> p.broadcasts[bid].index < |p.log|)
      && (!r.success && r.term <= a.term ==>
            && NextIndexInBounds(p.log, r, a.prevLogIndex + 1)
            && 1 <= GetNextIndex(p.log, r, a.prevLogIndex + 1) <= |p.log|)
  }

  function CallDone(p: Peer, bid: nat, from: nat): Peer
    requires bid < |p.broadcasts|
  {
    var b := p.broadcasts[bid];
    p.(broadcasts := p.broadcasts[bid := b.(calls := b.calls - {from})])
  }

  /** A rejection: retry from an earlier index. */
  function BackUp(p: Peer, bid: nat, from: nat, a: AppendArgs, r: AppendReply): Peer
    requires bid < |p.broadcasts| && from < |p.nextIndex|
    requires NextIndexInBounds(p.log, r, a.prevLogIndex + 1)
  {
    CallDone(p.(nextIndex := p.nextIndex[from := GetNextIndex(p.log, r, a.prevLogIndex + 1)]), bid, from)
  }

  /** A success is counted; it may commit the entry at the broadcast's index. */
  function CountReplica(p: Peer, bid: nat, from: nat): Peer
    requires bid < |p.broadcasts| && from < |p.nextIndex| && from < |p.matchIndex|
    requires p.broadcasts[bid].index < |p.log|
  {
    var b := p.broadcasts[bid];
    var q := if p.nextIndex[from] < b.index + 1
             then p.(nextIndex := p.nextIndex[from := b.index + 1], matchIndex := p.matchIndex[from := b.index])
             else p;
    var agree := !b.isAgree && p.role == Leader && b.nReplica + 1 >= Majority(p.n);
    var b' := b.(nReplica := b.nReplica + 1, isAgree := b.isAgree || agree,
                 calls := b.calls - {from}, acked := b.acked + {from});
    var commit := agree && Commits(p, b.index);
    q.(broadcasts := p.broadcasts[bid := b'], commitIndex := if commit then b.index else p.commitIndex)
  }

  /** Only entries of the leader's current term are committed by counting (section 5.4.2). */
  predicate Commits(p: Peer, index: nat)
    requires index < |p.log|
  {
    p.commitIndex < index && p.log[index].term == p.currentTerm
  }

  /** Processing the reply to the call (bid, from) commits an entry. */
  predicate Decides(p: Peer, bid: nat, a: AppendArgs, r: AppendReply)
    requires bid < |p.broadcasts| && p.broadcasts[bid].index < |p.log|
  {
    && p.currentTerm == a.term && r.success && p.role == Leader
    && !p.broadcasts[bid].isAgree && p.broadcasts[bid].nReplica + 1 >= Majority(p.n)
    && Commits(p, p.broadcasts[bid].index)
  }

  /** The reply to an AppendEntries call reaches the goroutine that waits for it. */
  function AppendReturn(p: Peer, bid: nat, from: nat, a: AppendArgs, r: AppendReply): Peer
    requires bid < |p.broadcasts| && ReturnInBounds(p, bid, from, a, r)
  {
    if p.currentTerm != a.term then p
    else if r.success then CountReplica(p, bid, from)
    else if a.term < r.term then StepDown(p, r.term)
    else BackUp(p, bid, from, a, r)
  }

  // ---------------------------------------------------------------- replication, follower side

  predicate Consistent(log: Log, a: AppendArgs) {
    |log| > a.prevLogIndex && log[a.prevLogIndex].term == a.prevLogTerm
  }

  function AdvanceCommit(commitIndex: nat, a: AppendArgs): nat {
    var last := a.prevLogIndex + |a.entries|;
    if a.leaderCommit > commitIndex then (if a.leaderCommit > last then last else a.leaderCommit) else commitIndex
  }

  /** First index of the stretch of equal-term entries that ends at i. */
  function FirstOfRun(log: Log, i: nat): (j: nat)
    requires i < |log|
    ensures j <= i && (forall k :: j <= k <= i ==> log[k].term == log[i].term)
    ensures j > 0 ==> log[j - 1].term != log[i].term
  {
    if i > 0 && log[i - 1].term == log[i].term then FirstOfRun(log, i - 1) else i
  }

  function Rejection(log: Log, t: nat, a: AppendArgs): AppendReply {
    if |log| <= a.prevLogIndex then AppendReply(t, 0, |log|, false)
    else AppendReply(t, log[a.prevLogIndex].term, FirstOfRun(log, a.prevLogIndex), false)
  }

  /** AppendEntries once the term is up to date. */
  function HandleAppend(p: Peer, a: AppendArgs): (Peer, AppendReply) {
    if p.currentTerm > a.term then (p, AppendReply(p.currentTerm, 0, 0, false))
    else if Consistent(p.log, a) then
      (Persist(p.(role := Follower, log := Reconcile(p.log, a.prevLogIndex, a.entries),
                  commitIndex := AdvanceCommit(p.commitIndex, a))),
       AppendReply(p.currentTerm, 0, 0, true))
    else (p, Rejection(p.log, p.currentTerm, a))
  }

  // ---------------------------------------------------------------- applying

  /** The apply loop picks up the current commit index. */
  function TakeBatch(p: Peer): Peer {
    p.(applyTo := p.commitIndex)
  }

  function ApplyNext(p: Peer): Peer
    requires p.lastApplied + 1 < |p.log|
  {
    var i := p.lastApplied + 1;
    p.(lastApplied := i, stream := p.stream + [ApplyMsg(i, p.log[i].command)])
  }
}
