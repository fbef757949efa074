/** A cluster of peers, the messages they have sent, and its runs.

  The network keeps every request and reply ever sent.  A run may handle any of them at any later
  time, any number of times or never, so it covers loss, delay and reordering as well as the
  at-most-once delivery of src/labrpc/labrpc.go.  A reply only has an effect while the goroutine
  that made the call is waiting for it.

  Atomicity.  One step is one guard with its effect.  The source releases the peer's lock between
  some guards and their effects; those windows are not modelled.  The step-down that opens a handler
  is a step of its own, so that a run can crash a peer between a handler's two writes to disk.
 */
module Cluster {
  import opened Logs
  import opened Node

  datatype Message =
    | VoteReq(src: nat, dst: nat, vargs: VoteArgs)
    | VoteRep(src: nat, dst: nat, vargs: VoteArgs, vreply: VoteReply)
    | AppendReq(src: nat, dst: nat, bid: nat, args: AppendArgs)
    | AppendRep(src: nat, dst: nat, bid: nat, args: AppendArgs, reply: AppendReply)

  datatype System = System(n: nat, peers: seq<Peer>, net: set<Message>)

  datatype Step =
    | Timeout(i: nat)
    | AdoptTerm(m: Message)
    | ReceiveVote(m: Message)
    | ReturnVote(m: Message)
    | Submit(i: nat, command: Command)
    | Beat(i: nat)
    | Issue(i: nat, bid: nat, dst: nat)
    | ReceiveAppend(m: Message)
    | ReturnAppend(m: Message)
    | Collect(i: nat)
    | Deliver(i: nat)
    | Crash(i: nat)

  function Init(n: nat): System {
    System(n, seq(n, i requires i >= 0 => Boot(i, n, Empty)), {})
  }

  function RequestTerm(m: Message): nat
    requires m.VoteReq? || m.AppendReq?
  {
    if m.VoteReq? then m.vargs.term else m.args.term
  }

  /** The control conditions under which the source takes the step. */
  predicate Enabled(s: System, step: Step) {
    match step
    case Timeout(i) => i < |s.peers|
    case AdoptTerm(m) =>
      && m in s.net && (m.VoteReq? || m.AppendReq?) && m.dst < |s.peers|
      && s.peers[m.dst].currentTerm < RequestTerm(m)
    case ReceiveVote(m) => m in s.net && m.VoteReq? && m.dst < |s.peers| && m.vargs.term <= s.peers[m.dst].currentTerm
    case ReturnVote(m) =>
      && m in s.net && m.VoteRep? && m.src < |s.peers|
      && s.peers[m.src].election.term == m.vargs.term && m.dst in s.peers[m.src].election.waiting
    case Submit(i, _) => i < |s.peers|
    case Beat(i) => i < |s.peers|
    case Issue(i, bid, dst) =>
      && i < |s.peers| && bid < |s.peers[i].broadcasts| && dst in Others(s.n, i)
      && (var p := s.peers[i]; var b := p.broadcasts[bid];
          p.role == Leader && p.currentTerm == b.term && dst !in b.calls && dst !in b.acked)
    case ReceiveAppend(m) => m in s.net && m.AppendReq? && m.dst < |s.peers| && m.args.term <= s.peers[m.dst].currentTerm
    case ReturnAppend(m) =>
      && m in s.net && m.AppendRep? && m.src < |s.peers| && m.bid < |s.peers[m.src].broadcasts|
      && (var b := s.peers[m.src].broadcasts[m.bid]; m.dst in b.calls && b.calls[m.dst] == m.args)
    case Collect(i) => i < |s.peers| && s.peers[i].lastApplied == s.peers[i].applyTo
    case Deliver(i) => i < |s.peers| && s.peers[i].lastApplied < s.peers[i].applyTo
    case Crash(i) => i < |s.peers|
  }

  /** Every log and index access the step performs is in range: the source does not panic. */
  predicate InBounds(s: System, step: Step)
    requires Enabled(s, step)
  {
    match step
    case Timeout(i) => |s.peers[i].log| >= 1
    case AdoptTerm(m) => true
    case ReceiveVote(m) => |s.peers[m.dst].log| >= 1
    case ReturnVote(m) => true
    case Submit(i, _) => true
    case Beat(i) => |s.peers[i].log| >= 1
    case Issue(i, bid, dst) => SendInBounds(s.peers[i], s.peers[i].broadcasts[bid], dst)
    case ReceiveAppend(m) => true
    case ReturnAppend(m) => ReturnInBounds(s.peers[m.src], m.bid, m.dst, m.args, m.reply)
    case Collect(i) => true
    case Deliver(i) => s.peers[i].lastApplied + 1 < |s.peers[i].log|
    case Crash(i) => true
  }

  function Set(s: System, i: nat, p: Peer, sent: set<Message>): System
    requires i < |s.peers|
  {
    s.(peers := s.peers[i := p], net := s.net + sent)
  }

  function Ballots(p: Peer): set<Message>
    requires |p.log| >= 1
  {
    set j | j in Others(p.n, p.me) :: VoteReq(p.me, j, BallotRequest(p))
  }

  function Do(s: System, step: Step): System
    requires Enabled(s, step) && InBounds(s, step)
  {
    match step
    case Timeout(i) =>
      var p := StartElection(s.peers[i]);
      Set(s, i, p, Ballots(p))
    case AdoptTerm(m) => Set(s, m.dst, StepDown(s.peers[m.dst], RequestTerm(m)), {})
    case ReceiveVote(m) =>
      var (p, r) := HandleVote(s.peers[m.dst], m.vargs);
      Set(s, m.dst, p, {VoteRep(m.src, m.dst, m.vargs, r)})
    case ReturnVote(m) => Set(s, m.src, VoteReturn(s.peers[m.src], m.dst, m.vargs, m.vreply), {})
    case Submit(i, command) => Set(s, i, Start(s.peers[i], command), {})
    case Beat(i) => Set(s, i, Heartbeat(s.peers[i]), {})
    case Issue(i, bid, dst) =>
      var p := s.peers[i];
      Set(s, i, Send(p, bid, dst), {AppendReq(i, dst, bid, Request(p, p.broadcasts[bid], dst))})
    case ReceiveAppend(m) =>
      var (p, r) := HandleAppend(s.peers[m.dst], m.args);
      Set(s, m.dst, p, {AppendRep(m.src, m.dst, m.bid, m.args, r)})
    case ReturnAppend(m) => Set(s, m.src, AppendReturn(s.peers[m.src], m.bid, m.dst, m.args, m.reply), {})
    case Collect(i) => Set(s, i, TakeBatch(s.peers[i]), {})
    case Deliver(i) => Set(s, i, ApplyNext(s.peers[i]), {})
    case Crash(i) => Set(s, i, Restart(s.peers[i]), {})
  }

  /** The state after an enabled step.  A step that would panic leaves the state as it is;
      `Theorems.NoPanic` shows that there is no such step. */
  function After(s: System, step: Step): System
    requires Enabled(s, step)
  {
    if InBounds(s, step) then Do(s, step) else s
  }

  /** The states of a run and the steps between them. */
  datatype Run = Run(states: seq<System>, steps: seq<Step>)

  ghost predicate Takes(r: Run, k: nat)
    requires k < |r.steps| && |r.states| == |r.steps| + 1
  {
    Enabled(r.states[k], r.steps[k]) && r.states[k + 1] == After(r.states[k], r.steps[k])
  }

  /** A run of n peers: it starts with fresh ones, and each step is one the source could take. */
  ghost predicate IsRun(n: nat, r: Run) {
    && |r.states| == |r.steps| + 1 && r.states[0] == Init(n)
    && forall k :: 0 <= k < |r.steps| ==> Takes(r, k)
  }
}
