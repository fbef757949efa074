/** The Raft peer as the source writes it: an object whose critical sections update its fields.

  Every method is one critical section of src/raft/raft.go (or the part of one up to its first
  write to disk), proved to do to the peer exactly what the function of the same purpose in module
  Node does.
 */
module RaftNode {
  import opened Logs
  import opened Consensus
  import opened Node

  class Persister {
    var raftstate: Disk
    var snapshot: seq<bv8>   // kept for the service above; the peer does not use it

    constructor ()
      ensures raftstate == Empty && snapshot == []
    {
      raftstate, snapshot := Empty, [];
    }

    method SaveRaftState(state: Disk)
      modifies this`raftstate
      ensures raftstate == state
    {
      raftstate := state;
    }

    method ReadRaftState() returns (state: Disk)
      ensures state == raftstate
    {
      state := raftstate;
    }

    /** Both parts change together. */
    method SaveStateAndSnapshot(state: Disk, snap: seq<bv8>)
      modifies this
      ensures raftstate == state && snapshot == snap
    {
      raftstate, snapshot := state, snap;
    }

    /** A copy is independent: later writes to either do not show in the other. */
    method Copy() returns (np: Persister)
      ensures fresh(np) && np.raftstate == raftstate && np.snapshot == snapshot
    {
      np := new Persister();
      np.raftstate := raftstate;
      np.snapshot := snapshot;
    }
  }

  class Raft {
    const me: nat
    const n: nat
    const persister: Persister
    const nextIndex: array<nat>
    const matchIndex: array<nat>

    var role: Role
    var currentTerm: nat
    var voteFor: int
    var log: Log
    var commitIndex: nat
    var lastApplied: nat

    // State of goroutines that outlive the critical section that started them.
    var election: Election
    var broadcasts: seq<Broadcast>
    var applyTo: nat
    var stream: seq<ApplyMsg>

    ghost predicate Valid()
      reads this
    {
      nextIndex != matchIndex && nextIndex.Length == n && matchIndex.Length == n && |log| >= 1
    }

    ghost function Value(): Peer
      reads this, persister, nextIndex, matchIndex
    {
      Peer(me, n, role, currentTerm, voteFor, log, commitIndex, lastApplied, nextIndex[..], matchIndex[..],
           election, broadcasts, applyTo, stream, persister.raftstate)
    }

    /** Make, with an empty or a written persister. */
    constructor Make(n: nat, me: nat, persister: Persister)
      requires |StoredLog(persister.raftstate)| >= 1
      ensures Valid() && fresh(nextIndex) && fresh(matchIndex) && this.persister == persister
      ensures Value() == Boot(me, n, persister.raftstate)
    {
      this.n, this.me, this.persister := n, me, persister;
      role, currentTerm, voteFor := Follower, 0, NOBODY;
      commitIndex, lastApplied := 0, 0;
      log := [SENTINEL];
      nextIndex := new nat[n](i => 0);
      matchIndex := new nat[n](i => 0);
      election, broadcasts, applyTo, stream := NO_ELECTION, [], 0, [];
      new;
      var data := persister.ReadRaftState();
      ReadPersist(data);
      assert nextIndex[..] == Filled(n, 0) && matchIndex[..] == Filled(n, 0);
    }

    method Persist()
      requires Valid()
      modifies persister
      ensures Valid() && Value() == Node.Persist(old(Value()))
    {
      persister.SaveRaftState(Saved(currentTerm, voteFor, log));
    }

    method ReadPersist(data: Disk)
      requires Valid() && |StoredLog(data)| >= 1
      modifies this
      ensures Valid()
      ensures data.Empty? ==> Value() == old(Value())
      ensures data.Saved? ==> Value() == old(Value()).(currentTerm := data.term, voteFor := data.vote, log := data.log)
    {
      if data.Empty? {
        return;
      }
      currentTerm, voteFor, log := data.term, data.vote, data.log;
    }

    /** The opening of both handlers, up to and including its write to disk. */
    method AdoptTerm(term: nat)
      requires Valid()
      modifies this, persister
      ensures Valid() && Value() == StepDown(old(Value()), term)
    {
      if currentTerm < term {
        currentTerm := term;
        voteFor := NOBODY;
        role := Follower;
        Persist();
      }
    }

    method RequestVote(args: VoteArgs) returns (reply: VoteReply)
      requires Valid()
      modifies this, persister
      ensures Valid() && (Value(), reply) == HandleVote(StepDown(old(Value()), args.term), args)
    {
      if currentTerm <= args.term {
        AdoptTerm(args.term);
        if voteFor == NOBODY || voteFor == args.candidateId {
          var lastLogIndex := |log| - 1;
          var lastLogTerm := log[lastLogIndex].term;
          if lastLogTerm < args.lastLogTerm || (lastLogTerm == args.lastLogTerm && lastLogIndex <= args.lastLogIndex) {
            voteFor := args.candidateId;
            role := Follower;
            Persist();
            reply := VoteReply(currentTerm, true);
            return;
          }
        }
      }
      reply := VoteReply(currentTerm, false);
    }

    /** Whether the log already holds the whole batch. */
    method IsMatch(nextIndex: nat, entries: seq<Entry>) returns (isMatch: bool)
      requires 1 <= nextIndex <= |log|
      ensures isMatch == AlreadyHeld(log, nextIndex, entries)
    {
      isMatch := true;
      var end := |log| - 1;
      var i := 0;
      while isMatch && i < |entries|
        invariant 0 <= i <= |entries|
        invariant isMatch ==> forall x :: 0 <= x < i ==> HeldAt(log, nextIndex + x, entries[x])
        invariant !isMatch ==> !AlreadyHeld(log, nextIndex, entries)
        decreases |entries| - i, isMatch
      {
        var e := entries[i];
        if end < nextIndex + i {
          isMatch := false;
        } else if log[nextIndex + i].term != e.term {
          isMatch := false;
        }
        i := i + 1;
      }
    }

    /** The first index of the conflicting term, found by walking back. */
    method ConflictFirst(prev: nat) returns (first: nat)
      requires prev < |log|
      ensures first == FirstOfRun(log, prev)
    {
      first := prev;
      var i := prev - 1;
      while i >= 0
        invariant -1 <= i < prev && first == i + 1
        invariant forall k :: first <= k <= prev ==> log[k].term == log[prev].term
        invariant FirstOfRun(log, first) == FirstOfRun(log, prev)
      {
        if log[i].term != log[prev].term {
          break;
        }
        first := first - 1;
        i := i - 1;
      }
    }

    /** The consistency check has passed: take the batch and the leader's commit index. */
    method TakeEntries(args: AppendArgs)
      requires Valid() && Consistent(log, args)
      modifies this, persister
      ensures Valid()
      ensures Value() == Node.Persist(old(Value()).(role := Follower, log := Reconcile(old(log), args.prevLogIndex, args.entries),
                                                    commitIndex := AdvanceCommit(old(commitIndex), args)))
    {
      hide AlreadyHeld;
      role := Follower;
      var isMatch := IsMatch(args.prevLogIndex + 1, args.entries);
      if !isMatch {
        log := log[..args.prevLogIndex + 1] + args.entries;
      }
      var indexOfLastOfNewEntry := args.prevLogIndex + |args.entries|;
      if args.leaderCommit > commitIndex {
        commitIndex := args.leaderCommit;
        if commitIndex > indexOfLastOfNewEntry {
          commitIndex := indexOfLastOfNewEntry;
        }
      }
      Persist();
    }

    method AppendEntries(args: AppendArgs) returns (reply: AppendReply)
      requires Valid()
      modifies this, persister
      ensures Valid() && (Value(), reply) == HandleAppend(StepDown(old(Value()), args.term), args)
    {
      hide Reconcile, AdvanceCommit;
      if currentTerm <= args.term {
        AdoptTerm(args.term);
        if |log| > args.prevLogIndex && log[args.prevLogIndex].term == args.prevLogTerm {
          TakeEntries(args);
          reply := AppendReply(currentTerm, 0, 0, true);
          return;
        } else if |log| < args.prevLogIndex + 1 {
          reply := AppendReply(currentTerm, 0, |log|, false);
          return;
        } else {
          var first := ConflictFirst(args.prevLogIndex);
          reply := AppendReply(currentTerm, log[args.prevLogIndex].term, first, false);
          return;
        }
      }
      reply := AppendReply(currentTerm, 0, 0, false);
    }

    /** Starts an election and returns the request that goes to every other peer. */
    method StartElection() returns (args: VoteArgs)
      requires Valid()
      modifies this, persister
      ensures Valid() && Value() == Node.StartElection(old(Value())) && args == BallotRequest(Value())
    {
      role := Candidate;
      currentTerm := currentTerm + 1;
      voteFor := me;
      election := Election(currentTerm, 1, Others(n, me), {});
      Persist();
      var lastLogIndex := |log| - 1;
      args := VoteArgs(currentTerm, me, lastLogIndex, log[lastLogIndex].term);
    }

    method OnVoteReply(from: nat, args: VoteArgs, reply: VoteReply)
      requires Valid()
      modifies this, persister, nextIndex, matchIndex
      ensures Valid() && Value() == VoteReturn(old(Value()), from, args, reply)
    {
      if currentTerm != args.term {
        return;
      }
      if !reply.granted {
        if currentTerm < reply.term {
          currentTerm := reply.term;
          voteFor := NOBODY;
          role := Follower;
          Persist();
        }
        election := election.(waiting := election.waiting - {from});
      } else {
        election := election.(nVotes := election.nVotes + 1, waiting := election.waiting - {from},
                              granted := election.granted + {from});
        if role == Candidate && election.nVotes >= n / 2 + 1 {
          role := Leader;
          ResetIndices();
          Persist();
        }
      }
    }

    /** A new leader assumes every peer's log ends where its own does. */
    method ResetIndices()
      requires Valid()
      modifies nextIndex, matchIndex
      ensures nextIndex[..] == Filled(n, |log|) && matchIndex[..] == Filled(n, 0)
    {
      var i := 0;
      while i < n
        invariant 0 <= i <= n
        invariant forall j :: 0 <= j < i ==> nextIndex[j] == |log| && matchIndex[j] == 0
      {
        nextIndex[i] := |log|;
        matchIndex[i] := 0;
        i := i + 1;
      }
    }

    method Start(command: Command) returns (index: int, term: nat, isLeader: bool)
      requires Valid()
      modifies this, persister
      ensures Valid() && Value() == Node.Start(old(Value()), command)
      ensures isLeader == (old(role) == Leader) && term == old(currentTerm)
      ensures index == if isLeader then |old(log)| else -1
    {
      index, term, isLeader := -1, currentTerm, role == Leader;
      if isLeader {
        log := log + [Entry(command, currentTerm)];
        index := |log| - 1;
        Persist();
        broadcasts := broadcasts + [Broadcast(index, currentTerm, commitIndex, 1, false, map[], {})];
      }
    }

    method BroadcastHeartbeat()
      requires Valid()
      modifies this
      ensures Valid() && Value() == Heartbeat(old(Value()))
    {
      if role == Leader {
        var index := |log| - 1;
        broadcasts := broadcasts + [Broadcast(index, currentTerm, commitIndex, 1, false, map[], {})];
      }
    }

    /** Builds the request that goroutine `dst` of a broadcast sends next. */
    method PrepareAppend(bid: nat, dst: nat) returns (args: AppendArgs)
      requires Valid() && bid < |broadcasts| && SendInBounds(Value(), broadcasts[bid], dst)
      modifies this
      ensures Valid() && Value() == Send(old(Value()), bid, dst)
      ensures args == Request(old(Value()), old(broadcasts)[bid], dst)
    {
      var b := broadcasts[bid];
      var next := nextIndex[dst];
      var prevLogIndex := next - 1;
      var entries := [];
      if next < b.index + 1 {
        entries := log[next..b.index + 1];
      }
      args := AppendArgs(b.term, me, prevLogIndex, log[prevLogIndex].term, entries, b.commitIndex);
      broadcasts := broadcasts[bid := b.(calls := b.calls[dst := args])];
    }

    /** getNextIndex: search back for the reported term, then forward to its last entry. */
    method GetNextIndex(reply: AppendReply, nextIndex: nat) returns (next: nat)
      requires NextIndexInBounds(log, reply, nextIndex)
      ensures next == Node.GetNextIndex(log, reply, nextIndex)
    {
      if reply.conflictTerm == 0 {
        next := reply.conflictFirstIndex;
        return;
      }
      var conflictIndex := reply.conflictFirstIndex;
      if log[conflictIndex].term < reply.conflictTerm {
        next := reply.conflictFirstIndex;
        return;
      }
      var i := conflictIndex;
      while i > 0
        invariant 0 <= i == conflictIndex <= reply.conflictFirstIndex
        invariant SearchBack(log, i, reply.conflictTerm) == SearchBack(log, reply.conflictFirstIndex, reply.conflictTerm)
      {
        if log[i].term == reply.conflictTerm {
          break;
        }
        conflictIndex := conflictIndex - 1;
        i := i - 1;
      }
      assert conflictIndex == SearchBack(log, reply.conflictFirstIndex, reply.conflictTerm);
      if conflictIndex == 0 {
        next := reply.conflictFirstIndex;
        return;
      }
      ghost var start := conflictIndex;
      i := conflictIndex + 1;
      while i < nextIndex
        invariant i == conflictIndex + 1 && start <= conflictIndex < nextIndex
        invariant SearchForward(log, conflictIndex, nextIndex, reply.conflictTerm) == SearchForward(log, start, nextIndex, reply.conflictTerm)
      {
        if log[i].term != reply.conflictTerm {
          break;
        }
        conflictIndex := conflictIndex + 1;
        i := i + 1;
      }
      next := conflictIndex + 1;
    }

    method OnAppendReply(bid: nat, from: nat, args: AppendArgs, reply: AppendReply)
      requires Valid() && bid < |broadcasts| && ReturnInBounds(Value(), bid, from, args, reply)
      modifies this, persister, nextIndex, matchIndex
      ensures Valid() && Value() == AppendReturn(old(Value()), bid, from, args, reply)
    {
      if currentTerm != args.term {
        return;
      }
      if !reply.success {
        if args.term < reply.term {
          currentTerm := reply.term;
          voteFor := NOBODY;
          role := Follower;
          Persist();
        } else {
          var next := GetNextIndex(reply, args.prevLogIndex + 1);
          nextIndex[from] := next;
          broadcasts := broadcasts[bid := broadcasts[bid].(calls := broadcasts[bid].calls - {from})];
        }
      } else {
        OnSuccess(bid, from);
      }
    }

    method OnSuccess(bid: nat, from: nat)
      requires Valid() && bid < |broadcasts| && from < n && broadcasts[bid].index < |log|
      modifies this, nextIndex, matchIndex
      ensures Valid() && Value() == CountReplica(old(Value()), bid, from)
    {
      var b := broadcasts[bid];
      if nextIndex[from] < b.index + 1 {
        nextIndex[from] := b.index + 1;
        matchIndex[from] := b.index;
      }
      b := b.(nReplica := b.nReplica + 1, calls := b.calls - {from}, acked := b.acked + {from});
      if !b.isAgree && role == Leader && b.nReplica >= n / 2 + 1 {
        b := b.(isAgree := true);
        if commitIndex < b.index && log[b.index].term == currentTerm {
          commitIndex := b.index;
        }
      }
      broadcasts := broadcasts[bid := b];
    }

    /** One round of the apply loop: everything committed so far goes out, in order. */
    method ApplyEntries()
      requires Valid() && lastApplied == applyTo <= commitIndex < |log|
      modifies this
      ensures Valid() && Value() == Drain(TakeBatch(old(Value())))
    {
      applyTo := commitIndex;
      ghost var start := Value();
      var i := lastApplied + 1;
      while i <= applyTo
        invariant Valid() && i == lastApplied + 1 && lastApplied <= applyTo < |log|
        invariant applyTo == start.applyTo && lastApplied <= Value().applyTo < |Value().log|
        invariant start.lastApplied <= start.applyTo < |start.log| && Drain(Value()) == Drain(start)
      {
        stream := stream + [ApplyMsg(i, log[i].command)];
        lastApplied := i;
        i := i + 1;
      }
    }
  }

  /** ApplyNext until the batch is done. */
  ghost function Drain(p: Peer): Peer
    requires p.lastApplied <= p.applyTo < |p.log|
    decreases p.applyTo - p.lastApplied
  {
    if p.lastApplied < p.applyTo then Drain(ApplyNext(p)) else p
  }
}
