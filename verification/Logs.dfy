/** Raft logs, and what it means for a log to be backed by the logs of leaders.

  A log is a sequence whose element 0 is a sentinel of term 0; client entries start at index 1.
  The central notion is `Backed(g, log)`: every entry of term t in `log`, together with everything
  before it, is the corresponding prefix of the log `g[t]` of the leader of term t.  Log Matching,
  sortedness of terms and the behaviour of AppendEntries all follow from it without induction.
 */
module Logs {

  datatype Command = NoCommand | Client(payload: string)

  datatype Entry = Entry(command: Command, term: nat)

  type Log = seq<Entry>

  /** Leader logs by term. */
  type LeaderLogs = map<nat, Log>

  const SENTINEL := Entry(NoCommand, 0)

  function LastTerm(log: Log): nat
    requires |log| >= 1
  {
    log[|log| - 1].term
  }

  /** The logs have identical entries at every index up to and including `k`. */
  ghost predicate Agree(a: Log, b: Log, k: nat) {
    && k < |a| && k < |b|
    && forall i :: 0 <= i <= k ==> a[i] == b[i]
  }

  /** The log holds an entry of term `t` at index `k`. */
  ghost predicate Has(log: Log, t: nat, k: nat) {
    k < |log| && log[k].term == t
  }

  ghost predicate Backed(g: LeaderLogs, log: Log) {
    && |log| >= 1 && log[0] == SENTINEL
    && forall k :: 1 <= k < |log| ==> log[k].term in g && Agree(log, g[log[k].term], k)
  }

  ghost predicate TermsAtMost(log: Log, t: nat) {
    forall k :: 0 <= k < |log| ==> log[k].term <= t
  }

  /** What holds of the collection of leader logs: each is backed and never mentions a later term. */
  ghost predicate LeaderLogsOk(g: LeaderLogs) {
    forall t :: t in g ==> t >= 1 && Backed(g, g[t]) && TermsAtMost(g[t], t)
  }

  /** The term comparison at the heart of the vote check (section 5.4.1 of the Raft paper). */
  predicate UpToDate(lastIndex: nat, lastTerm: nat, log: Log)
    requires |log| >= 1
  {
    LastTerm(log) < lastTerm || (LastTerm(log) == lastTerm && |log| - 1 <= lastIndex)
  }

  /** `b` is `a` with entries of term `t` added at the end. */
  ghost predicate Extends(a: Log, b: Log, t: nat) {
    a <= b && forall k :: |a| <= k < |b| ==> b[k].term == t
  }

  /** A leader log only ever grows at the end, by entries of its own term; new terms may appear. */
  ghost predicate LogsGrow(g: LeaderLogs, g': LeaderLogs) {
    forall t :: t in g ==> t in g' && Extends(g[t], g'[t], t)
  }

  lemma BackedGrows(g: LeaderLogs, g': LeaderLogs, log: Log)
    requires Backed(g, log) && LogsGrow(g, g')
    ensures Backed(g', log)
  {
    forall k | 1 <= k < |log|
      ensures log[k].term in g' && Agree(log, g'[log[k].term], k)
    {
      assert Agree(log, g[log[k].term], k);
    }
  }

  /** Terms never decrease along a backed log. */
  lemma TermsSorted(g: LeaderLogs, log: Log, i: nat, j: nat)
    requires LeaderLogsOk(g) && Backed(g, log)
    requires i <= j < |log|
    ensures log[i].term <= log[j].term
  {
    if j > 0 {
      var t := log[j].term;
      assert Agree(log, g[t], j);
      assert log[i] == g[t][i];
    }
  }

  lemma TermsSortedContra(g: LeaderLogs, log: Log, i: nat, j: nat)
    requires LeaderLogsOk(g) && Backed(g, log)
    requires i < |log| && j < |log| && log[i].term < log[j].term
    ensures i < j
  {
    if j <= i {
      TermsSorted(g, log, j, i);
    }
  }

  lemma LeaderLogBacked(g: LeaderLogs, t: nat)
    requires LeaderLogsOk(g) && t in g
    ensures t >= 1 && Backed(g, g[t]) && TermsAtMost(g[t], t)
  {
  }

  /** Log Matching (section 5.3 of the Raft paper), for any two backed logs. */
  lemma SameTermSamePrefix(g: LeaderLogs, a: Log, b: Log, k: nat)
    requires Backed(g, a) && Backed(g, b)
    requires k < |a| && k < |b| && a[k].term == b[k].term
    ensures Agree(a, b, k)
  {
    if k > 0 {
      var t := a[k].term;
      assert Agree(a, g[t], k);
      assert Agree(b, g[t], k);
    }
  }

  /** A log that holds an entry of term t at k agrees with the leader log of t up to k. */
  lemma HasAgrees(g: LeaderLogs, log: Log, t: nat, k: nat)
    requires LeaderLogsOk(g) && Backed(g, log) && k >= 1 && Has(log, t, k)
    ensures t in g && Agree(log, g[t], k) && Has(g[t], t, k)
  {
    assert log[k].term in g;
  }

  lemma PrefixBacked(g: LeaderLogs, log: Log, m: nat)
    requires Backed(g, log) && 1 <= m <= |log|
    ensures Backed(g, log[..m])
  {
    var p := log[..m];
    forall k | 1 <= k < |p|
      ensures p[k].term in g && Agree(p, g[p[k].term], k)
    {
      assert Agree(log, g[log[k].term], k);
    }
  }

  /** The log has an entry of the same term as `e` at index `k`. */
  predicate HeldAt(log: Log, k: nat, e: Entry) {
    k < |log| && log[k].term == e.term
  }

  /** All of `entries` are already in `log` from index `next` on, judged by their terms. */
  predicate AlreadyHeld(log: Log, next: nat, entries: seq<Entry>) {
    forall i :: 0 <= i < |entries| ==> HeldAt(log, next + i, entries[i])
  }

  /** The log after a passed consistency check: unchanged if it holds the whole batch already,
      otherwise everything after `prev` is replaced by the batch. */
  function Reconcile(log: Log, prev: nat, entries: seq<Entry>): Log
    requires prev < |log|
  {
    if AlreadyHeld(log, prev + 1, entries) then log else log[..prev + 1] + entries
  }

  /** A follower that passes the consistency check against a batch cut from the leader log `lead`
      ends up agreeing with `lead` through the batch, and loses no entry on which it already agreed
      with `lead`, also beyond the batch. */
  lemma ReconcileWithLeader(g: LeaderLogs, lead: Log, log: Log, prev: nat, last: nat)
    requires Backed(g, lead) && Backed(g, log)
    requires prev <= last < |lead| && prev < |log| && log[prev].term == lead[prev].term
    ensures Agree(Reconcile(log, prev, lead[prev + 1..last + 1]), lead, last)
    ensures Backed(g, Reconcile(log, prev, lead[prev + 1..last + 1]))
    ensures forall k: nat :: Agree(log, lead, k) ==> Agree(Reconcile(log, prev, lead[prev + 1..last + 1]), log, k)
  {
    var batch := lead[prev + 1..last + 1];
    SameTermSamePrefix(g, log, lead, prev);
    if AlreadyHeld(log, prev + 1, batch) {
      HeldBatchAgrees(g, lead, log, prev, last);
    } else {
      ReplacedIsPrefix(lead, log, prev, last);
      PrefixBacked(g, lead, last + 1);
      forall k: nat | Agree(log, lead, k)
        ensures Agree(lead[..last + 1], log, k)
      {
        if k >= last {
          AgreeingBatchHeld(lead, log, prev, last, k);
        }
      }
    }
  }

  lemma HeldBatchAgrees(g: LeaderLogs, lead: Log, log: Log, prev: nat, last: nat)
    requires Backed(g, lead) && Backed(g, log)
    requires prev <= last < |lead| && Agree(log, lead, prev)
    requires AlreadyHeld(log, prev + 1, lead[prev + 1..last + 1])
    ensures Agree(log, lead, last)
  {
    if last > prev {
      var batch := lead[prev + 1..last + 1];
      var i := last - prev - 1;
      assert HeldAt(log, prev + 1 + i, batch[i]) && batch[i] == lead[last];
      SameTermSamePrefix(g, log, lead, last);
    }
  }

  lemma ReplacedIsPrefix(lead: Log, log: Log, prev: nat, last: nat)
    requires prev <= last < |lead| && Agree(log, lead, prev)
    ensures log[..prev + 1] + lead[prev + 1..last + 1] == lead[..last + 1]
  {
    assert log[..prev + 1] == lead[..prev + 1];
  }

  lemma AgreeingBatchHeld(lead: Log, log: Log, prev: nat, last: nat, k: nat)
    requires prev <= last < |lead| && Agree(log, lead, k) && k >= last
    ensures AlreadyHeld(log, prev + 1, lead[prev + 1..last + 1])
  {
    var batch := lead[prev + 1..last + 1];
    forall i | 0 <= i < |batch|
      ensures HeldAt(log, prev + 1 + i, batch[i])
    {
      assert batch[i] == lead[prev + 1 + i];
    }
  }

  /** Figure 2 of the Raft paper, AppendEntries receiver rules 3 and 4: skip what matches, delete
      from the first conflict on, append what is missing. */
  function TruncateAndAppend(log: Log, next: nat, entries: seq<Entry>): Log
    requires next <= |log|
    decreases |entries|
  {
    if |entries| == 0 then log
    else if next == |log| then log + entries
    else if log[next].term != entries[0].term then log[..next] + entries
    else TruncateAndAppend(log, next + 1, entries[1..])
  }

  /** Replacing the whole suffix is Figure 2's rule, provided entries of equal index and term that
      precede the first conflict are equal, which Log Matching guarantees. */
  lemma {:induction false} ReconcileIsFigure2(log: Log, prev: nat, entries: seq<Entry>)
    requires prev < |log|
    requires forall i :: 0 <= i < |entries| && prev + 1 + i < |log| && log[prev + 1 + i].term == entries[i].term
                      ==> log[prev + 1 + i] == entries[i]
    ensures Reconcile(log, prev, entries) == TruncateAndAppend(log, prev + 1, entries)
    decreases |entries|
  {
    if |entries| == 0 {
    } else if prev + 1 == |log| {
      assert !HeldAt(log, prev + 1 + 0, entries[0]);
      assert log[..prev + 1] == log;
    } else if log[prev + 1].term != entries[0].term {
      assert !HeldAt(log, prev + 1 + 0, entries[0]);
    } else {
      var rest := entries[1..];
      forall i | 0 <= i < |rest| && prev + 2 + i < |log| && log[prev + 2 + i].term == rest[i].term
        ensures log[prev + 2 + i] == rest[i]
      {
        assert rest[i] == entries[i + 1];
        assert prev + 1 + (i + 1) == prev + 2 + i;
      }
      ReconcileIsFigure2(log, prev + 1, rest);
      HeldTail(log, prev + 1, entries);
      assert log[prev + 1] == entries[0];
      assert log[..prev + 1] + entries == log[..prev + 2] + rest;
    }
  }

  lemma HeldTail(log: Log, next: nat, entries: seq<Entry>)
    requires |entries| > 0 && next < |log| && log[next].term == entries[0].term
    ensures AlreadyHeld(log, next, entries) <==> AlreadyHeld(log, next + 1, entries[1..])
  {
    if AlreadyHeld(log, next, entries) {
      TailHeld(log, next, entries);
    }
    if AlreadyHeld(log, next + 1, entries[1..]) {
      WholeHeld(log, next, entries);
    }
  }

  lemma TailHeld(log: Log, next: nat, entries: seq<Entry>)
    requires |entries| > 0 && AlreadyHeld(log, next, entries)
    ensures AlreadyHeld(log, next + 1, entries[1..])
  {
    var rest := entries[1..];
    forall i | 0 <= i < |rest|
      ensures HeldAt(log, next + 1 + i, rest[i])
    {
      assert HeldAt(log, next + (i + 1), entries[i + 1]) && entries[i + 1] == rest[i];
    }
  }

  lemma WholeHeld(log: Log, next: nat, entries: seq<Entry>)
    requires |entries| > 0 && next < |log| && log[next].term == entries[0].term
    requires AlreadyHeld(log, next + 1, entries[1..])
    ensures AlreadyHeld(log, next, entries)
  {
    var rest := entries[1..];
    forall i | 0 <= i < |entries|
      ensures HeldAt(log, next + i, entries[i])
    {
      if i > 0 {
        assert HeldAt(log, next + 1 + (i - 1), rest[i - 1]) && entries[i] == rest[i - 1];
      }
    }
  }
}
