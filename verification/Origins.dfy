/** Where the messages of a run come from. */
module Origins {
  import opened Node
  import opened Cluster

  /** The step that put a message into the network. */
  lemma {:induction false} Entered(r: Run, a: nat, b: nat, m: Message) returns (c: nat)
    requires a <= b < |r.states| && m !in r.states[a].net && m in r.states[b].net
    ensures a <= c < b && m !in r.states[c].net && m in r.states[c + 1].net
    decreases b
  {
    c := b - 1;
    if m in r.states[b - 1].net {
      c := Entered(r, a, b - 1, m);
    }
  }

  lemma NewRequest(s: System, step: Step, m: Message)
    requires Enabled(s, step) && m.AppendReq? && m !in s.net && m in After(s, step).net
    ensures InBounds(s, step) && step == Issue(m.src, m.bid, m.dst)
    ensures m.args == Request(s.peers[m.src], s.peers[m.src].broadcasts[m.bid], m.dst)
  {
    hide Request, SendInBounds, HandleAppend, HandleVote, AppendReturn, VoteReturn;
  }

  lemma NewReply(s: System, step: Step, m: Message)
    requires Enabled(s, step) && m.AppendRep? && m !in s.net && m in After(s, step).net
    ensures step == ReceiveAppend(AppendReq(m.src, m.dst, m.bid, m.args)) && m.dst < |s.peers|
    ensures m.reply == HandleAppend(s.peers[m.dst], m.args).1
  {
    hide Request, SendInBounds, HandleAppend, HandleVote, AppendReturn, VoteReturn;
  }

  /** Every request was cut from the log its sender had when it sent it, as leader of its term. */
  lemma RequestSent(n: nat, r: Run, a: nat, m: Message) returns (c: nat)
    requires IsRun(n, r) && a < |r.states| && m in r.states[a].net && m.AppendReq?
    ensures c < a && Enabled(r.states[c], Issue(m.src, m.bid, m.dst)) && InBounds(r.states[c], Issue(m.src, m.bid, m.dst))
    ensures m.args == Request(r.states[c].peers[m.src], r.states[c].peers[m.src].broadcasts[m.bid], m.dst)
  {
    hide Enabled, InBounds, Request, After;
    c := Entered(r, 0, a, m);
    assert Takes(r, c);
    NewRequest(r.states[c], r.steps[c], m);
  }

  /** Every reply is what its sender answered to the request, at some moment since it was not yet
      in the network. */
  lemma ReplySent(n: nat, r: Run, a: nat, b: nat, m: Message) returns (c: nat)
    requires IsRun(n, r) && a <= b < |r.states| && m.AppendRep? && m !in r.states[a].net && m in r.states[b].net
    ensures a <= c < b && m.dst < |r.states[c].peers|
    ensures r.steps[c] == ReceiveAppend(AppendReq(m.src, m.dst, m.bid, m.args))
    ensures m.reply == HandleAppend(r.states[c].peers[m.dst], m.args).1
  {
    hide Enabled, After, HandleAppend;
    c := Entered(r, a, b, m);
    assert Takes(r, c);
    NewReply(r.states[c], r.steps[c], m);
  }
}
