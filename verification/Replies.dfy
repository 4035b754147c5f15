/** What became of a reply: from the send of a call, over the run, to its row and to what Control is told. */
module Replies {
  import opened Basics
  import opened Rows
  import opened Protocol
  import opened Invariant
  import Preservation
  import Theorems
  import Sql

  /** The row of a call whose tool replied so. */
  predicate RecordedAs(reply: Reply, row: Call) {
    match reply
    case Result => row.state == Succeeded && row.code == NoCode && row.usage == Some(1)
    case ToolError => row.state == Failed && row.code == ToolFailed && row.usage == Some(1)
    case Answer(told) => row.state == Failed && row.code == told && row.usage == Some(1)
    case NoOutcome(told) => row.state == Unknown && row.code == told && row.usage == None
  }

  /** What Control is told of it. */
  predicate ReportedAs(reply: Reply, report: Report) {
    match reply
    case Result => report.outcome == OutSucceeded && report.units == Some(1)
    case ToolError => report.outcome == OutFailed && report.units == Some(1)
    case Answer(_) => report.outcome == OutFailed && report.units == Some(1)
    case NoOutcome(_) => report.outcome == OutUnknown && report.units == None
  }

  // ---------------------------------------------------------------- the send stays on record

  lemma {:induction false} SendStays(r: Run, i: nat, j: nat, n: nat)
    requires ValidRun(r) && i <= j < |r.states| && n < |r.states[i].sends|
    ensures n < |r.states[j].sends| && r.states[j].sends[n] == r.states[i].sends[n]
    decreases j
  {
    hide Inv, Next, Init, CallsEvolve, GrantsEvolve, MarksEvolve;
    if i < j {
      SendStays(r, i, j - 1, n);
      Theorems.RunStep(r, j - 1);
    }
  }

  lemma {:induction false} ExitStays(r: Run, i: nat, j: nat, c: Id)
    requires ValidRun(r) && i <= j < |r.states| && c in r.states[i].exits
    ensures c in r.states[j].exits && r.states[j].exits[c] == r.states[i].exits[c]
    decreases j
  {
    hide Inv, Next, Init, CallsEvolve, GrantsEvolve, MarksEvolve;
    if i < j {
      ExitStays(r, i, j - 1, c);
      Theorems.RunStep(r, j - 1);
    }
  }

  // ---------------------------------------------------------------- the recorded outcome

  /** The sender whose update takes the row out of SENT writes the outcome it holds. */
  lemma Concluded(s: State, s': State, t: Tid, wire: Wire, c: Id)
    requires Next(s, SConclude(t, wire), s') && c in s.db.calls && s.db.calls[c].state == Sent
    requires c in s'.db.calls && s'.db.calls[c].state != Sent
    ensures t in s.threads && s.threads[t].Concluding? && s.threads[t].call == c
    ensures var row', pc := s'.db.calls[c], s.threads[t];
      && row'.state == pc.state && row'.code == pc.code && row'.usage == (if pc.state == Unknown then None else Some(1))
      && row'.dispatch == s.db.calls[c].dispatch && row'.observations == s.db.calls[c].observations
      && (row'.Reportable() && row'.dispatch.Some? ==> c in s'.exits && s'.exits[c].report == ReportOf(row'))
  {
    var Concluding(id, state, code) := s.threads[t];
    var u := Sql.SetOutcome(s.db.calls, id, state, code, if state == Unknown then None else Some(1), Sent, s.now);
    LeftRow(s, s', t, id, u, wire);
  }

  lemma LeftRow(s: State, s': State, t: Tid, id: Id, u: Sql.CallUpdate, wire: Wire)
    requires Left(s, s', t, id, u, wire)
    ensures s'.db.calls == s.db.calls || s'.db.calls == u.calls
    ensures var out := s'.db.calls != s.db.calls && u.changed == 1 && id in u.calls && u.calls[id].Reportable();
      out && u.calls[id].dispatch.Some? ==> id in s'.exits && s'.exits[id].report == ReportOf(u.calls[id])
  {
    hide ReportOf;
    var s1 := if wire == LostBefore then s else Leave(s, t, id, u);
    assert s'.db == s1.db && s'.exits == s1.exits;
  }

  /** The one send of the call is the one its sender holds the outcome of. */
  lemma HeldOutcome(s: State, t: Tid, c: Id, n: nat)
    requires Inv(s) && t in s.threads && s.threads[t].Concluding? && s.threads[t].call == c
    requires n < |s.sends| && s.sends[n].call == c
    ensures Means(s.sends[n].reply, s.threads[t].state, s.threads[t].code)
  {
    hide CallsOk, ThreadsOk, ControlOk, ReportsOk, GrantsOk, HistoryOk;
    assert ThreadOk(s, t, s.threads[t]) by { Preservation.Knows(s, t); }
    var i :| 0 <= i < |s.sends| && s.sends[i].call == c && s.sends[i].sender == t
             && Means(s.sends[i].reply, s.threads[t].state, s.threads[t].code);
    assert SendsOk(s);
    assert i == n;
  }

  /** From the send of a call to its row: when a sender's update takes the row out of SENT, the row records exactly
      what the tool replied to the one send, and that is what is to be reported. */
  lemma ReplyDecidesTheOutcome(r: Run, i: nat, j: nat, t: Tid, c: Id, reply: Reply)
    requires ValidRun(r) && i < j < |r.steps| && r.steps[i] == SSend(t, reply)
    requires t in r.states[i].threads && r.states[i].threads[t].Sending? && r.states[i].threads[t].call == c
    requires r.steps[j].SConclude? && c in r.states[j].db.calls && r.states[j].db.calls[c].state == Sent
    requires c in r.states[j + 1].db.calls && r.states[j + 1].db.calls[c].state != Sent
    ensures RecordedAs(reply, r.states[j + 1].db.calls[c])
    ensures c in r.states[j + 1].exits && ReportedAs(reply, r.states[j + 1].exits[c].report)
    ensures r.states[j + 1].exits[c].report.sequence == 0
  {
    hide Next, Init, Inv;
    Theorems.MarkerPrecedesSend(r, i);
    var n := |r.states[i].sends|;
    assert r.states[i + 1].sends[n] == SendEvent(c, t, reply);
    SendStays(r, i + 1, j, n);
    var s, s' := r.states[j], r.states[j + 1];
    Concluded(s, s', r.steps[j].t, r.steps[j].wire, c);
    Preservation.RunInv(r, j);
    HeldOutcome(s, r.steps[j].t, c, n);
    Preservation.InvCall(s, c);
  }

  /** And what is filed at the first sequence later on is that report, unless the call was settled before an
      observation of it was recorded. */
  lemma ReplyDecidesTheReport(r: Run, i: nat, j: nat, m: nat, t: Tid, c: Id, reply: Reply, f: Filed)
    requires ValidRun(r) && i < j < |r.steps| && j < m < |r.states| && r.steps[i] == SSend(t, reply)
    requires t in r.states[i].threads && r.states[i].threads[t].Sending? && r.states[i].threads[t].call == c
    requires r.steps[j].SConclude? && c in r.states[j].db.calls && r.states[j].db.calls[c].state == Sent
    requires c in r.states[j + 1].db.calls && r.states[j + 1].db.calls[c].state != Sent
    requires f in r.states[m].reports && f.call == c && f.report.sequence == 0 && c !in r.states[m].early
    ensures ReportedAs(reply, f.report)
  {
    hide Next, Init, CallsOk, ThreadsOk, ControlOk, GrantsOk, SendsOk, HistoryOk;
    ReplyDecidesTheOutcome(r, i, j, t, c, reply);
    ExitStays(r, j + 1, m, c);
    Preservation.RunInv(r, m);
    assert FiledOk(r.states[m], f);
  }

  // ---------------------------------------------------------------- the send context

  /** No send context outlasts the call's deadline or the send timeout after its marker. */
  lemma SendContextIsBounded(r: Run, i: nat, c: Id)
    requires ValidRun(r) && i < |r.states| && c in r.states[i].marks
    ensures c in r.states[i].db.calls && r.states[i].db.calls[c].marker.Some?
    ensures var s, row := r.states[i], r.states[i].db.calls[c];
      s.marks[c].bound <= row.deadline && s.marks[c].bound <= row.marker.value + s.opts.sendTimeout
  {
    hide ValidRun;
    Preservation.RunInv(r, i);
    assert c in r.states[i].db.calls by { Theorems.MarkedIsRecorded(r.states[i], c); }
    Preservation.InvCall(r.states[i], c);
  }

  /** It is the earlier of the two when it starts, and it starts only after the grant, the descriptor and the server
      were read. */
  lemma SendContextStarts(s: State, s': State, t: Tid, readable: bool)
    requires Next(s, SStartSend(t, readable), s')
    ensures t in s.threads && s.threads[t].Qualifying? && t in s'.threads
    ensures readable ==> s'.threads[t].Opening? && s'.threads[t].call == s.threads[t].call
    ensures var timeout, deadline := s.now + s.opts.sendTimeout, s.threads[t].row.deadline;
      readable ==>
        && s'.threads[t].bound <= timeout && s'.threads[t].bound <= deadline
        && (s'.threads[t].bound == timeout || s'.threads[t].bound == deadline)
    ensures !readable ==> s'.threads[t] == Canceling(s.threads[t].call, GrantNotExecutable)
  {
  }
}
