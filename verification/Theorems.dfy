/** The properties of whole runs of the service: every interleaving of replicas,
    reconcilers, operators, shutdowns, lost answers and crashes. */
module Theorems {
  import opened Basics
  import opened Rows
  import opened Protocol
  import opened Invariant
  import opened Preservation

  /** One step of a run. */
  lemma RunStep(r: Run, i: nat)
    requires ValidRun(r) && i < |r.steps|
    ensures Inv(r.states[i]) && Kept(r.states[i], r.states[i + 1], Actor(r.states[i], r.steps[i]))
  {
    hide Inv, Evolves, Next;
    RunInv(r, i);
    StepKept(r.states[i], r.steps[i], r.states[i + 1]);
  }

  // ---------------------------------------------------------------- call history

  /** Every step moves a row along one transition or leaves its state; a row begins as accepted. */
  lemma EachStepIsATransition(r: Run, i: nat, c: Id)
    requires ValidRun(r) && i < |r.steps| && c in r.states[i + 1].db.calls
    ensures c !in r.states[i].db.calls ==> r.states[i + 1].db.calls[c].state == Accepted
    ensures c in r.states[i].db.calls ==>
              var a, b := r.states[i].db.calls[c].state, r.states[i + 1].db.calls[c].state; a == b || Edge(a, b)
  {
    hide Inv, HistoryEvolves, MarksEvolve, GrantsEvolve, Next, Init, Later;
    RunStep(r, i);
    assert CallsEvolve(r.states[i], r.states[i + 1]);
  }

  /** The second state can be reached from the first: accepted comes before everything, admitted before all but denied,
      sent before its three outcomes, and unknown before the two it is settled to. */
  predicate Reaches(a: CallState, b: CallState) {
    || a == b || a.Accepted?
    || (a.Admitted? && !b.Accepted? && !b.Denied?)
    || ((a.Sent? || a.Unknown?) && (b.Succeeded? || b.Failed?))
    || (a.Sent? && b.Unknown?)
  }

  /** A sequence of transitions. */
  ghost predicate Transitions(path: seq<CallState>, a: CallState, b: CallState) {
    && |path| > 0 && path[0] == a && path[|path| - 1] == b
    && forall i | 0 <= i < |path| - 1 :: Edge(path[i], path[i + 1])
  }

  lemma {:induction false} TransitionsReach(path: seq<CallState>, a: CallState, b: CallState)
    requires Transitions(path, a, b)
    ensures Reaches(a, b)
    decreases |path|
  {
    if |path| > 1 {
      var init := path[..|path| - 1];
      TransitionsReach(init, a, init[|init| - 1]);
      assert Edge(path[|path| - 2], path[|path| - 1]);
    }
  }

  /** Reaching is exactly being joined by transitions. */
  lemma ReachesExactly(a: CallState, b: CallState)
    ensures Reaches(a, b) <==> exists path :: Transitions(path, a, b)
  {
    if Reaches(a, b) {
      var path :=
        if a == b then [a]
        else if Edge(a, b) then [a, b]
        else if a.Accepted? && (b.Sent? || b.Canceled?) then [a, Admitted, b]
        else if a.Accepted? then [a, Admitted, Sent, b]
        else [a, Sent, b];
      assert Transitions(path, a, b);
    }
    if path :| Transitions(path, a, b) { TransitionsReach(path, a, b); }
  }

  /** A row only ever moves forward along the transitions, whoever writes it and however late. */
  lemma {:induction false} RowsOnlyMoveForward(r: Run, i: nat, j: nat, c: Id)
    requires ValidRun(r) && i <= j < |r.states| && c in r.states[i].db.calls
    ensures c in r.states[j].db.calls
    ensures var a, b := r.states[i].db.calls[c], r.states[j].db.calls[c]; Later(a, b) && Reaches(a.state, b.state)
    decreases j
  {
    hide Inv, HistoryEvolves, MarksEvolve, GrantsEvolve, Next, Init;
    if i < j {
      RowsOnlyMoveForward(r, i, j - 1, c);
      RunStep(r, j - 1);
      assert CallsEvolve(r.states[j - 1], r.states[j]);
      assert Advances(r.states[j - 1].db.calls[c], r.states[j].db.calls[c]);
    }
  }

  /** The history of one call in any reachable state: the marker is set exactly in the four states
      after it; a canceled or denied call was never sent; recorded usage was sent for. */
  lemma CallHistory(r: Run, i: nat, c: Id)
    requires ValidRun(r) && i < |r.states| && c in r.states[i].db.calls
    ensures var s := r.states[i]; var row := s.db.calls[c];
      && (row.marker.Some? <==> row.state.Sent? || row.state.Succeeded? || row.state.Failed? || row.state.Unknown?)
      && (row.state.Canceled? || row.state.Denied? || row.state.Accepted? || row.state.Admitted? ==> !WasSent(s, c))
      && (row.usage.Some? && row.usage.value > 0 ==> row.usage.value == 1 && WasSent(s, c))
  {
    hide Inv, ValidRun;
    RunInv(r, i);
    InvCall(r.states[i], c);
    InvSends(r.states[i]);
  }

  /** A terminal row keeps its state, code and usage for the rest of the run, so a late
      sender never overwrites what was recorded. */
  lemma TerminalIsFinal(r: Run, i: nat, j: nat, c: Id)
    requires ValidRun(r) && i <= j < |r.states| && c in r.states[i].db.calls && r.states[i].db.calls[c].Terminal()
    ensures c in r.states[j].db.calls
    ensures var a, b := r.states[i].db.calls[c], r.states[j].db.calls[c];
      b.state == a.state && b.code == a.code && b.usage == a.usage && b.marker == a.marker
  {
    hide Inv, ValidRun;
    RowsOnlyMoveForward(r, i, j, c);
    RunInv(r, i);
    RunInv(r, j);
    InvCall(r.states[i], c);
    InvCall(r.states[j], c);
  }

  // ---------------------------------------------------------------- at most one send

  function SendsOf(sends: seq<SendEvent>, c: Id): nat {
    if |sends| == 0 then 0
    else SendsOf(sends[..|sends| - 1], c) + (if sends[|sends| - 1].call == c then 1 else 0)
  }

  lemma {:induction false} DistinctSends(sends: seq<SendEvent>, c: Id)
    requires forall i, j | 0 <= i < j < |sends| :: sends[i].call != sends[j].call
    ensures SendsOf(sends, c) <= 1
    ensures SendsOf(sends, c) == 0 <==> forall i | 0 <= i < |sends| :: sends[i].call != c
  {
    if |sends| > 0 {
      var init := sends[..|sends| - 1];
      DistinctSends(init, c);
      assert sends[|sends| - 1] == sends[|sends| - 1];
      assert forall i | 0 <= i < |init| :: init[i] == sends[i];
    }
  }

  /** Each call is sent at most once, after the marker its sender committed, and only by the
      thread that received Control's permission; a permission whose answer was lost is never used. */
  lemma AtMostOneSend(r: Run, i: nat, c: Id)
    requires ValidRun(r) && i < |r.states|
    ensures var s := r.states[i];
      && SendsOf(s.sends, c) <= 1
      && (forall k | 0 <= k < |s.sends| && s.sends[k].call == c ::
            && c in s.db.calls && s.db.calls[c].marker.Some?
            && c in s.marks && s.marks[c].sender == s.sends[k].sender
            && c in s.control && s.control[c].holder == Some(s.sends[k].sender))
      && (c in s.control && s.control[c].holder.None? ==> SendsOf(s.sends, c) == 0)
  {
    RunInv(r, i);
    var s := r.states[i];
    DistinctSends(s.sends, c);
    if c in s.db.calls { assert CallOk(s, c); }
  }

  lemma InvSends(s: State)
    requires Inv(s)
    ensures SendsOk(s)
  {
  }

  /** At the moment of the send the marker is already committed by the sending thread, and nothing was sent before. */
  lemma MarkerPrecedesSend(r: Run, i: nat)
    requires ValidRun(r) && i < |r.steps| && r.steps[i].SSend?
    ensures var s, t := r.states[i], r.steps[i].t;
      && t in s.threads && s.threads[t].Sending?
      && var c := s.threads[t].call;
      && c in s.db.calls && s.db.calls[c].marker.Some? && c in s.marks && s.marks[c].sender == t
      && SendsOf(s.sends, c) == 0
      && r.states[i + 1].sends == s.sends + [SendEvent(c, t, r.steps[i].reply)]
  {
    hide Inv, Init;
    var s, t := r.states[i], r.steps[i].t;
    assert Send(s, r.states[i + 1], t, r.steps[i].reply) by { assert Next(s, r.steps[i], r.states[i + 1]); }
    RunInv(r, i);
    Knows(s, t);
    InvCall(s, s.threads[t].call);
    InvSends(s);
    DistinctSends(s.sends, s.threads[t].call);
    assert !WasSent(s, s.threads[t].call);
  }

  // ---------------------------------------------------------------- conservation of usage

  function Usage(c: Call): nat {
    if c.usage.Some? then c.usage.value else 0
  }

  ghost function TotalUsage(calls: map<Id, Call>, ids: set<Id>): nat
    requires ids <= calls.Keys
  {
    if ids == {} then 0 else var c :| c in ids; Usage(calls[c]) + TotalUsage(calls, ids - {c})
  }

  lemma {:induction false} UsageOfUnused(calls: map<Id, Call>, ids: set<Id>, used: set<Id>)
    requires ids <= calls.Keys
    requires forall c | c in ids ::
        calls[c].usage.None? || calls[c].usage.value == 0 || (calls[c].usage.value == 1 && c in used)
    ensures TotalUsage(calls, ids) <= |ids * used|
    decreases ids
  {
    if ids != {} {
      var c :| c in ids && TotalUsage(calls, ids) == Usage(calls[c]) + TotalUsage(calls, ids - {c});
      UsageOfUnused(calls, ids - {c}, used);
      assert Usage(calls[c]) <= if c in used then 1 else 0;
      if c in used {
        assert ids * used == (ids - {c}) * used + {c};
        assert |ids * used| == |(ids - {c}) * used| + 1;
      } else {
        assert ids * used == (ids - {c}) * used;
      }
    }
  }

  lemma {:induction false} SentSetSize(sends: seq<SendEvent>)
    ensures |set i | 0 <= i < |sends| :: sends[i].call| <= |sends|
  {
    if |sends| > 0 {
      var init := sends[..|sends| - 1];
      SentSetSize(init);
      var all := set i | 0 <= i < |sends| :: sends[i].call;
      var most := set i | 0 <= i < |init| :: init[i].call;
      assert all <= most + {sends[|sends| - 1].call};
      SubsetSize(all, most + {sends[|sends| - 1].call});
    }
  }

  lemma UsageOfCall(s: State, c: Id)
    requires Inv(s) && c in s.db.calls
    ensures s.db.calls[c].usage.None? || s.db.calls[c].usage.value == 0
        || (s.db.calls[c].usage.value == 1 && WasSent(s, c))
  {
    hide Inv;
    InvCall(s, c);
  }

  /** The usage recorded over all calls never exceeds the number of sends. */
  lemma UsageNeverExceedsSends(r: Run, i: nat)
    requires ValidRun(r) && i < |r.states|
    ensures TotalUsage(r.states[i].db.calls, r.states[i].db.calls.Keys) <= |r.states[i].sends|
  {
    hide ValidRun, Inv;
    RunInv(r, i);
    var s := r.states[i];
    var used := set k | 0 <= k < |s.sends| :: s.sends[k].call;
    forall c | c in s.db.calls
      ensures s.db.calls[c].usage.None? || s.db.calls[c].usage.value == 0
          || (s.db.calls[c].usage.value == 1 && c in used)
    {
      UsageOfCall(s, c);
    }
    UsageOfUnused(s.db.calls, s.db.calls.Keys, used);
    SentSetSize(s.sends);
    SubsetSize(s.db.calls.Keys * used, used);
  }

  // ---------------------------------------------------------------- the revocation barrier

  /** The marker column and the history of markers agree. */
  lemma MarkedIsMarker(s: State, c: Id)
    requires Inv(s) && c in s.db.calls
    ensures c in s.marks <==> s.db.calls[c].marker.Some?
  {
    assert CallOk(s, c);
  }

  /** From the commit of REVOKING no send marker of the grant is ever committed, and no call of it is
      ever recorded; the grant never leaves the barrier. */
  lemma {:induction false} NoMarkerAfterRevocation(r: Run, i: nat, j: nat, g: Id)
    requires ValidRun(r) && i <= j < |r.states| && g in r.states[i].db.grants && r.states[i].db.grants[g].Withdrawn()
    ensures g in r.states[j].db.grants && r.states[j].db.grants[g].Withdrawn()
    ensures r.states[i].db.grants[g].state == Revoked ==> r.states[j].db.grants[g].state == Revoked
    ensures forall c | c in r.states[j].db.calls && r.states[j].db.calls[c].grant == g ::
              c in r.states[i].db.calls && r.states[j].db.calls[c].marker == r.states[i].db.calls[c].marker
    decreases j
  {
    hide Inv, HistoryEvolves, Next, Init;
    if i < j {
      NoMarkerAfterRevocation(r, i, j - 1, g);
      RunStep(r, j - 1);
      RunInv(r, j);
      var s, s' := r.states[j - 1], r.states[j];
      assert Evolves(s, s', Actor(s, r.steps[j - 1]));
      forall c | c in s'.db.calls && s'.db.calls[c].grant == g
        ensures c in s.db.calls && s'.db.calls[c].marker == s.db.calls[c].marker
      {
        assert c in s.db.calls && Advances(s.db.calls[c], s'.db.calls[c]);
        MarkedIsMarker(s, c);
        MarkedIsMarker(s', c);
      }
    }
  }

  /** Whenever a grant is REVOKED all its calls are terminal, and stay exactly so, although the open
      count was read before and outside the finalising transaction. */
  lemma RevokedMeansSettled(r: Run, i: nat, j: nat, g: Id)
    requires ValidRun(r) && i <= j < |r.states| && g in r.states[i].db.grants
        && r.states[i].db.grants[g].state == Revoked
    ensures forall c | c in r.states[j].db.calls && r.states[j].db.calls[c].grant == g ::
              && c in r.states[i].db.calls
              && r.states[j].db.calls[c].Terminal()
              && r.states[j].db.calls[c].state == r.states[i].db.calls[c].state
  {
    hide Inv, ValidRun;
    NoMarkerAfterRevocation(r, i, j, g);
    forall c | c in r.states[j].db.calls && r.states[j].db.calls[c].grant == g
      ensures c in r.states[i].db.calls && r.states[j].db.calls[c].Terminal()
          && r.states[j].db.calls[c].state == r.states[i].db.calls[c].state
    {
      RunInv(r, j);
      InvCall(r.states[j], c);
      RowsOnlyMoveForward(r, i, j, c);
      RunInv(r, i);
      InvCall(r.states[i], c);
    }
  }

  // ---------------------------------------------------------------- the withdrawn revision

  /** In every committed state a pending or active grant is bound to an approved revision with its digest. */
  lemma LiveGrantIsBound(r: Run, i: nat, g: Id)
    requires ValidRun(r) && i < |r.states| && g in r.states[i].db.grants && r.states[i].db.grants[g].Live()
    ensures var db := r.states[i].db; var k := KeyOfGrant(db.grants[g]);
      k in db.descriptors && db.descriptors[k].state == Approved
          && db.descriptors[k].digest == db.grants[g].descriptorDigest
  {
    hide Next, Init;
    RunInv(r, i);
    assert GrantOk(r.states[i].db, r.states[i].db.grants[g]);
  }

  /** Once a revision is disabled it stays so and no call of it is ever marked as sent, although the
      marker transaction reads only the grant. */
  lemma {:induction false} DisabledIsNeverMarked(r: Run, i: nat, j: nat, k: DescriptorKey)
    requires ValidRun(r) && i <= j < |r.states| && k in r.states[i].db.descriptors
        && r.states[i].db.descriptors[k].state == Disabled
    ensures k in r.states[j].db.descriptors && r.states[j].db.descriptors[k].state == Disabled
    ensures forall c | c in r.states[j].db.calls && KeyOfCall(r.states[j].db.calls[c]) == k
        && r.states[j].db.calls[c].marker.Some? ::
              c in r.states[i].db.calls && r.states[i].db.calls[c].marker == r.states[j].db.calls[c].marker
    decreases j
  {
    hide Inv, HistoryEvolves, Next, Init;
    if i < j {
      DisabledIsNeverMarked(r, i, j - 1, k);
      RunStep(r, j - 1);
      RunInv(r, j);
      var s, s' := r.states[j - 1], r.states[j];
      assert Evolves(s, s', Actor(s, r.steps[j - 1]));
      forall c | c in s'.db.calls && KeyOfCall(s'.db.calls[c]) == k && s'.db.calls[c].marker.Some?
        ensures c in s.db.calls && KeyOfCall(s.db.calls[c]) == k && s.db.calls[c].marker == s'.db.calls[c].marker
      {
        MarkedIsMarker(s', c);
        if c !in s.marks {
          MarkedNeedsApproved(s, s', Actor(s, r.steps[j - 1]), c);
        } else {
          MarkedIsRecorded(s, c);
          MarkedIsMarker(s, c);
          assert Advances(s.db.calls[c], s'.db.calls[c]);
        }
      }
    }
  }

  lemma MarkedIsRecorded(s: State, c: Id)
    requires Inv(s) && c in s.marks
    ensures c in s.db.calls
  {
  }

  /** A new marker means the revision of its call is approved. */
  lemma MarkedNeedsApproved(s: State, s': State, actor: Tid, c: Id)
    requires Inv(s) && Evolves(s, s', actor) && c in s'.marks && c !in s.marks
    ensures c in s.db.calls && c in s'.db.calls && KeyOfCall(s'.db.calls[c]) == KeyOfCall(s.db.calls[c])
    ensures KeyOfCall(s.db.calls[c]) in s.db.descriptors && s.db.descriptors[KeyOfCall(s.db.calls[c])].state == Approved
    ensures s.db.descriptors[KeyOfCall(s.db.calls[c])].digest == s.db.calls[c].descriptorDigest
  {
    assert CallOk(s, c);
    assert Advances(s.db.calls[c], s'.db.calls[c]);
    assert GrantOk(s.db, s.db.grants[s.db.calls[c].grant]);
  }

  // ---------------------------------------------------------------- one interval of executability

  predicate ExecutableAt(s: State, g: Id) {
    g in s.db.grants && s.db.grants[g].Executable(s.now)
  }

  /** A grant becomes executable only by a receipt recorded while it was still pending. */
  lemma ActivationIsAReceipt(r: Run, i: nat, g: Id)
    requires ValidRun(r) && i < |r.steps| && !ExecutableAt(r.states[i], g) && ExecutableAt(r.states[i + 1], g)
    ensures g in r.states[i].db.grants && r.states[i].db.grants[g].state == Pending
    ensures r.states[i + 1].db.grants[g].state == Active && r.states[i + 1].db.grants[g].receipt != ""
  {
    hide Inv, HistoryEvolves, Next, Init;
    RunStep(r, i);
    var s, s' := r.states[i], r.states[i + 1];
    assert GrantsEvolve(s.db, s'.db);
    assert g in s.db.grants ==> LaterGrant(s.db.grants[g], s'.db.grants[g]);
  }

  /** A grant that is neither pending nor executable is never executable again. */
  lemma {:induction false} NeverReactivated(r: Run, i: nat, j: nat, g: Id)
    requires ValidRun(r) && i <= j < |r.states| && g in r.states[i].db.grants
    requires r.states[i].db.grants[g].state != Pending && !ExecutableAt(r.states[i], g)
    ensures g in r.states[j].db.grants && r.states[j].db.grants[g].state != Pending && !ExecutableAt(r.states[j], g)
    decreases j
  {
    hide Inv, HistoryEvolves, Next, Init;
    if i < j {
      NeverReactivated(r, i, j - 1, g);
      RunStep(r, j - 1);
      var s, s' := r.states[j - 1], r.states[j];
      assert GrantsEvolve(s.db, s'.db);
      assert LaterGrant(s.db.grants[g], s'.db.grants[g]);
    }
  }

  /** A grant whose expiry has come is never executable again, and its expiry never changes. */
  lemma {:induction false} ExpiredStaysExpired(r: Run, i: nat, j: nat, g: Id)
    requires ValidRun(r) && i <= j < |r.states| && g in r.states[i].db.grants
    requires r.states[i].db.grants[g].expires.Some? && r.states[i].db.grants[g].expires.value <= r.states[i].now
    ensures g in r.states[j].db.grants && r.states[j].db.grants[g].expires == r.states[i].db.grants[g].expires
    ensures r.states[i].now <= r.states[j].now && !ExecutableAt(r.states[j], g)
    decreases j
  {
    hide Inv, HistoryEvolves, Next, Init;
    if i < j {
      ExpiredStaysExpired(r, i, j - 1, g);
      RunStep(r, j - 1);
      var s, s' := r.states[j - 1], r.states[j];
      assert GrantsEvolve(s.db, s'.db);
      assert LaterGrant(s.db.grants[g], s'.db.grants[g]);
    }
  }

  /** Over any run the instants at which a grant is executable form one interval. */
  lemma ExecutableIsOneInterval(r: Run, i: nat, j: nat, k: nat, g: Id)
    requires ValidRun(r) && i <= j <= k < |r.states|
    requires ExecutableAt(r.states[i], g) && ExecutableAt(r.states[k], g)
    ensures ExecutableAt(r.states[j], g)
  {
    hide ValidRun;
    NotPendingAgain(r, i, j, g);
    if !ExecutableAt(r.states[j], g) { NeverReactivated(r, j, k, g); }
  }

  lemma {:induction false} NotPendingAgain(r: Run, i: nat, j: nat, g: Id)
    requires ValidRun(r) && i <= j < |r.states| && g in r.states[i].db.grants
        && r.states[i].db.grants[g].state != Pending
    ensures g in r.states[j].db.grants && r.states[j].db.grants[g].state != Pending
    decreases j
  {
    hide Inv, HistoryEvolves, Next, Init;
    if i < j {
      NotPendingAgain(r, i, j - 1, g);
      RunStep(r, j - 1);
      var s, s' := r.states[j - 1], r.states[j];
      assert GrantsEvolve(s.db, s'.db);
      assert LaterGrant(s.db.grants[g], s'.db.grants[g]);
    }
  }
}
