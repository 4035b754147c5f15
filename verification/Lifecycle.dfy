/** A whole life from empty tables: a call is sent once, succeeds, is reported and observed, and its grant is revoked
    to the end. */
module Lifecycle {
  import opened Basics
  import opened Rows
  import opened Protocol
  import Sql
  import Witness

  const SENT := SendEvent(0, 1, Result)

  const TOLD := Report(5, 0, OutSucceeded, Some(1))

  /** The row of the call after its send. */
  function Done(o: Options, observed: bool): Call {
    Witness.Row(Succeeded, Some(5), Some(0), o.sendTimeout)
      .(usage := Some(1), observedAt := if observed then Some(0) else None, observations := if observed then 1 else 0)
  }

  function Tables(row: Call, grant: Grant): Db {
    Witness.Catalogued(Approved, map[0 := grant]).(calls := map[0 := row])
  }

  /** A state after the send. */
  function After(o: Options, db: Db, threads: map<Tid, Pc>, next: Tid, exits: map<Id, Exit>,
                 reports: set<Filed>): State {
    State(o, 0, db, Witness.Permission(), threads, next, map[0 := Marker(1, o.sendTimeout)], [SENT], exits, reports,
          {}, {})
  }

  function Held(): Grant {
    Witness.Granted(Active, "r")
  }

  function Exits(): map<Id, Exit> {
    map[0 := Exit(1, TOLD)]
  }

  lemma Sends(o: Options)
    ensures var row := Witness.Row(Sent, Some(5), Some(0), o.sendTimeout);
      Next(Witness.Marked(o), SSend(1, Result),
           After(o, Tables(row, Held()), map[1 := Concluding(0, Succeeded, NoCode)], 2, map[], {}))
  {
    var s := Witness.Marked(o);
    assert s.sends + [SENT] == [SENT];
    assert s.threads[1 := Concluding(0, Succeeded, NoCode)] == map[1 := Concluding(0, Succeeded, NoCode)];
  }

  lemma Concludes(o: Options)
    ensures var row := Witness.Row(Sent, Some(5), Some(0), o.sendTimeout);
      Next(After(o, Tables(row, Held()), map[1 := Concluding(0, Succeeded, NoCode)], 2, map[], {}),
           SConclude(1, Answered),
           After(o, Tables(Done(o, false), Held()), map[1 := Reloading(0)], 2, Exits(), {}))
  {
    var row := Witness.Row(Sent, Some(5), Some(0), o.sendTimeout);
    var s := After(o, Tables(row, Held()), map[1 := Concluding(0, Succeeded, NoCode)], 2, map[], {});
    var s' := After(o, Tables(Done(o, false), Held()), map[1 := Reloading(0)], 2, Exits(), {});
    var u := Sql.SetOutcome(s.db.calls, 0, Succeeded, NoCode, Some(1), Sent, 0);
    assert u.calls == map[0 := Done(o, false)] && u.changed == 1;
    assert ReportOf(Done(o, false)) == TOLD;
    assert Leave(s, 1, 0, u) == s.(db := s'.db, exits := Exits());
    assert s.threads[1 := Reloading(0)] == s'.threads;
    assert Left(s, s', 1, 0, u, Answered);
  }

  lemma Reloads(o: Options)
    ensures var db, row := Tables(Done(o, false), Held()), Done(o, false);
      Next(After(o, db, map[1 := Reloading(0)], 2, Exits(), {}), SReload(1),
           After(o, db, map[1 := Observing(0, row, false)], 2, Exits(), {}))
  {
    var row := Done(o, false);
    assert map[1 := Reloading(0)][1 := Observing(0, row, false)] == map[1 := Observing(0, row, false)];
  }

  lemma Reports(o: Options)
    ensures var db, row := Tables(Done(o, false), Held()), Done(o, false);
      Next(After(o, db, map[1 := Observing(0, row, false)], 2, Exits(), {}), SObserve(1, true),
           After(o, db, map[1 := Acknowledging(0, row, false)], 2, Exits(), {Filed(0, TOLD)}))
  {
    var row := Done(o, false);
    assert ReportOf(row) == TOLD && {} + {Filed(0, TOLD)} == {Filed(0, TOLD)};
    assert map[1 := Observing(0, row, false)][1 := Acknowledging(0, row, false)] == map[1 := Acknowledging(0, row,
        false)];
  }

  lemma Observes(o: Options)
    ensures var row := Done(o, false);
      Next(After(o, Tables(row, Held()), map[1 := Acknowledging(0, row, false)], 2, Exits(), {Filed(0, TOLD)}),
           SAcknowledge(1, Answered),
           After(o, Tables(Done(o, true), Held()), map[], 2, Exits(), {Filed(0, TOLD)}))
  {
    var row := Done(o, false);
    assert Sql.SetObserved(map[0 := row], 0, 0, 0).calls == map[0 := Done(o, true)];
    assert map[1 := Acknowledging(0, row, false)] - {1} == map[];
  }

  function Settled(o: Options, grant: Grant, threads: map<Tid, Pc>, next: Tid): State {
    After(o, Tables(Done(o, true), grant), threads, next, Exits(), {Filed(0, TOLD)})
  }

  function Revoking(fence: Fence): Grant {
    Held().(state := GrantState.Revoking, fence := fence)
  }

  function Revoked(): Grant {
    Held().(state := GrantState.Revoked, fence := Converged, revokedAt := Some(0))
  }

  lemma Revokes(o: Options)
    ensures Next(Settled(o, Held(), map[], 2), SManage(Revoke(0, 0, 1, NoCode)),
                 Settled(o, Revoking(NoFence), map[], 2))
  {
    var db := Tables(Done(o, true), Held());
    assert Sql.RevokeGrant(db, 0, 0, 1, NoCode) == Tables(Done(o, true), Revoking(NoFence));
  }

  lemma StartsBarrier(o: Options)
    ensures Next(Settled(o, Revoking(NoFence), map[], 2), SStartBarrier(0),
                 Settled(o, Revoking(NoFence), map[2 := Fencing(0, 1)], 3))
  {
  }

  lemma AnswersBarrier(o: Options)
    ensures var b := Sql.Barrier(Converged);
      Next(Settled(o, Revoking(NoFence), map[2 := Fencing(0, 1)], 3), SAnswerBarrier(2, b),
           Settled(o, Revoking(NoFence), map[2 := Counting(0, 1, b)], 3))
  {
    var b := Sql.Barrier(Converged);
    assert map[2 := Fencing(0, 1)][2 := Counting(0, 1, b)] == map[2 := Counting(0, 1, b)];
  }

  lemma CountsOpen(o: Options)
    ensures var b := Sql.Barrier(Converged);
      Next(Settled(o, Revoking(NoFence), map[2 := Counting(0, 1, b)], 3), SCountOpen(2),
           Settled(o, Revoking(NoFence), map[2 := Finalizing(0, 1, b, true)], 3))
  {
    var b := Sql.Barrier(Converged);
    assert Sql.NoOpenCall(map[0 := Done(o, true)], 0, 1);
    assert map[2 := Counting(0, 1, b)][2 := Finalizing(0, 1, b, true)] == map[2 := Finalizing(0, 1, b, true)];
  }

  lemma Finalizes(o: Options)
    ensures var b := Sql.Barrier(Converged);
      Next(Settled(o, Revoking(NoFence), map[2 := Finalizing(0, 1, b, true)], 3), SCommitBarrier(2, Answered),
           Settled(o, Revoked(), map[], 3))
  {
    var b := Sql.Barrier(Converged);
    var db := Tables(Done(o, true), Revoking(NoFence));
    assert Sql.AdvanceGrant(db, 0, b, true, 0) == Tables(Done(o, true), Revoked());
    assert map[2 := Finalizing(0, 1, b, true)] - {2} == map[];
  }

  /** Under every configuration with a positive send timeout: one send, a recorded success with one unit of usage, one
      report of it, observed, and the grant revoked to the end. */
  lemma LifeIsCompleted(o: Options) returns (r: Run)
    requires o.sendTimeout > 0
    ensures ValidRun(r) && r.states[0].opts == o
    ensures var s := r.states[|r.steps|];
      && 0 in s.db.calls && s.db.calls[0].state == Succeeded && s.db.calls[0].usage == Some(1)
          && s.db.calls[0].observedAt.Some?
      && s.sends == [SendEvent(0, 1, Result)] && s.reports == {Filed(0, Report(5, 0, OutSucceeded, Some(1)))}
      && 0 in s.db.grants && s.db.grants[0].state == GrantState.Revoked && s.threads == map[]
  {
    var row, b := Witness.Row(Sent, Some(5), Some(0), o.sendTimeout), Sql.Barrier(Converged);
    assert EndState(Settled(o, Revoked(), map[], 3)) by { Ended(o); }
    hide Next, ValidRun, Tables, Done, Held, Exits, Revoking, Revoked, Settled, Witness.Row, Witness.Marked;
    r := Witness.MarkedRun(o);
    Sends(o);
    r := Witness.Extended(r, SSend(1, Result),
                          After(o, Tables(row, Held()), map[1 := Concluding(0, Succeeded, NoCode)], 2, map[], {}));
    Concludes(o);
    var db := Tables(Done(o, false), Held());
    r := Witness.Extended(r, SConclude(1, Answered), After(o, db, map[1 := Reloading(0)], 2, Exits(), {}));
    Reloads(o);
    r := Witness.Extended(r, SReload(1), After(o, db, map[1 := Observing(0, Done(o, false), false)], 2, Exits(), {}));
    Reports(o);
    r := Witness.Extended(r, SObserve(1, true),
                          After(o, db, map[1 := Acknowledging(0, Done(o, false), false)], 2, Exits(),
                                {Filed(0, TOLD)}));
    Observes(o);
    r := Witness.Extended(r, SAcknowledge(1, Answered),
                          After(o, Tables(Done(o, true), Held()), map[], 2, Exits(), {Filed(0, TOLD)}));
    IsSettled(o, Held());
    Revokes(o);
    r := Witness.Extended(r, SManage(Revoke(0, 0, 1, NoCode)), Settled(o, Revoking(NoFence), map[], 2));
    StartsBarrier(o);
    r := Witness.Extended(r, SStartBarrier(0), Settled(o, Revoking(NoFence), map[2 := Fencing(0, 1)], 3));
    AnswersBarrier(o);
    r := Witness.Extended(r, SAnswerBarrier(2, b), Settled(o, Revoking(NoFence), map[2 := Counting(0, 1, b)], 3));
    CountsOpen(o);
    r := Witness.Extended(r, SCountOpen(2), Settled(o, Revoking(NoFence), map[2 := Finalizing(0, 1, b, true)], 3));
    Finalizes(o);
    r := Witness.Extended(r, SCommitBarrier(2, Answered), Settled(o, Revoked(), map[], 3));
  }

  lemma IsSettled(o: Options, grant: Grant)
    ensures After(o, Tables(Done(o, true), grant), map[], 2, Exits(), {Filed(0, TOLD)}) == Settled(o, grant, map[], 2)
  {
  }

  predicate EndState(s: State) {
    && 0 in s.db.calls && s.db.calls[0].state == Succeeded && s.db.calls[0].usage == Some(1)
        && s.db.calls[0].observedAt.Some?
    && s.sends == [SendEvent(0, 1, Result)] && s.reports == {Filed(0, Report(5, 0, OutSucceeded, Some(1)))}
    && 0 in s.db.grants && s.db.grants[0].state == GrantState.Revoked && s.threads == map[]
  }

  lemma Ended(o: Options)
    ensures EndState(Settled(o, Revoked(), map[], 3))
  {
  }
}
