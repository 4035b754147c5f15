/** A grant whose stored expiry lies in the microsecond of its creation: the request is accepted, and the grant is never
    executable. */
module Expiry {
  import opened Basics
  import opened Rows
  import opened Protocol
  import opened Theorems
  import Sql
  import Witness
  import GrantRules

  /** The run goes on from the first `n` steps of another. */
  ghost predicate Continues(r': Run, r: Run, n: nat) {
    && n < |r.states| && n < |r'.states| && n <= |r.steps| && n <= |r'.steps|
    && r'.states[..n + 1] == r.states[..n + 1] && r'.steps[..n] == r.steps[..n]
  }

  /** The step creates the grant. */
  ghost predicate Creates(r: Run, i: nat, g: Id, req: Sql.GrantRequest) {
    && i < |r.steps| && |r.states| == |r.steps| + 1 && r.steps[i] == SManage(CreateGrant(g, req))
    && g !in r.states[i].db.grants && g in r.states[i + 1].db.grants
  }

  lemma CreatedGrant(r: Run, i: nat, g: Id, req: Sql.GrantRequest)
    requires ValidRun(r) && Creates(r, i, g, req)
    ensures r.states[i + 1].now == r.states[i].now
    ensures var grant := r.states[i + 1].db.grants[g];
      grant.state == Pending && grant.expires == Sql.StoredExpiry(req.expires)
    ensures req.expires.Some? ==> r.states[i].now < req.expires.value
  {
    hide Init;
    assert Next(r.states[i], r.steps[i], r.states[i + 1]);
    assert r.states[i + 1].db == Sql.CreateGrant(r.states[i].db, g, req, r.states[i].now);
  }

  // ---------------------------------------------------------------- a pending grant in time becomes executable

  lemma StartsRegister(s: State, g: Id) returns (s': State)
    requires g in s.db.grants && s.db.grants[g].state == Pending
    ensures Next(s, SStartRegister(g), s') && s' == Spawn(s, Registering(g))
  {
    s' := Spawn(s, Registering(g));
  }

  lemma AnswersRegister(s: State, t: Tid, g: Id) returns (s': State)
    requires t in s.threads && s.threads[t] == Registering(g)
    ensures Next(s, SAnswerRegister(t, Sql.Receipt("r")), s') && s' == Goto(s, t, Registered(g, Sql.Receipt("r")))
  {
    s' := Goto(s, t, Registered(g, Sql.Receipt("r")));
  }

  lemma Registers(s: State, t: Tid, g: Id) returns (s': State)
    requires t in s.threads && s.threads[t] == Registered(g, Sql.Receipt("r"))
    ensures Next(s, SCommitRegister(t, Answered), s')
    ensures s'.now == s.now && s'.db == Sql.RegisterGrant(s.db, g, Sql.Receipt("r"))
  {
    hide Sql.RegisterGrant;
    s' := Stop(s.(db := Sql.RegisterGrant(s.db, g, Sql.Receipt("r"))), t);
  }

  lemma RegisteredIsExecutable(db: Db, g: Id, now: Time)
    requires g in db.grants && db.grants[g].state == Pending
    requires db.grants[g].expires.Some? ==> now < db.grants[g].expires.value
    ensures var db' := Sql.RegisterGrant(db, g, Sql.Receipt("r")); g in db'.grants && db'.grants[g].Executable(now)
  {
  }

  /** A pending grant that has not expired can still become executable. */
  lemma CanBecomeExecutable(r: Run, n: nat, g: Id) returns (r': Run)
    requires ValidRun(r) && n < |r.states| && g in r.states[n].db.grants && r.states[n].db.grants[g].state == Pending
    requires var grant := r.states[n].db.grants[g]; grant.expires.Some? ==> r.states[n].now < grant.expires.value
    ensures ValidRun(r') && Continues(r', r, n) && |r'.states| == n + 4 && ExecutableAt(r'.states[n + 3], g)
  {
    hide Next, Init;
    var s := r.states[n];
    r' := Run(r.states[..n + 1], r.steps[..n]);
    var s1 := StartsRegister(s, g);
    r' := Witness.Extended(r', SStartRegister(g), s1);
    var t := s.nextTid;
    var s2 := AnswersRegister(s1, t, g);
    r' := Witness.Extended(r', SAnswerRegister(t, Sql.Receipt("r")), s2);
    var s3 := Registers(s2, t, g);
    r' := Witness.Extended(r', SCommitRegister(t, Answered), s3);
    RegisteredIsExecutable(s.db, g, s.now);
    assert r'.states[n + 3] == s3;
  }

  // ---------------------------------------------------------------- the exact condition

  /** A grant created with an expiry is never executable, in any continuation of the run, if and only if its expiry
      lies in the microsecond of its creation. */
  lemma NeverExecutableExactly(r: Run, i: nat, g: Id, req: Sql.GrantRequest)
    requires ValidRun(r) && Creates(r, i, g, req) && req.expires.Some?
    ensures (forall r': Run, j: nat | ValidRun(r') && Continues(r', r, i + 1) && i + 1 <= j < |r'.states| ::
               !ExecutableAt(r'.states[j], g))
        <==> r.states[i].now / 1000 == req.expires.value / 1000
  {
    hide ValidRun, ExecutableAt;
    CreatedGrant(r, i, g, req);
    var now, e := r.states[i].now, req.expires.value;
    GrantRules.TruncatedHasPassed(e, now);
    if now / 1000 == e / 1000 {
      forall r': Run, j: nat | ValidRun(r') && Continues(r', r, i + 1) && i + 1 <= j < |r'.states|
        ensures !ExecutableAt(r'.states[j], g)
      {
        assert r'.states[i + 1] == r'.states[..i + 2][i + 1] == r.states[..i + 2][i + 1] == r.states[i + 1];
        ExpiredStaysExpired(r', i + 1, j, g);
      }
    } else {
      var r' := CanBecomeExecutable(r, i + 1, g);
      assert ExecutableAt(r'.states[i + 4], g);
    }
  }

  // ---------------------------------------------------------------- and it happens

  function Asked(): Sql.GrantRequest {
    Sql.GrantRequest(Witness.SCOPE, TenantSubject, Witness.KEY, 7, {"m"}, Some(1), true)
  }

  lemma GrantsExpired(o: Options)
    ensures var s := Witness.At(o, Witness.Catalogued(Approved, map[]), map[], map[], 0);
      var grant := Witness.Granted(Pending, "").(expires := Some(0));
      Next(s, SManage(CreateGrant(0, Asked())), s.(db := Witness.Catalogued(Approved, map[0 := grant])))
  {
    var db := Witness.Catalogued(Approved, map[]);
    var grant := Witness.Granted(Pending, "").(expires := Some(0));
    assert Sql.StoredExpiry(Some(1)) == Some(0);
    assert Sql.CreateGrant(db, 0, Asked(), 0) == Witness.Catalogued(Approved, map[0 := grant]);
  }

  /** A run from empty tables creates a grant that is stored as already expired. */
  lemma ExpiredGrantIsCreated(o: Options) returns (r: Run, i: nat)
    ensures ValidRun(r) && Creates(r, i, 0, Asked()) && r.states[i].now < 1
    ensures var grant := r.states[i + 1].db.grants[0]; grant.expires.Some? && grant.expires.value <= r.states[i + 1].now
  {
    hide Next, Init, Witness.Catalogued, Witness.Granted, Asked;
    r := Witness.ApprovedRun(o);
    i := |r.steps|;
    GrantsExpired(o);
    var s := r.states[i];
    var grant := Witness.Granted(Pending, "").(expires := Some(0));
    r := Witness.Extended(r, SManage(CreateGrant(0, Asked())), s.(db := Witness.Catalogued(Approved, map[0 := grant])));
    Catalogues(map[]);
    Catalogues(map[0 := grant]);
  }

  lemma Catalogues(grants: map<Id, Grant>)
    ensures Witness.Catalogued(Approved, grants).grants == grants
  {
  }
}
