/** The bootstrap at every start: the one transaction that can change a user list without an event. */
module Bootstrap {
  import opened Schema
  import opened Repository
  import opened Service
  import opened ChangeLog
  import opened Transactions

  /** The bootstrap gives no seat that was not there: no administrator is configured, or every account with the
      administrator's address already has a seat in the project, or the new account cannot be inserted. */
  predicate GivesNoSeat(accounts: map<string, Account>, access: map<Seat, seq<string>>, project: string,
                        adminId: string, adminEmail: string, password: StoredPassword)
  {
    var present := WithEmail(accounts, adminEmail);
    if present == {} then !Insertable(accounts, adminId, AdminAccount(adminEmail, password))
    else forall id :: id in present ==> Seat(id, project) in access
  }

  lemma PromoteStands(a: Tables, b: Tables, ids: set<string>, project: string)
    requires Standing(a) && project in a.projects && ids <= a.accounts.Keys
    requires b == a.(accounts := Promote(a.accounts, ids), access := SeatAdmins(a.access, ids, project))
    ensures Standing(b)
  {
  }

  lemma PromoteIsQuiet(a: Tables, b: Tables, ids: set<string>, project: string)
    requires Standing(a) && ids <= a.accounts.Keys
    requires b == a.(accounts := Promote(a.accounts, ids), access := SeatAdmins(a.access, ids, project))
    requires forall id :: id in ids ==> Seat(id, project) in a.access
    ensures Logs(a, b)
  {
    assert b.access == a.access;
    SameRowsLogs(a, b);
  }

  /** A row that appears without an event is unexplained. */
  lemma UnloggedSeat(a: Tables, b: Tables, project: string, id: string)
    requires b.events == a.events && Row(a, project, id).None? && Row(b, project, id).Some?
    ensures !Logs(a, b)
  {
    assert Since(a, b) == [];
    assert !ExplainsUser(a, Since(a, b), b, project, id);
  }

  lemma NewAdminIsUnexplained(a: Tables, b: Tables, project: string, adminId: string, admin: Account)
    requires Standing(a) && project in a.projects && adminId != "" && adminId !in a.accounts && admin.InGoodStanding()
    requires b == a.(accounts := a.accounts[adminId := admin], access := SeatAdmins(a.access, {adminId}, project))
    ensures Standing(b) && !Logs(a, b)
  {
    UnloggedSeat(a, b, project, adminId);
  }

  lemma OldAdminIsExplained(a: Tables, b: Tables, ids: set<string>, project: string)
    requires Standing(a) && project in a.projects && ids <= a.accounts.Keys
    requires b == a.(accounts := Promote(a.accounts, ids), access := SeatAdmins(a.access, ids, project))
    ensures Standing(b) && (Logs(a, b) <==> forall id :: id in ids ==> Seat(id, project) in a.access)
  {
    PromoteStands(a, b, ids, project);
    if id :| id in ids && Seat(id, project) !in a.access {
      UnloggedSeat(a, b, project, id);
    } else {
      PromoteIsQuiet(a, b, ids, project);
    }
  }

  lemma NobodySeated(access: map<Seat, seq<string>>, project: string)
    ensures SeatAdmins(access, {}, project) == access
  {
  }

  lemma AdminIsExplained(a: Tables, project: string, adminId: string, adminEmail: string, password: StoredPassword)
    requires Standing(a) && project in a.projects && adminId != ""
    ensures var b := EnsureAdmin(a, project, adminId, adminEmail, password);
            Standing(b) && (Logs(a, b) <==> GivesNoSeat(a.accounts, a.access, project, adminId, adminEmail, password))
  {
    hide Logs, Standing;
    var b := EnsureAdmin(a, project, adminId, adminEmail, password);
    var present := WithEmail(a.accounts, adminEmail);
    var admin := AdminAccount(adminEmail, password);
    if present != {} {
      OldAdminIsExplained(a, b, present, project);
    } else if Insertable(a.accounts, adminId, admin) {
      NewAdminIsUnexplained(a, b, project, adminId, admin);
    } else {
      NobodySeated(a.access, project);
      NothingKeeps(a);
    }
  }

  /** EnsureBootstrap runs at every start and writes `project_access` without an event. The log still explains every
      project's user list exactly when no administrator is configured or the bootstrap gives no new seat: not on a
      start that follows the revocation of the administrator's access. */
  lemma BootstrapIsExplained(a: Tables, project: string, client: string, secretHash: string, redirect: string,
                             adminId: string, adminEmail: string, password: Option<StoredPassword>)
    requires Standing(a) && project != "" && adminId != ""
    ensures var b := EnsureBootstrap(a, project, client, secretHash, redirect, adminId, adminEmail, password);
            && Standing(b)
            && (Logs(a, b) <==> adminEmail == "" || password.None?
                                || GivesNoSeat(a.accounts, a.access, project, adminId, adminEmail, password.value))
  {
    hide EnsureAdmin, EnsureProject, Logs, Standing, GivesNoSeat;
    var first := EnsureProject(a, project, client, secretHash, redirect);
    ProjectIsQuiet(a, project, client, secretHash, redirect);
    if adminEmail != "" && password.Some? {
      var b := EnsureAdmin(first, project, adminId, adminEmail, password.value);
      AfterFirst(a, first, b, project, adminId, adminEmail, password.value);
    }
  }

  lemma ProjectIsQuiet(a: Tables, project: string, client: string, secretHash: string, redirect: string)
    requires Standing(a) && project != ""
    ensures Keeps(a, EnsureProject(a, project, client, secretHash, redirect))
  {
    hide EnsureProject;
    ElsewhereKeeps(a, EnsureProject(a, project, client, secretHash, redirect));
  }

  lemma AfterFirst(a: Tables, first: Tables, b: Tables, project: string, adminId: string, adminEmail: string,
                   password: StoredPassword)
    requires first.accounts == a.accounts && first.access == a.access && first.events == a.events
             && first.lastId == a.lastId
    requires Keeps(a, first) && project in first.projects && adminId != ""
    requires b == EnsureAdmin(first, project, adminId, adminEmail, password)
    ensures Standing(b) && (Logs(a, b) <==> GivesNoSeat(a.accounts, a.access, project, adminId, adminEmail, password))
  {
    hide Logs, Standing, GivesNoSeat, EnsureAdmin;
    AdminIsExplained(first, project, adminId, adminEmail, password);
    if Logs(first, b) {
      LogsComposes(a, first, b);
    } else if Logs(a, b) {
      LogsFrom(a, first, b);
      assert false;
    }
  }

  /** Tables that list the same users explain the same changes. */
  lemma LogsFrom(a: Tables, first: Tables, b: Tables)
    requires first.accounts == a.accounts && first.access == a.access && first.events == a.events
             && first.lastId == a.lastId
    requires Logs(a, b)
    ensures Logs(first, b)
  {
    forall p, u ensures ExplainsUser(first, Since(first, b), b, p, u) {
      assert ExplainsUser(a, Since(a, b), b, p, u);
    }
  }

  // ---------------------------------------------------------------- a start as a request

  /** A request whose changes to the user lists are logged: any request but a start that gives a new seat. */
  predicate Logged(a: Tables, r: Request) {
    r.Restart? && r.setup.adminEmail != "" && r.setup.adminPassword.Some? ==>
      GivesNoSeat(a.accounts, a.access, r.setup.project, r.setup.adminId, r.setup.adminEmail,
                  r.setup.adminPassword.value)
  }

  /** A start keeps the standing of every seat, and its changes are explained exactly when it is logged. */
  lemma BootIsExplained(a: Tables, s: Setup)
    requires Standing(a) && s.project != "" && s.adminId != ""
    ensures Standing(Boot(a, s).0) && (Logs(a, Boot(a, s).0) <==> Logged(a, Restart(s)))
  {
    hide EnsureBootstrap, Logs, Standing, GivesNoSeat;
    BootstrapIsExplained(a, s.project, s.client, s.secretHash, s.redirect, s.adminId, s.adminEmail, s.adminPassword);
  }

  lemma BootKeepsLog(a: Tables, s: Setup)
    ensures var b := Boot(a, s).0; b.events == a.events && b.lastId == a.lastId && b.outbox == a.outbox
  {
    hide EnsureBootstrap;
  }
}
