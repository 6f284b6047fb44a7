/** Changes that concern an account rather than a seat: one event per project of the account, none elsewhere. */
module AccountWide {
  import opened Order
  import opened Schema
  import opened Repository
  import opened ChangeLog
  import opened Transactions

  /** A list of events, one for each listed project, when the list is that of the account's seats. */
  predicate PerProject(es: seq<SyncEvent>, access: map<Seat, seq<string>>, kind: Kind, account: string) {
    && (forall i :: 0 <= i < |es| ==>
          es[i].kind == kind && es[i].account == account && Seat(account, es[i].project) in access)
    && (forall i, j :: 0 <= i < j < |es| ==> es[i].project != es[j].project)
    && (forall s :: s in access && s.account == account ==> exists i :: 0 <= i < |es| && es[i].project == s.project)
  }

  /** The events are of one kind, about one account, one for each project it has a seat in. */
  ghost predicate OnePerProject(a: Tables, b: Tables, kind: Kind, account: string) {
    && a.events <= b.events
    && PerProject(Since(a, b), a.access, kind, account)
  }

  lemma BatchMembers(db: Tables, projects: seq<string>, kind: Kind, account: string, payload: Payload)
    ensures var es := Batch(db, projects, kind, account, payload);
            && |es| == |projects|
            && forall i :: 0 <= i < |es| ==>
              es[i].project == projects[i] && es[i].kind == kind && es[i].account == account
  {
  }

  lemma MembersArePerProject(es: seq<SyncEvent>, access: map<Seat, seq<string>>, projects: seq<string>, kind: Kind,
                             account: string)
    requires |es| == |projects| && Distinct(projects)
    requires forall i :: 0 <= i < |es| ==>
             es[i].project == projects[i] && es[i].kind == kind && es[i].account == account
    requires forall p :: p in projects <==> Seat(account, p) in access
    ensures PerProject(es, access, kind, account)
  {
    forall i | 0 <= i < |es| ensures Seat(account, es[i].project) in access { assert projects[i] in projects; }
    forall s | s in access && s.account == account ensures exists i :: 0 <= i < |es| && es[i].project == s.project {
      assert s == Seat(account, s.project) && s.project in projects;
      var i :| 0 <= i < |projects| && projects[i] == s.project;
      assert es[i].project == s.project;
    }
  }

  lemma BatchIsOnePerProject(a: Tables, mid: Tables, b: Tables, now: nat, projects: seq<string>, kind: Kind,
                             account: string, payload: Payload)
    requires QueueAll(mid, now, projects, kind, account, payload).Ok?
    requires b.events == QueueAll(mid, now, projects, kind, account, payload).value.events
    requires mid.events == a.events
    requires Distinct(projects) && forall p :: p in projects <==> Seat(account, p) in a.access
    ensures OnePerProject(a, b, kind, account)
  {
    hide QueueAll, Batch, PerProject, Distinct;
    QueueAllEvents(mid, now, projects, kind, account, payload);
    BatchMembers(mid, projects, kind, account, payload);
    var es := Batch(mid, projects, kind, account, payload);
    MembersArePerProject(es, a.access, projects, kind, account);
    assert Since(a, b) == es;
  }

  lemma DisableTellsEveryProject(a: Tables, now: nat, id: string)
    requires Standing(a) && DisableAccount(a, now, id).Ok?
    ensures OnePerProject(a, DisableAccount(a, now, id).value, AccessRevoked, id)
  {
    var revoked := RevokeCredentials(a.(accounts := a.accounts[id := a.accounts[id].(status := Inactive)]), id);
    ProjectsOf(revoked, id, "");
    BatchIsOnePerProject(a, revoked, DisableAccount(a, now, id).value, now, ProfileProjects(revoked, id, ""),
                         AccessRevoked, id, UserIdOnly);
  }

  lemma PasswordTellsEveryProject(a: Tables, now: nat, id: string, password: StoredPassword)
    requires Standing(a) && RevokePasswordSessions(a, now, id, password).Ok?
    ensures OnePerProject(a, RevokePasswordSessions(a, now, id, password).value, SessionsRevoked, id)
  {
    var revoked := RevokeCredentials(a.(accounts := SetPassword(a.accounts, id, password)), id);
    ProjectsOf(revoked, id, "");
    BatchIsOnePerProject(a, revoked, RevokePasswordSessions(a, now, id, password).value, now,
                         ProfileProjects(revoked, id, ""), SessionsRevoked, id, UserIdOnly);
  }

  lemma ProfileTellsEveryProject(a: Tables, now: nat, id: string, login: string, given: string, family: string,
                                 name: string, avatar: string)
    requires Standing(a) && UpdateProfile(a, now, id, login, given, family, name, avatar).Ok?
    ensures OnePerProject(a, UpdateProfile(a, now, id, login, given, family, name, avatar).value, ProfileUpdated, id)
  {
    var profile := Profile(a.accounts[id].profile.email, login, name, given, family, avatar);
    var updated := a.(accounts := a.accounts[id := a.accounts[id].(profile := profile)]);
    ProjectsOf(updated, id, "");
    BatchIsOnePerProject(a, updated, UpdateProfile(a, now, id, login, given, family, name, avatar).value, now,
                         ProfileProjects(updated, id, ""), ProfileUpdated, id, ProfileOnly(profile, []));
  }

  /** The legacy update logs the calling project first and the rest after it; it is refused without a seat there. */
  lemma LegacyProfileTellsEveryProject(a: Tables, now: nat, project: string, id: string, name: string, avatar: string)
    requires Standing(a) && UpdateLegacyProfile(a, now, project, id, name, avatar).Ok?
    ensures var b := UpdateLegacyProfile(a, now, project, id, name, avatar).value;
            OnePerProject(a, b, ProfileUpdated, id) && Since(a, b) != [] && Since(a, b)[0].project == project
  {
    var b := UpdateLegacyProfile(a, now, project, id, name, avatar).value;
    var profile := a.accounts[id].profile.(name := name, given := name, family := "", avatar := avatar);
    var updated := a.(accounts := a.accounts[id := a.accounts[id].(profile := profile)]);
    var projects := [project] + ProfileProjects(updated, id, project);
    QueueAllFinds(updated, now, projects, id, ProfileOnly(profile, []));
    assert projects[0] == project;
    OriginAndRest(updated, id, project);
    BatchIsOnePerProject(a, updated, b, now, projects, ProfileUpdated, id, ProfileOnly(profile, []));
    QueueAllEvents(updated, now, projects, ProfileUpdated, id, ProfileOnly(profile, []));
    assert Since(a, b)[0] == Batch(updated, projects, ProfileUpdated, id, ProfileOnly(profile, []))[0];
  }

  // ---------------------------------------------------------------- the bootstrap

  /** A grant logs one event: it says `access.granted` exactly when the user was not listed before, and its payload is
      the row listed afterwards. */
  lemma GrantTellsNewFromChanged(a: Tables, now: nat, account: string, project: string, roles: seq<string>)
    requires Standing(a) && GrantAccess(a, now, account, project, roles).Ok?
    ensures var b := GrantAccess(a, now, account, project, roles).value;
            && |b.events| == |a.events| + 1 && a.events <= b.events
            && (var e := b.events[|a.events|];
                && e.project == project && e.account == account && e.payload.FullUser?
                && e.kind == (if Row(a, project, account).None? then AccessGranted else RolesChanged)
                && Row(b, project, account) == Some(UserRow(e.payload.oldId, e.payload.profile, roles))
                && e.payload.roles == roles)
  {
  }
}
