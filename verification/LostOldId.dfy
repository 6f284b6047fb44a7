/** A run in which the replacing consumer loses an `old_id`: import a user, read the page, change the profile. */
module LostOldId {
  import opened Order
  import opened Text
  import opened Schema
  import opened Repository
  import opened Import
  import opened Service
  import opened ChangeLog
  import opened Bootstrap
  import opened Replica
  import opened Consumer
  import opened Replacing
  import opened Genesis

  /** A first start with an administrator, a record of an approved user to import, and a login to change to. */
  datatype Story = Story(setup: Setup, user: LegacyUser, id: string, login: string) {
    predicate Tellable() {
      && Real(setup) && setup.project == PROJECT
      && WellFormed(user) && user.status == "approved" && user.email != setup.adminEmail
      && id != "" && id != setup.adminId
      && LoginShape(login) && Trim(login) == login && Lower(login) == login
    }
  }

  function ImportRequest(s: Story): Request {
    Directory(DoImport([s.user], [s.id]))
  }

  function ImportedWorld(s: Story): World {
    Serve(FirstWorld(s.setup), ImportRequest(s))
  }

  function Update(s: Story): Request {
    Directory(DoUpdateProfile(s.id, s.login, "", "", ""))
  }

  // ---------------------------------------------------------------- the import

  lemma ImportOne(db: Tables, now: nat, u: LegacyUser, id: string)
    ensures ImportAll(db, now, [u], [id]) == ImportUser(db, now, u, id)
  {
    assert [u][..0] == [] && [id][..0] == [];
    assert ImportAll(db, now, [], []) == Ok(db);
  }

  /** The first start and the imported user. */
  predicate TwoUsers(db: Tables, s: Story) {
    && s.setup.adminPassword.Some?
    && db.accounts == map[s.setup.adminId := AdminAccount(s.setup.adminEmail, s.setup.adminPassword.value),
                          s.id := AccountOf(s.user)]
    && db.access == map[Seat(s.setup.adminId, PROJECT) := ["admin"], Seat(s.id, PROJECT) := RolesOf(s.user)]
    && db.projects == {PROJECT} && |db.events| == 1 && db.events[0].id == 1 && db.lastId == 1
  }

  lemma UserFits(db: Tables, s: Story)
    requires s.Tellable()
    requires db.accounts == map[s.setup.adminId := AdminAccount(s.setup.adminEmail, s.setup.adminPassword.value)]
    ensures Insertable(db.accounts, s.id, AccountOf(s.user)) && !Imported(db, s.user)
  {
    LowerIsIdempotent(Trim(s.user.email));
  }

  lemma ImportAdds(db: Tables, s: Story)
    requires s.Tellable()
    requires db.accounts == map[s.setup.adminId := AdminAccount(s.setup.adminEmail, s.setup.adminPassword.value)]
    requires db.access == map[Seat(s.setup.adminId, PROJECT) := ["admin"]] && db.projects == {PROJECT}
    requires db.events == [] && db.lastId == 0
    ensures ImportUser(db, 0, s.user, s.id).Ok? && TwoUsers(ImportUser(db, 0, s.user, s.id).value, s)
  {
    hide Insertable, Imported, AdminAccount, RolesOf, WellFormed, LogSeat;
    UserFits(db, s);
    var seat := Seat(s.id, PROJECT);
    var seated := db.(accounts := db.accounts[s.id := AccountOf(s.user)], access := db.access[seat := RolesOf(s.user)]);
    FirstSeatIsLogged(seated, s);
    TwoAccounts(db, seated, s);
  }

  lemma FirstSeatIsLogged(db: Tables, s: Story)
    requires s.user.status == "approved" && db.projects == {PROJECT} && db.events == [] && db.lastId == 0
    requires s.id in db.accounts && db.accounts[s.id] == AccountOf(s.user)
    ensures var r := LogSeat(db, 0, AccessGranted, Seat(s.id, PROJECT), RolesOf(s.user));
            && r.Ok? && r.value.accounts == db.accounts && r.value.access == db.access
            && r.value.projects == db.projects && r.value.lastId == 1
            && |r.value.events| == 1 && r.value.events[0].id == 1
  {
    hide RolesOf;
  }

  lemma TwoAccounts(db: Tables, seated: Tables, s: Story)
    requires s.setup.adminPassword.Some? && s.id != s.setup.adminId
    requires db.accounts == map[s.setup.adminId := AdminAccount(s.setup.adminEmail, s.setup.adminPassword.value)]
    requires db.access == map[Seat(s.setup.adminId, PROJECT) := ["admin"]]
    requires seated.accounts == db.accounts[s.id := AccountOf(s.user)]
    requires seated.access == db.access[Seat(s.id, PROJECT) := RolesOf(s.user)]
    ensures seated.accounts == map[s.setup.adminId := AdminAccount(s.setup.adminEmail, s.setup.adminPassword.value),
                                   s.id := AccountOf(s.user)]
    ensures seated.access == map[Seat(s.setup.adminId, PROJECT) := ["admin"], Seat(s.id, PROJECT) := RolesOf(s.user)]
  {
  }

  lemma ImportedTables(s: Story)
    requires s.Tellable()
    ensures Admissible(FirstWorld(s.setup), ImportRequest(s))
    ensures ImportedWorld(s).clock == 0 && TwoUsers(ImportedWorld(s).db, s)
  {
    hide TwoUsers, ImportUser, ImportAll, AdminAccount, WellFormed;
    FirstTables(s.setup);
    var db := FirstWorld(s.setup).db;
    ImportOne(db, 0, s.user, s.id);
    ImportAdds(db, s);
    FileIsReadable(s);
  }

  lemma FileIsReadable(s: Story)
    requires s.Tellable()
    ensures Readable([s.user])
  {
    hide WellFormed;
  }

  // ---------------------------------------------------------------- the page

  lemma FewAreAbove(db: Tables, s: Story)
    requires TwoUsers(db, s)
    ensures |UsersAbove(db, PROJECT, "")| <= 2
  {
    var ids := set u | u in View(db, PROJECT) && Less("", u);
    var both := {s.setup.adminId, s.id};
    assert ids <= both;
    SmallSubset(ids, both);
    assert |both| <= 2;
  }

  lemma SmallSubset(a: set<string>, b: set<string>)
    requires a <= b
    ensures |a| <= |b|
  {
    assert b == a + (b - a);
  }

  lemma PageIsWhole(w: World, s: Story)
    requires TwoUsers(w.db, s)
    ensures Start(w, PROJECT).phase.Draining? && Start(w, PROJECT).cursor == 1
  {
    hide UsersAbove, View;
    FewAreAbove(w.db, s);
    MaxOfOne(w.db.events);
  }

  lemma MaxOfOne(es: seq<SyncEvent>)
    requires |es| == 1
    ensures MaxId(es) == es[0].id
  {
    assert es[..0] == [] && MaxId([]) == 0;
  }

  // ---------------------------------------------------------------- the change

  function NewProfile(s: Story): Profile {
    Profile(s.user.email, s.login, "", "", "", "")
  }

  lemma LoginIsFree(db: Tables, s: Story)
    requires s.Tellable() && TwoUsers(db, s)
    ensures LoginFree(db.accounts, s.id, s.login)
  {
    assert '@' !in s.login;
  }

  lemma OneProject(db: Tables, s: Story)
    requires s.Tellable()
    requires db.access == map[Seat(s.setup.adminId, PROJECT) := ["admin"], Seat(s.id, PROJECT) := RolesOf(s.user)]
    ensures ProfileProjects(db, s.id, "") == [PROJECT]
  {
    hide RolesOf;
    var named := set seat | seat in db.access && seat.account == s.id && seat.project != "" :: seat.project;
    assert Seat(s.id, PROJECT) in db.access;
    assert named == {PROJECT};
    AscendingOne(PROJECT);
    ListingIsUnique(Listing(named), [PROJECT]);
  }

  lemma AscendingOne(x: string)
    ensures Ascends([x])
  {
  }

  lemma QueueOne(db: Tables, now: nat, project: string, kind: Kind, account: string, payload: Payload)
    ensures QueueAll(db, now, [project], kind, account, payload) == QueueEvent(db, now, project, kind, account, payload)
  {
    OneIsBatch(db, now, project, kind, account, payload);
  }

  function UpdateEvent(s: Story): SyncEvent {
    SyncEvent(2, PROJECT, ProfileUpdated, s.id, ProfileOnly(NewProfile(s), RolesOf(s.user)))
  }

  lemma UpdateLogs(db: Tables, now: nat, s: Story)
    requires s.Tellable() && TwoUsers(db, s)
    ensures var r := UpdateProfile(db, now, s.id, s.login, "", "", "", "");
            && r.Ok? && r.value.events == db.events + [UpdateEvent(s)] && r.value.access == db.access
            && s.id in r.value.accounts
            && r.value.accounts[s.id] == AccountOf(s.user).(profile := NewProfile(s))
  {
    hide QueueAll, ProfileProjects, LoginFree, AdminAccount, RolesOf, WellFormed;
    LoginIsFree(db, s);
    assert db.accounts[s.id] == AccountOf(s.user);
    var updated := db.(accounts := db.accounts[s.id := db.accounts[s.id].(profile := NewProfile(s))]);
    OneProject(updated, s);
    QueueOne(updated, now, PROJECT, ProfileUpdated, s.id, ProfileOnly(NewProfile(s), []));
    assert updated.access[Seat(s.id, PROJECT)] == RolesOf(s.user);
  }

  lemma NothingToTrim()
    ensures Trim("") == "" && Trim("" + " " + "") == ""
  {
    assert "" + " " + "" == " " && " "[1..] == "";
  }

  lemma UpdateIsServed(w: World, s: Story)
    requires s.Tellable() && TwoUsers(w.db, s)
    ensures var db := Serve(w, Update(s)).db;
            && Handle(w.db, w.clock, Update(s)).1.Accepted?
            && db.events == w.db.events + [UpdateEvent(s)]
            && Row(db, PROJECT, s.id) == Some(UserRow(Some(s.user.oldId), NewProfile(s), RolesOf(s.user)))
  {
    hide UpdateProfile, Trim, RolesOf, TwoUsers, LoginShape, WellFormed;
    NothingToTrim();
    UpdateLogs(w.db, w.clock, s);
    SeatStays(w.db, s);
  }

  lemma SeatStays(db: Tables, s: Story)
    requires TwoUsers(db, s)
    ensures Seat(s.id, PROJECT) in db.access && db.access[Seat(s.id, PROJECT)] == RolesOf(s.user)
  {
  }

  lemma OneIsPending(db: Tables, s: Story, events: seq<SyncEvent>)
    requires |events| == 1 && events[0].id == 1 && db.events == events + [UpdateEvent(s)]
    ensures Changes(db, PROJECT, 1) == ([UpdateEvent(s)], 2)
  {
    assert db.events[..1] == events && events[..0] == [];
    assert Pending([], PROJECT, 1) == [] && Pending(events, PROJECT, 1) == [];
    assert Pending(db.events, PROJECT, 1) == [] + [UpdateEvent(s)] == [UpdateEvent(s)];
  }

  // ---------------------------------------------------------------- the loss

  lemma LastWriteStrips(page: set<string>, s: Story)
    ensures Stripped([PageRead(page)] + Writes([UpdateEvent(s)]), s.id)
  {
    hide RolesOf;
    var ws := [PageRead(page)] + Writes([UpdateEvent(s)]);
    assert ws == [PageRead(page), Applied(UpdateEvent(s))];
  }

  /** For every such story, in a run from the migrated database: the page tells the `old_id`, the user list still has
      it at the end, and the replacing consumer, having applied everything, has not. */
  lemma UpdateLosesOldId(s: Story)
    requires s.Tellable()
    ensures var w := ImportedWorld(s);
            var ms := [Elsewhere(Update(s))];
            var before := PlayAll(Start(w, PROJECT), ms);
            var view := View(before.world.db, PROJECT);
            var c := PlayCopy(before, PlayCopies(Start(w, PROJECT), ms), Read);
            && Admissible(EMPTY, Restart(s.setup)) && Admissible(FirstWorld(s.setup), ImportRequest(s))
            && Playable(Start(w, PROJECT), ms)
            && before.phase.Draining? && |Changes(before.world.db, PROJECT, before.cursor).0| < PAGE
            && s.id in view && view[s.id].oldId == Some(s.user.oldId)
            && Stripped(c.writes, s.id) && c.users != view
  {
    hide TwoUsers, Serve, View, Changes, Snapshot, Stripped, Row, RolesOf, Update, ImportRequest, FirstWorld,
         ImportedWorld;
    var w := ImportedWorld(s);
    var f := Start(w, PROJECT);
    var ms := [Elsewhere(Update(s))];
    assert ms[..0] == [];
    FirstTables(s.setup);
    ImportedTables(s);
    PageIsWhole(w, s);
    UpdateIsServed(w, s);
    UpdateIsPlayable(w, s);
    OneEvent(w.db, s);
    var before := PlayAll(f, ms);
    assert PlayAll(f, []) == f && before == f.(world := Serve(w, Update(s)));
    OneIsPending(before.world.db, s, w.db.events);
    ImportedIsSound(s);
    ReplacingConverges(w, PROJECT, ms);
    ViewIsRows(before.world.db, PROJECT, s.id);
    LastWriteStrips(Snapshot(w.db, PROJECT, "", None).users.Keys, s);
  }

  lemma OneEvent(db: Tables, s: Story)
    requires TwoUsers(db, s)
    ensures |db.events| == 1 && db.events[0].id == 1
  {
  }

  lemma UpdateIsPlayable(w: World, s: Story)
    ensures Admissible(w, Update(s)) && Logged(w.db, Update(s))
  {
  }

  lemma ImportedIsSound(s: Story)
    requires s.Tellable()
    ensures Standing(ImportedWorld(s).db) && InOrder(ImportedWorld(s).db)
  {
    hide Standing, InOrder, Serve, Admissible;
    FirstTables(s.setup);
    ImportedTables(s);
    var rs := [Restart(s.setup)] + [ImportRequest(s)];
    assert rs[..1] == [Restart(s.setup)] && [Restart(s.setup)][..0] == [];
    assert Run(EMPTY, []) == EMPTY && AdmissibleRun(EMPTY, []);
    assert Run(EMPTY, [Restart(s.setup)]) == FirstWorld(s.setup) && AdmissibleRun(EMPTY, [Restart(s.setup)]);
    assert rs[1] == ImportRequest(s) && Run(EMPTY, rs) == ImportedWorld(s);
    EveryReachableState(rs);
  }

  /** There is such a story. */
  lemma StoriesAreTold()
    ensures Story(Setup(PROJECT, "", "", "", "a", "root@x", Some(StoredPassword("p", "s", false))),
                  LegacyUser(1, "u@x", StoredPassword("p", "s", true), "U", "approved", "client", None),
                  "b", "abc").Tellable()
  {
    NormalText("u@x");
    NormalText("abc");
    NormalText("root@x");
    assert "root@x"[4] == '@' && "u@x"[1] == '@';
  }

  lemma NormalText(s: string)
    requires s != "" && forall i :: 0 <= i < |s| ==> LowerChar(s[i]) == s[i] && !IsSpace(s[i])
    ensures Trim(s) == s && Lower(s) == s
  {
    assert !IsSpace(s[0]) && !IsSpace(s[|s| - 1]);
  }
}
