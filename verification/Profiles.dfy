/** Profiles: what a user or a legacy client asks for is what is stored, field by field, and what every project shows,
    until somebody asks for something else. */
module Profiles {
  import opened Text
  import opened Schema
  import opened Repository
  import opened Service
  import opened ChangeLog
  import opened Transactions
  import opened History
  import opened Credentials
  import opened Accounts
  import opened OneAccount
  import opened OneSeat
  import opened SignIn

  // ---------------------------------------------------------------- the profile page

  /** ^[a-z0-9._-]{3,32}$, spelled out. */
  predicate LoginPattern(login: string) {
    && 3 <= |login| <= 32
    && forall i :: 0 <= i < |login| ==>
         'a' <= login[i] <= 'z' || '0' <= login[i] <= '9' || login[i] == '.' || login[i] == '_' || login[i] == '-'
  }

  lemma PatternIsShape(login: string)
    ensures LoginPattern(login) <==> LoginShape(login)
  {
    if LoginShape(login) {
      forall i | 0 <= i < |login|
        ensures 'a' <= login[i] <= 'z' || '0' <= login[i] <= '9' || login[i] == '.' || login[i] == '_'
                || login[i] == '-'
      {
        assert login[i] in login;
      }
    }
  }

  /** An active account, fields of acceptable length, and a login of the pattern that no other account has. */
  predicate MayRename(db: Tables, r: DirectoryRequest)
    requires r.DoUpdateProfile?
  {
    && r.account in db.accounts && db.accounts[r.account].status.Active?
    && LoginPattern(Lower(Trim(r.login)))
    && |Trim(r.given)| <= 100 && |Trim(r.familyName)| <= 100 && |Trim(r.avatar)| <= 2048
    && forall o :: o in db.accounts && o != r.account ==> db.accounts[o].profile.login != Lower(Trim(r.login))
  }

  lemma LoginIsFree(accounts: map<string, Account>, id: string, login: string)
    requires AccountsOk(accounts) && LoginShape(login)
    ensures LoginFree(accounts, id, login)
            <==> forall o :: o in accounts && o != id ==> accounts[o].profile.login != login
  {
    LoginShapeIsName(login);
    forall o | o in accounts ensures Lower(accounts[o].profile.login) == accounts[o].profile.login {
      assert NameOk(accounts[o].profile);
    }
  }

  /** Only accounts and the log of changes. */
  predicate OnlyAccounts(a: Tables, b: Tables) {
    b == a.(accounts := b.accounts, outbox := b.outbox, events := b.events, lastId := b.lastId)
  }

  lemma UpdateGoes(a: Tables, now: nat, id: string, login: string, given: string, family: string, name: string,
                   avatar: string)
    requires Standing(a)
    ensures var r := UpdateProfile(a, now, id, login, given, family, name, avatar);
            && (r.Ok? <==> id in a.accounts && a.accounts[id].status.Active? && LoginFree(a.accounts, id, login))
            && (r.Ok? ==> OnlyAccounts(a, r.value))
  {
    hide Standing, LoginFree, QueueAll, ProfileProjects;
    if id in a.accounts {
      var p := Profile(a.accounts[id].profile.email, login, name, given, family, avatar);
      var updated := a.(accounts := a.accounts[id := a.accounts[id].(profile := p)]);
      ProjectsAreThere(a, updated, id);
      QueueAllGoes(updated, now, ProfileProjects(updated, id, ""), ProfileUpdated, id, ProfileOnly(p, []));
    }
  }

  lemma RenameGoes(a: Tables, now: nat, r: DirectoryRequest)
    requires AccountsOk(a.accounts) && Standing(a) && r.DoUpdateProfile?
    ensures var (b, reply) := HandleDirectory(a, now, r);
            && (reply.Accepted? <==> MayRename(a, r))
            && OnlyAccounts(a, b) && (reply.Refused? ==> b == a)
  {
    hide Lower, Trim, AccountsOk, Standing, LoginShape, LoginPattern, LoginFree, UpdateProfile;
    var login := Lower(Trim(r.login));
    PatternIsShape(login);
    if LoginShape(login) { LoginIsFree(a.accounts, r.account, login); }
    UpdateGoes(a, now, r.account, login, Trim(r.given), Trim(r.familyName),
               Trim(Trim(r.given) + " " + Trim(r.familyName)), Trim(r.avatar));
  }

  lemma NoNewAccounts(a: Tables, b: Tables, r: Request, reply: Reply)
    requires AccountsFollow(a, b, r, reply) && AboutOne(r)
    ensures b.accounts.Keys == a.accounts.Keys
  {
    hide AccountNext;
    forall id ensures id in b.accounts <==> id in a.accounts { assert !OneAccount.Inserts(r, reply, id); }
  }

  /** The two requests for a profile. */
  predicate AboutOne(r: Request) {
    r.Directory? && (r.directory.DoUpdateProfile? || r.directory.DoUpdateLegacyProfile?)
  }

  /** A profile change succeeds exactly when it may; then each field is the trimmed one asked for, the login in lower
      case, the name the two names joined, the address the old one; no other account and nothing else of this one
      changes; and every project of the account shows exactly that profile. */
  lemma UpdateAnswers(w: World, rs: seq<Request>, r: DirectoryRequest)
    requires AllOk(w) && Standing(w.db) && AdmissibleRun(w, rs) && r.DoUpdateProfile?
    ensures var v := Run(w, rs);
            var (b, reply) := Handle(v.db, v.clock, Directory(r));
            && (reply.Accepted? <==> MayRename(v.db, r))
            && (reply.Refused? ==> b == v.db)
            && (reply.Accepted? ==>
                  && OnlyAccounts(v.db, b) && b.accounts.Keys == v.db.accounts.Keys
                  && (forall o :: o in v.db.accounts && o != r.account ==> b.accounts[o] == v.db.accounts[o])
                  && b.accounts[r.account] == v.db.accounts[r.account].(profile := b.accounts[r.account].profile)
                  && (var p := b.accounts[r.account].profile;
                      && p.login == Lower(Trim(r.login)) && p.given == Trim(r.given) && p.family == Trim(r.familyName)
                      && p.name == Trim(p.given + " " + p.family) && p.avatar == Trim(r.avatar)
                      && p.email == v.db.accounts[r.account].profile.email
                      && forall project :: Row(v.db, project, r.account).Some? ==>
                           Row(b, project, r.account)
                           == Some(Row(v.db, project, r.account).value.(profile := p))))
  {
    hide Service.Serve, Admissible, HandleDirectory, AccountsOk, Standing, Lower, Trim, LoginPattern;
    RunAllOk(w, rs);
    RunStands(w, rs);
    var v := Run(w, rs);
    RenameGoes(v.db, v.clock, r);
    AccountStep(v.db, v.clock, Directory(r));
    NoNewAccounts(v.db, Handle(v.db, v.clock, Directory(r)).0, Directory(r), Handle(v.db, v.clock, Directory(r)).1);
  }

  // ---------------------------------------------------------------- a legacy client

  lemma RelabelGoes(a: Tables, now: nat, r: DirectoryRequest)
    requires Standing(a) && r.DoUpdateLegacyProfile?
    ensures var (b, reply) := HandleDirectory(a, now, r);
            && (reply.Accepted? <==> r.account in a.accounts && Seat(r.account, r.project) in a.access)
            && OnlyAccounts(a, b) && (reply.Refused? ==> b == a)
  {
    hide QueueAll, ProfileProjects;
    if r.account in a.accounts {
      var p := a.accounts[r.account].profile.(name := r.name, given := r.name, family := "", avatar := r.avatar);
      var updated := a.(accounts := a.accounts[r.account := a.accounts[r.account].(profile := p)]);
      var projects := [r.project] + ProfileProjects(updated, r.account, r.project);
      if Seat(r.account, r.project) in a.access {
        OriginAndRest(updated, r.account, r.project);
        QueueAllGoes(updated, now, projects, ProfileUpdated, r.account, ProfileOnly(p, []));
      }
      FirstIsFound(updated, now, projects, r.account, ProfileOnly(p, []));
    }
  }

  lemma FirstIsFound(db: Tables, now: nat, projects: seq<string>, account: string, payload: Payload)
    requires projects != []
    ensures QueueAll(db, now, projects, ProfileUpdated, account, payload).Ok? ==>
              Seat(account, projects[0]) in db.access
  {
    hide QueueAll;
    if QueueAll(db, now, projects, ProfileUpdated, account, payload).Ok? {
      QueueAllFinds(db, now, projects, account, payload);
    }
  }

  /** A legacy client changes a profile exactly when the user has a seat in its project; then name and given name are
      the name asked for, the family name is empty, the avatar the one asked for, address and login the old ones, and
      every project shows exactly that. */
  lemma LegacyAnswers(w: World, rs: seq<Request>, r: DirectoryRequest)
    requires AllOk(w) && Standing(w.db) && AdmissibleRun(w, rs) && r.DoUpdateLegacyProfile?
    ensures var v := Run(w, rs);
            var (b, reply) := Handle(v.db, v.clock, Directory(r));
            && (reply.Accepted? <==> r.account in v.db.accounts && Seat(r.account, r.project) in v.db.access)
            && (reply.Refused? ==> b == v.db)
            && (reply.Accepted? ==>
                  && OnlyAccounts(v.db, b) && b.accounts.Keys == v.db.accounts.Keys
                  && (forall o :: o in v.db.accounts && o != r.account ==> b.accounts[o] == v.db.accounts[o])
                  && b.accounts[r.account] == v.db.accounts[r.account].(profile := b.accounts[r.account].profile)
                  && (var p := b.accounts[r.account].profile;
                      && p.name == r.name && p.given == r.name && p.family == "" && p.avatar == r.avatar
                      && p.email == v.db.accounts[r.account].profile.email
                      && p.login == v.db.accounts[r.account].profile.login
                      && forall project :: Row(v.db, project, r.account).Some? ==>
                           Row(b, project, r.account)
                           == Some(Row(v.db, project, r.account).value.(profile := p))))
  {
    hide Service.Serve, Admissible, HandleDirectory, AccountsOk, Standing;
    RunAllOk(w, rs);
    RunStands(w, rs);
    var v := Run(w, rs);
    RelabelGoes(v.db, v.clock, r);
    AccountStep(v.db, v.clock, Directory(r));
    NoNewAccounts(v.db, Handle(v.db, v.clock, Directory(r)).0, Directory(r), Handle(v.db, v.clock, Directory(r)).1);
  }

  // ---------------------------------------------------------------- until somebody asks for something else

  /** The requests that may change the profile of an account. */
  predicate AboutProfile(r: Request, id: string) {
    r.Directory? && ((r.directory.DoUpdateProfile? && r.directory.account == id)
                     || (r.directory.DoUpdateLegacyProfile? && r.directory.account == id))
  }

  predicate HasProfile(db: Tables, id: string, p: Profile) {
    id in db.accounts && db.accounts[id].profile == p
  }

  lemma ProfileStays(w: World, r: Request, id: string, p: Profile)
    requires AllOk(w) && HasProfile(w.db, id, p) && !AboutProfile(r, id)
    ensures HasProfile(Service.Serve(w, r).db, id, p)
  {
    hide Handle, AccountsOk, Lower, Trim;
    AccountStep(w.db, w.clock, r);
  }

  lemma {:induction false} ProfileForTheRun(w: World, rs: seq<Request>, id: string, p: Profile)
    requires AllOk(w) && AdmissibleRun(w, rs) && HasProfile(w.db, id, p)
    requires forall i :: 0 <= i < |rs| ==> !AboutProfile(rs[i], id)
    ensures HasProfile(Run(w, rs).db, id, p)
  {
    hide Service.Serve, AllOk, Admissible, HasProfile, AboutProfile;
    if rs != [] {
      var n := |rs| - 1;
      ProfileForTheRun(w, rs[..n], id, p);
      RunAllOk(w, rs[..n]);
      ProfileStays(Run(w, rs[..n]), rs[n], id, p);
    }
  }

  /** Whatever happens to the account afterwards, wherever it is listed it is listed with the profile last asked for. */
  lemma ProfileIsShown(w: World, r: DirectoryRequest, rs: seq<Request>, project: string)
    requires AllOk(w) && r.DoUpdateProfile? && Admissible(w, Directory(r))
    requires Handle(w.db, w.clock, Directory(r)).1.Accepted? && r.account in w.db.accounts
    requires AdmissibleRun(Service.Serve(w, Directory(r)), rs)
    requires forall i :: 0 <= i < |rs| ==> !AboutProfile(rs[i], r.account)
    ensures var row := Row(Run(Service.Serve(w, Directory(r)), rs).db, project, r.account);
            row.Some? ==> row.value.profile
                          == Renamed(w.db.accounts[r.account].profile, r.login, r.given, r.familyName, r.avatar)
  {
    hide Handle, AllOk, Lower, Trim, Note, AboutProfile;
    var first := Service.Serve(w, Directory(r));
    var p := Renamed(w.db.accounts[r.account].profile, r.login, r.given, r.familyName, r.avatar);
    AccountStep(w.db, w.clock, Directory(r)) by { NamesOk(w); }
    ServeAllOk(w, Directory(r));
    ProfileForTheRun(first, rs, r.account, p);
  }

  lemma NamesOk(w: World)
    requires AllOk(w)
    ensures AccountsOk(w.db.accounts)
  {
  }
}
