/** The two delivery channels grow together: whatever a request does, each new row of `sync_events` has its twin in
    the outbox, and each new row of the outbox its twin in `sync_events`. */
module DeliveryChannels {
  import opened Text
  import opened Schema
  import opened Repository
  import opened Import
  import opened Service
  import opened Credentials

  datatype Channels = Channels(outbox: map<nat, OutboxRow>, events: seq<SyncEvent>, lastId: nat)

  function ChannelsOf(db: Tables): Channels {
    Channels(db.outbox, db.events, db.lastId)
  }

  predicate Twin(row: OutboxRow, e: SyncEvent) {
    row.project == e.project && row.kind == e.kind && row.payload == e.payload
  }

  /** As a row begins: written now, never tried, unpublished. */
  predicate Unsent(row: OutboxRow, now: nat) {
    row.created == now && row.attempts == 0 && row.published.None?
  }

  /** Old rows stay as they are; new rows and new events carry new ids and the same records, and are unsent. */
  predicate Grows(now: nat, a: Channels, b: Channels) {
    && a.lastId <= b.lastId && a.events <= b.events
    && (forall i :: i in a.outbox && i <= a.lastId ==> i in b.outbox)
    && (forall i :: i in b.outbox ==>
          || (i in a.outbox && b.outbox[i] == a.outbox[i])
          || (&& a.lastId < i <= b.lastId && Unsent(b.outbox[i], now)
              && exists k :: |a.events| <= k < |b.events| && b.events[k].id == i))
    && (forall k :: |a.events| <= k < |b.events| ==>
          && a.lastId < b.events[k].id <= b.lastId
          && b.events[k].id in b.outbox && Twin(b.outbox[b.events[k].id], b.events[k]))
  }

  lemma GrowsAlready(now: nat, a: Channels)
    ensures Grows(now, a, a)
  {
  }

  lemma GrowsOn(now: nat, a: Channels, b: Channels, c: Channels)
    requires Grows(now, a, b) && Grows(now, b, c)
    ensures Grows(now, a, c)
  {
    forall k | |a.events| <= k < |c.events|
      ensures a.lastId < c.events[k].id <= c.lastId && c.events[k].id in c.outbox
              && Twin(c.outbox[c.events[k].id], c.events[k])
    {
      if k < |b.events| { assert c.events[k] == b.events[k]; }
    }
    forall i | i in c.outbox && !(i in a.outbox && c.outbox[i] == a.outbox[i])
      ensures a.lastId < i <= c.lastId && Unsent(c.outbox[i], now)
              && exists k :: |a.events| <= k < |c.events| && c.events[k].id == i
    {
      if i in b.outbox && c.outbox[i] == b.outbox[i] {
        var k :| |a.events| <= k < |b.events| && b.events[k].id == i;
        assert c.events[k] == b.events[k];
      } else {
        var k :| |b.events| <= k < |c.events| && c.events[k].id == i;
        assert |a.events| <= k;
      }
    }
  }

  // ---------------------------------------------------------------- the three ways to queue

  ghost predicate ResultGrows(now: nat, db: Tables, r: Result<Tables>) {
    r.Ok? ==> Grows(now, ChannelsOf(db), ChannelsOf(r.value))
  }

  lemma QueueEventGrows(db: Tables, now: nat, project: string, kind: Kind, account: string, payload: Payload)
    ensures ResultGrows(now, db, QueueEvent(db, now, project, kind, account, payload))
  {
    var r := QueueEvent(db, now, project, kind, account, payload);
    if r.Ok? {
      var e := r.value.events[|db.events|];
      assert r.value.events == db.events + [e];
    }
  }

  lemma {:induction false} QueueAllGrows(db: Tables, now: nat, projects: seq<string>, kind: Kind, account: string,
                                         payload: Payload)
    ensures ResultGrows(now, db, QueueAll(db, now, projects, kind, account, payload))
  {
    hide QueueEvent, Grows;
    if projects == [] {
      GrowsAlready(now, ChannelsOf(db));
    } else {
      var n := |projects| - 1;
      var before := QueueAll(db, now, projects[..n], kind, account, payload);
      QueueAllGrows(db, now, projects[..n], kind, account, payload);
      if before.Ok? {
        var r := QueueEvent(before.value, now, projects[n], kind, account, payload);
        QueueEventGrows(before.value, now, projects[n], kind, account, payload);
        if r.Ok? { GrowsOn(now, ChannelsOf(db), ChannelsOf(before.value), ChannelsOf(r.value)); }
      }
    }
  }

  lemma LogSeatGrows(db: Tables, now: nat, kind: Kind, seat: Seat, roles: seq<string>)
    ensures ResultGrows(now, db, LogSeat(db, now, kind, seat, roles))
  {
    hide QueueEvent, Grows;
    if AccountPayload(db, seat.account, roles).Ok? {
      QueueEventGrows(db, now, seat.project, kind, seat.account, AccountPayload(db, seat.account, roles).value);
    }
  }

  /** The three of them for all arguments, so that each transaction below can find its own. */
  lemma QueueingGrows(now: nat)
    ensures forall db, project, kind, account, payload ::
              ResultGrows(now, db, QueueEvent(db, now, project, kind, account, payload))
    ensures forall db, projects, kind, account, payload ::
              ResultGrows(now, db, QueueAll(db, now, projects, kind, account, payload))
    ensures forall db, kind, seat, roles :: ResultGrows(now, db, LogSeat(db, now, kind, seat, roles))
  {
    hide QueueEvent, QueueAll, LogSeat, Grows;
    forall db, project, kind, account, payload
      ensures ResultGrows(now, db, QueueEvent(db, now, project, kind, account, payload))
    {
      QueueEventGrows(db, now, project, kind, account, payload);
    }
    forall db, projects, kind, account, payload
      ensures ResultGrows(now, db, QueueAll(db, now, projects, kind, account, payload))
    {
      QueueAllGrows(db, now, projects, kind, account, payload);
    }
    forall db, kind, seat, roles ensures ResultGrows(now, db, LogSeat(db, now, kind, seat, roles)) {
      LogSeatGrows(db, now, kind, seat, roles);
    }
  }

  // ---------------------------------------------------------------- every transaction

  lemma DisableGrows(db: Tables, now: nat, id: string)
    ensures ResultGrows(now, db, DisableAccount(db, now, id))
  {
    hide QueueAll, Grows, SessionsWithout, CodesWithout, TicketsWithout, RevokeAccount, ProfileProjects;
    QueueingGrows(now);
  }

  lemma GrantGrows(db: Tables, now: nat, account: string, project: string, roles: seq<string>)
    ensures ResultGrows(now, db, GrantAccess(db, now, account, project, roles))
  {
    hide LogSeat, Grows, ApproveWaiting;
    QueueingGrows(now);
  }

  lemma RevokeGrows(db: Tables, now: nat, account: string, project: string)
    ensures ResultGrows(now, db, RevokeAccess(db, now, account, project))
  {
    hide QueueEvent, Grows, RevokeSeat;
    QueueingGrows(now);
  }

  lemma ApproveGrows(db: Tables, now: nat, project: string, request: string, roles: seq<string>)
    ensures ResultGrows(now, db, ApproveRequest(db, now, project, request, roles))
  {
    hide LogSeat, Grows;
    QueueingGrows(now);
  }

  lemma SetRolesGrows(db: Tables, now: nat, project: string, account: string, roles: seq<string>)
    ensures ResultGrows(now, db, SetProjectRoles(db, now, project, account, roles))
  {
    hide LogSeat, Grows;
    QueueingGrows(now);
  }

  lemma ProjectAdminGrows(db: Tables, now: nat, project: string, email: string)
    ensures ResultGrows(now, db, GrantProjectAdmin(db, now, project, email))
  {
    hide LogSeat, Grows, FirstRow, VerifiedActive, AdminRoles, Lower, Trim;
    QueueingGrows(now);
  }

  lemma GlobalAdminGrows(now: nat, db: Tables, email: string)
    ensures ResultGrows(now, db, GrantGlobalAdmin(db, email))
  {
    hide Grows, FirstRow, VerifiedActive;
    GrowsAlready(now, ChannelsOf(db));
  }

  lemma ActivateGrows(now: nat, db: Tables, id: string)
    ensures ResultGrows(now, db, ActivateAccount(db, id))
  {
    hide Grows;
    GrowsAlready(now, ChannelsOf(db));
  }

  lemma PasswordGrows(db: Tables, now: nat, id: string, password: StoredPassword)
    ensures ResultGrows(now, db, RevokePasswordSessions(db, now, id, password))
  {
    hide QueueAll, Grows, SessionsWithout, CodesWithout, TicketsWithout, RevokeAccount, ProfileProjects, SetPassword;
    QueueingGrows(now);
  }

  lemma ResetGrows(db: Tables, now: nat, ticket: string, password: StoredPassword)
    ensures ResultGrows(now, db, SubmitReset(db, now, ticket, password))
  {
    hide RevokePasswordSessions, Grows;
    if ticket in db.resets {
      PasswordGrows(db.(resets := db.resets[ticket := db.resets[ticket].(used := true)]), now,
                    db.resets[ticket].account, password);
    }
  }

  lemma ChangeGrows(db: Tables, now: nat, id: string, current: string, password: StoredPassword)
    ensures ResultGrows(now, db, SubmitPassword(db, now, id, current, password))
  {
    hide RevokePasswordSessions, Grows;
    PasswordGrows(db, now, id, password);
  }

  lemma ProfileGrows(db: Tables, now: nat, id: string, login: string, given: string, family: string, avatar: string)
    ensures ResultGrows(now, db, SubmitProfile(db, now, id, login, given, family, avatar))
  {
    hide QueueAll, Grows, ProfileProjects, LoginFree, Lower, Trim, LoginShape;
    QueueingGrows(now);
  }

  lemma LegacyProfileGrows(db: Tables, now: nat, project: string, id: string, name: string, avatar: string)
    ensures ResultGrows(now, db, UpdateLegacyProfile(db, now, project, id, name, avatar))
  {
    hide QueueAll, Grows, ProfileProjects;
    QueueingGrows(now);
  }

  lemma ImportUserGrows(db: Tables, now: nat, u: LegacyUser, id: string)
    ensures ResultGrows(now, db, ImportUser(db, now, u, id))
  {
    hide LogSeat, Grows, Insertable, AccountOf, RolesOf, Imported;
    QueueingGrows(now);
    GrowsAlready(now, ChannelsOf(db));
  }

  lemma {:induction false} ImportGrows(db: Tables, now: nat, users: seq<LegacyUser>, ids: seq<string>)
    requires |users| == |ids|
    ensures ResultGrows(now, db, ImportAll(db, now, users, ids))
  {
    hide Grows, ImportUser;
    if users == [] {
      GrowsAlready(now, ChannelsOf(db));
    } else {
      var n := |users| - 1;
      ImportGrows(db, now, users[..n], ids[..n]);
      var before := ImportAll(db, now, users[..n], ids[..n]);
      if before.Ok? {
        ImportUserGrows(before.value, now, users[n], ids[n]);
        var r := ImportUser(before.value, now, users[n], ids[n]);
        if r.Ok? { GrowsOn(now, ChannelsOf(db), ChannelsOf(before.value), ChannelsOf(r.value)); }
      }
    }
  }

  // ---------------------------------------------------------------- every request

  lemma SettleGrows(now: nat, db: Tables, r: Result<Tables>)
    requires ResultGrows(now, db, r)
    ensures Grows(now, ChannelsOf(db), ChannelsOf(Settle(db, r).0))
  {
    GrowsAlready(now, ChannelsOf(db));
  }

  lemma QuietGrows(now: nat, db: Tables, r: Result<Tables>)
    requires r.Ok? ==> ChannelsOf(r.value) == ChannelsOf(db)
    ensures Grows(now, ChannelsOf(db), ChannelsOf(Settle(db, r).0))
  {
    GrowsAlready(now, ChannelsOf(db));
  }

  lemma DirectoryGrows(db: Tables, now: nat, r: DirectoryRequest)
    ensures Grows(now, ChannelsOf(db), ChannelsOf(HandleDirectory(db, now, r).0))
  {
    hide Grows, Settle, SubmitProfile, UpdateLegacyProfile, ImportAll, AddEmailVerification, Insertable, Readable,
         FirstRow, Unconfirmed, Lower, Trim, LoginShape, MarkVerified, Requested;
    match r
    case DoRegister(id, form, password, ticket) => QuietGrows(now, db, Register(db, now, id, form, password, ticket));
    case DoResendVerification(email, ticket) => QuietGrows(now, db, ResendVerification(db, now, email, ticket));
    case DoVerifyEmail(ticket) => QuietGrows(now, db, VerifyEmail(db, now, ticket));
    case DoUpdateProfile(account, login, given, family, avatar) =>
      ProfileGrows(db, now, account, login, given, family, avatar);
      SettleGrows(now, db, SubmitProfile(db, now, account, login, given, family, avatar));
    case DoUpdateLegacyProfile(project, account, name, avatar) =>
      LegacyProfileGrows(db, now, project, account, name, avatar);
      SettleGrows(now, db, UpdateLegacyProfile(db, now, project, account, name, avatar));
    case DoRequestAccess(requestId, account, project) =>
      QuietGrows(now, db, SubmitAccessRequest(db, requestId, account, project));
    case DoImport(users, ids) =>
      if |users| == |ids| { ImportGrows(db, now, users, ids); }
      SettleGrows(now, db, ImportUsers(db, now, users, ids));
  }

  lemma LoginGrows(db: Tables, now: nat, r: LoginRequest)
    ensures Grows(now, ChannelsOf(db), ChannelsOf(HandleLogin(db, now, r).0))
  {
    hide Grows, Settle, SubmitReset, SubmitPassword, SessionAccount, WithLogin, ForgotPassword;
    match r
    case DoResetPassword(ticket, password) =>
      ResetGrows(db, now, ticket, password);
      SettleGrows(now, db, SubmitReset(db, now, ticket, password));
    case DoChangePassword(account, attempt, password) =>
      ChangeGrows(db, now, account, attempt, password);
      SettleGrows(now, db, SubmitPassword(db, now, account, attempt, password));
    case _ =>
      GrowsAlready(now, ChannelsOf(db));
      LoginIsQuiet(db, now, r);
  }

  lemma LoginIsQuiet(db: Tables, now: nat, r: LoginRequest)
    requires !r.DoResetPassword? && !r.DoChangePassword?
    ensures ChannelsOf(HandleLogin(db, now, r).0) == ChannelsOf(db)
  {
    hide SessionAccount, WithLogin, ForgotPassword, SubmitReset, SubmitPassword, Settle;
    if Opens(r) { OpensOne(db, now, r); }
  }

  lemma AdminGrows(db: Tables, now: nat, r: AdminRequest)
    ensures Grows(now, ChannelsOf(db), ChannelsOf(HandleAdmin(db, now, r).0))
  {
    hide Grows, Settle, ActivateAccount, DisableAccount, GrantAccess, RevokeAccess, ApproveRequest, SetProjectRoles,
         GrantProjectAdmin, GrantGlobalAdmin, Lower, Trim;
    match r
    case DoActivate(account) =>
      ActivateGrows(now, db, account);
      SettleGrows(now, db, ActivateAccount(db, account));
    case DoDisable(actor, account) =>
      DisableGrows(db, now, account);
      SettleGrows(now, db, Disable(db, now, actor, account));
    case DoGrant(account, project, roles) =>
      GrantGrows(db, now, account, project, roles);
      SettleGrows(now, db, GrantAccess(db, now, account, project, roles));
    case DoRevoke(account, project) =>
      RevokeGrows(db, now, account, project);
      SettleGrows(now, db, RevokeAccess(db, now, account, project));
    case DoApprove(project, requestId, roles) =>
      ApproveGrows(db, now, project, requestId, roles);
      SettleGrows(now, db, ApproveRequest(db, now, project, requestId, roles));
    case DoSetRoles(project, account, roles) =>
      SetRolesGrows(db, now, project, account, roles);
      SettleGrows(now, db, SetProjectRoles(db, now, project, account, roles));
    case DoGrantProjectAdmin(project, email) =>
      ProjectAdminGrows(db, now, project, email);
      SettleGrows(now, db, GrantProjectAdmin(db, now, project, email));
    case DoGrantGlobalAdmin(email) =>
      GlobalAdminGrows(now, db, Lower(Trim(email)));
      SettleGrows(now, db, GrantGlobalAdmin(db, Lower(Trim(email))));
  }

  lemma OAuthGrows(db: Tables, now: nat, r: OAuthRequest)
    ensures Grows(now, ChannelsOf(db), ChannelsOf(HandleOAuth(db, now, r).0))
  {
    hide Grows, Exchange, Refresh, Authorize, Settle;
    GrowsAlready(now, ChannelsOf(db));
    match r
    case DoRegisterClient(client, project, secretHash, redirects) =>
      QuietGrows(now, db, SubmitClient(db, client, project, secretHash, redirects));
    case DoAuthorize(input, code) => AuthorizeCases(db, now, input, code);
    case DoExchange(client, code, redirect, challenge, refresh, family, signed) =>
      ExchangeCases(db, now, client, code, redirect, challenge, refresh, family, signed);
    case DoRefresh(client, token, next, hostNow, signed) => RotationCases(db, client, token, next, hostNow, signed);
  }

  /** Requests other than a publisher's round or the clean-up of the outbox. */
  predicate LeavesOutboxAlone(r: Request) {
    r.Upkeep? ==> !r.upkeep.DoPublish? && r != Upkeep(DoClean(Statement.Outbox))
  }

  lemma UpkeepGrows(db: Tables, now: nat, r: UpkeepRequest)
    requires LeavesOutboxAlone(Upkeep(r))
    ensures Grows(now, ChannelsOf(db), ChannelsOf(HandleUpkeep(db, now, r).0))
  {
    hide Grows, IncrementAttempt, RotateSigningKey, PublishedKeys, Clean, Pickable, RecordSend;
    match r
    case Burn(count) => BurnGrows(now, db, count);
    case DoClean(statement) =>
      CleanKeepsChannels(db, now, statement);
      GrowsAlready(now, ChannelsOf(db));
    case _ => GrowsAlready(now, ChannelsOf(db));
  }

  lemma BurnGrows(now: nat, db: Tables, count: nat)
    ensures Grows(now, ChannelsOf(db), ChannelsOf(db.(lastId := db.lastId + count)))
  {
  }

  lemma CleanKeepsChannels(db: Tables, now: nat, statement: Statement)
    requires !statement.Outbox?
    ensures ChannelsOf(Clean(db, now, statement)) == ChannelsOf(db)
  {
  }

  lemma HandleGrows(db: Tables, now: nat, r: Request)
    requires LeavesOutboxAlone(r)
    ensures Grows(now, ChannelsOf(db), ChannelsOf(Handle(db, now, r).0))
  {
    hide Boot, Grows, HandleDirectory, HandleLogin, HandleAdmin, HandleOAuth, HandleUpkeep;
    match r
    case Directory(d) => DirectoryGrows(db, now, d);
    case Login(l) => LoginGrows(db, now, l);
    case Admin(a) => AdminGrows(db, now, a);
    case OAuth(o) => OAuthGrows(db, now, o);
    case Upkeep(u) => UpkeepGrows(db, now, u);
    case Restart(s) =>
      BootElsewhere(db, s);
      GrowsAlready(now, ChannelsOf(db));
  }
}
