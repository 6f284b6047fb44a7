/** The rows of the tables created by migrations 1 to 3, and the whole database as one value.
    A nullable timestamp whose value the code never reads is a boolean here (`used`, `revoked`, `verified`). */
module Schema {

  datatype Option<+T> = None | Some(value: T)

  /** What a statement or a service can answer instead of a result. */
  datatype Error =
    | NoRows
    | UniqueViolation
    | ForeignKeyViolation
    | RefreshReuse
    | InvalidInput
    | InvalidCredentials
    | InvalidClient
    | Unverified
    | Disabled
    | AccessPending
    | NoAccess
    | SigningFailed

  datatype Result<+T> = Ok(value: T) | Err(error: Error) {
    predicate IsFailure() { Err? }

    function PropagateFailure<U>(): Result<U>
      requires Err?
    {
      Err(error)
    }

    function Extract(): T
      requires Ok?
    {
      value
    }
  }

  // The clock counts microseconds, the resolution of timestamptz.
  const SECOND: nat := 1_000_000
  const MINUTE: nat := 60 * SECOND
  const HOUR: nat := 60 * MINUTE
  const DAY: nat := 24 * HOUR

  datatype Status = PendingApproval | Active | Inactive

  /** A stored password hash: the password it was made from, its salt, and whether it is a legacy bcrypt hash. */
  datatype StoredPassword = StoredPassword(password: string, salt: string, legacy: bool) {
    predicate Verifies(candidate: string) { candidate == password }
  }

  datatype Profile = Profile(email: string, login: string, name: string, given: string, family: string, avatar: string)

  datatype Account = Account(profile: Profile, password: StoredPassword, status: Status, verified: bool,
                             globalAdmin: bool, oldId: Option<int>) {
    predicate InGoodStanding() { status.Active? && verified }
  }

  datatype Seat = Seat(account: string, project: string)

  /** A one-time link: an email verification or a password reset. */
  datatype Ticket = Ticket(account: string, expires: nat, used: bool)

  datatype Client = Client(project: string, secretHash: string, redirects: seq<string>)

  datatype RequestStatus = Waiting | Approved

  datatype AccessRequest = AccessRequest(account: string, project: string, status: RequestStatus)

  datatype Session = Session(account: string, expires: nat)

  datatype Code = Code(account: string, client: string, redirect: string, nonce: string, challenge: string,
                       scopes: seq<string>, expires: nat, used: bool)

  datatype RefreshToken = RefreshToken(family: string, account: string, client: string, project: string,
                                       scopes: seq<string>, expires: nat, familyExpires: nat,
                                       used: bool, revoked: bool) {
    predicate Live() { !used && !revoked }
  }

  datatype Limit = Limit(attempts: nat, until: nat)

  datatype SigningKey = SigningKey(created: nat, publishUntil: Option<nat>) {
    predicate Retired() { publishUntil.Some? }

    predicate Published(now: nat) { publishUntil.None? || publishUntil.value > now }
  }

  datatype Kind = AccessGranted | RolesChanged | ProfileUpdated | AccessRevoked | SessionsRevoked

  /** The JSON body of an event. `profile.updated` has no `old_id` key; the revocations carry only the user id. */
  datatype Payload =
    | FullUser(oldId: Option<int>, profile: Profile, roles: seq<string>)
    | ProfileOnly(profile: Profile, roles: seq<string>)
    | UserIdOnly
  {
    function WithRoles(roles: seq<string>): Payload {
      match this
      case FullUser(oldId, profile, _) => FullUser(oldId, profile, roles)
      case ProfileOnly(profile, _) => ProfileOnly(profile, roles)
      case UserIdOnly => UserIdOnly
    }
  }

  datatype SyncEvent = SyncEvent(id: nat, project: string, kind: Kind, account: string, payload: Payload)

  datatype OutboxRow = OutboxRow(project: string, kind: Kind, payload: Payload, created: nat,
                                 published: Option<nat>, attempts: nat)

  /** One value per table. `lastId` is the identity sequence behind `sync_events`;
      a row of `outbox` is named by the id of the event written with it, in place of its random id. */
  datatype Tables = Tables(
    accounts: map<string, Account>,
    verifications: map<string, Ticket>,
    projects: set<string>,
    clients: map<string, Client>,
    access: map<Seat, seq<string>>,
    requests: map<string, AccessRequest>,
    sessions: map<string, Session>,
    codes: map<string, Code>,
    tokens: map<string, RefreshToken>,
    resets: map<string, Ticket>,
    limits: map<string, Limit>,
    keys: map<string, SigningKey>,
    outbox: map<nat, OutboxRow>,
    events: seq<SyncEvent>,
    lastId: nat)
}
