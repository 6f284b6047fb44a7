/** The background work, row by row: a clean-up pass removes exactly the rows past their time, and a publisher's round
    records exactly its outcome. */
module Sweeping {
  import opened Schema
  import opened Repository
  import opened Service
  import opened Cleanup
  import opened DeliveryChannels

  // ---------------------------------------------------------------- one table

  /** Of a table, exactly the rows that are still of use are left, as they were. */
  predicate Left<K(==), V(==)>(a: map<K, V>, b: map<K, V>, useful: V -> bool) {
    && (forall k :: k in b ==> k in a && useful(a[k]) && b[k] == a[k])
    && (forall k :: k in a && useful(a[k]) ==> k in b)
  }

  // What is still of use: limits, verifications, resets, codes and families for a day past their end, sessions until
  // their end, retired keys for a day past their publication, and sent rows of the outbox for thirty days.

  function KeptLimit(now: nat): Limit -> bool { (l: Limit) => l.until >= now - DAY }

  function KeptTicket(now: nat): Ticket -> bool { (t: Ticket) => t.expires >= now - DAY }

  function KeptCode(now: nat): Code -> bool { (c: Code) => c.expires >= now - DAY }

  function KeptSession(now: nat): Session -> bool { (s: Session) => s.expires >= now }

  function KeptToken(now: nat): RefreshToken -> bool { (t: RefreshToken) => t.familyExpires >= now - DAY }

  function KeptKey(now: nat): SigningKey -> bool {
    (k: SigningKey) => k.publishUntil.None? || k.publishUntil.value >= now - DAY
  }

  function KeptRow(now: nat): OutboxRow -> bool {
    (o: OutboxRow) => o.published.None? || o.published.value >= now - 30 * DAY
  }

  predicate SweptAt(a: Tables, b: Tables, now: nat) {
    && Left(a.limits, b.limits, KeptLimit(now)) && Left(a.verifications, b.verifications, KeptTicket(now))
    && Left(a.resets, b.resets, KeptTicket(now)) && Left(a.codes, b.codes, KeptCode(now))
    && Left(a.sessions, b.sessions, KeptSession(now)) && Left(a.tokens, b.tokens, KeptToken(now))
    && Left(a.keys, b.keys, KeptKey(now)) && Left(a.outbox, b.outbox, KeptRow(now))
    && b == a.(limits := b.limits, verifications := b.verifications, resets := b.resets, codes := b.codes,
               sessions := b.sessions, tokens := b.tokens, keys := b.keys, outbox := b.outbox)
  }

  /** Each statement sweeps its own table. */
  lemma StatementSweeps(a: Tables, now: nat, statement: Statement)
    ensures var b := Clean(a, now, statement);
            match statement
            case Limits => b == a.(limits := b.limits) && Left(a.limits, b.limits, KeptLimit(now))
            case Verifications =>
              b == a.(verifications := b.verifications) && Left(a.verifications, b.verifications, KeptTicket(now))
            case Resets => b == a.(resets := b.resets) && Left(a.resets, b.resets, KeptTicket(now))
            case Codes => b == a.(codes := b.codes) && Left(a.codes, b.codes, KeptCode(now))
            case Sessions => b == a.(sessions := b.sessions) && Left(a.sessions, b.sessions, KeptSession(now))
            case Tokens => b == a.(tokens := b.tokens) && Left(a.tokens, b.tokens, KeptToken(now))
            case Keys => b == a.(keys := b.keys) && Left(a.keys, b.keys, KeptKey(now))
            case Outbox => b == a.(outbox := b.outbox) && Left(a.outbox, b.outbox, KeptRow(now))
  {
    match statement { case _ => }
  }

  /** One pass after the other, none of them looks at what another removed. */
  lemma PassInOrder(a: Tables, now: nat)
    ensures var one := Clean(a, now, Limits);
            var two := Clean(one, now, Verifications);
            var three := Clean(two, now, Resets);
            var four := Clean(three, now, Codes);
            var five := Clean(four, now, Sessions);
            var six := Clean(five, now, Tokens);
            var seven := Clean(six, now, Keys);
            CleanAll(a, now, CLEANUP) == Clean(seven, now, Statement.Outbox)
  {
    hide Clean;
    var s := CLEANUP;
    assert s[..7] == [Limits, Verifications, Resets, Codes, Sessions, Tokens, Keys];
    assert s[..7][..6] == [Limits, Verifications, Resets, Codes, Sessions, Tokens];
    assert s[..7][..6][..5] == [Limits, Verifications, Resets, Codes, Sessions];
    assert s[..7][..6][..5][..4] == [Limits, Verifications, Resets, Codes];
    assert s[..7][..6][..5][..4][..3] == [Limits, Verifications, Resets];
    assert s[..7][..6][..5][..4][..3][..2] == [Limits, Verifications];
    assert s[..7][..6][..5][..4][..3][..2][..1] == [Limits];
    Steps(a, now, s[..7], s[7]);
    Steps(a, now, s[..7][..6], s[6]);
    Steps(a, now, s[..7][..6][..5], s[5]);
    Steps(a, now, s[..7][..6][..5][..4], s[4]);
    Steps(a, now, s[..7][..6][..5][..4][..3], s[3]);
    Steps(a, now, s[..7][..6][..5][..4][..3][..2], s[2]);
    Steps(a, now, s[..7][..6][..5][..4][..3][..2][..1], s[1]);
    Steps(a, now, [], s[0]);
  }

  lemma Steps(a: Tables, now: nat, statements: seq<Statement>, last: Statement)
    ensures CleanAll(a, now, statements + [last]) == Clean(CleanAll(a, now, statements), now, last)
  {
    hide Clean;
    assert (statements + [last])[..|statements|] == statements;
  }

  /** After a clean-up pass exactly the rows past their time are gone, in each of the eight tables, and nothing else has
      changed. */
  lemma PassSweepsExactly(a: Tables, now: nat)
    ensures SweptAt(a, CleanAll(a, now, CLEANUP), now)
  {
    hide Clean, CleanAll, Left, KeptLimit, KeptTicket, KeptCode, KeptSession, KeptToken, KeptKey, KeptRow;
    PassInOrder(a, now);
    StatementSweeps(a, now, Limits);
    var one := Clean(a, now, Limits);
    StatementSweeps(one, now, Verifications);
    var two := Clean(one, now, Verifications);
    StatementSweeps(two, now, Resets);
    var three := Clean(two, now, Resets);
    StatementSweeps(three, now, Codes);
    var four := Clean(three, now, Codes);
    StatementSweeps(four, now, Sessions);
    var five := Clean(four, now, Sessions);
    StatementSweeps(five, now, Tokens);
    var six := Clean(five, now, Tokens);
    StatementSweeps(six, now, Keys);
    var seven := Clean(six, now, Keys);
    StatementSweeps(seven, now, Statement.Outbox);
  }

  // ---------------------------------------------------------------- a publisher's round

  /** A round takes an unpublished row than which none is older, counts the try, and marks the row published exactly
      when the send was acknowledged; every other row and table stays. */
  lemma RoundRecords(a: Tables, now: nat, row: nat, acknowledged: bool)
    ensures var (b, reply) := Handle(a, now, Upkeep(DoPublish(row, acknowledged)));
            && (reply.Accepted? <==>
                  && row in a.outbox && a.outbox[row].published.None?
                  && forall i :: i in a.outbox && a.outbox[i].published.None? ==>
                       a.outbox[row].created <= a.outbox[i].created)
            && (reply.Refused? ==> b == a)
            && (reply.Accepted? ==>
                  && b == a.(outbox := b.outbox) && b.outbox.Keys == a.outbox.Keys
                  && b.outbox[row].attempts == a.outbox[row].attempts + 1
                  && b.outbox[row].published == (if acknowledged then Some(now) else None)
                  && b.outbox[row].(attempts := 0, published := None)
                     == a.outbox[row].(attempts := 0, published := None)
                  && forall i :: i in a.outbox && i != row ==> b.outbox[i] == a.outbox[i])
  {
  }
}
