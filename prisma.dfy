/** The relational tables the API routes read and write through Prisma, as
    in-memory sequences of rows, and the admin gate every admin route runs
    first. Column names follow the Prisma schema (camelCase); enum columns
    are kept as the strings the routes compare against ('APPROVED', 'ADMIN',
    'PERCENTAGE', ...). Primary keys are unique; that is the `UniqueIds`
    predicates below, which the routes that rely on it require. */
module Prisma {
  import opened Common

  type Id = string

  /** Milliseconds since the epoch; `new Date()` and `Date.now()` are parameters. */
  type Millis = int

  datatype User = User(id: Id, email: string, name: string, role: string, status: string)

  datatype Affiliate = Affiliate(
    id: Id,
    userId: Id,
    referralCode: string,
    balanceCents: int,
    payoutDetails: map<string, string>)

  /** `eventMetadata` of a conversion: the caller's `event_metadata` object spread first,
      then the four keys the webhook always writes. */
  datatype ConversionMetadata = ConversionMetadata(
    extra: map<string, string>,
    customerEmail: string,
    attributionMethod: string,
    attributionKey: Option<string>,
    referralCode: Option<string>)

  datatype Conversion = Conversion(
    id: Id,
    affiliateId: Id,
    eventType: string,
    amountCents: int,
    currency: string,
    status: string,
    eventMetadata: ConversionMetadata)

  datatype Commission = Commission(
    id: Id,
    conversionId: Id,
    affiliateId: Id,
    userId: Id,
    amountCents: int,
    rate: int,
    status: string,
    paidAt: Option<Millis>)

  datatype CommissionRule = CommissionRule(
    id: Id,
    name: string,
    kind: string,
    value: int,
    conditions: map<string, string>,
    isDefault: bool,
    isActive: bool)

  datatype Payout = Payout(
    id: Id,
    userId: Id,
    commissionId: Id,
    amountCents: int,
    payoutMethod: string,
    status: string)

  datatype Otp = Otp(
    id: Id,
    email: string,
    code: string,
    expiresAt: Millis,
    createdAt: Millis,
    isUsed: bool,
    attempts: nat)

  datatype EmailTemplate = EmailTemplate(id: Id, subject: string, body: string)

  datatype EmailLog = EmailLog(
    templateId: Id,
    recipientId: Id,
    recipientEmail: string,
    subject: string,
    body: string,
    status: string,
    sentAt: Millis,
    isTest: bool,
    sentBy: Id)

  /** The `payload` JSON column of an audit-log row, one variant per writer. */
  datatype AuditPayload =
    | ConversionTracked(eventType: string, amountCents: Option<int>, commissionAmount: int,
                        affiliateId: Id, attributionMethod: string)
    | StatusBatch(affiliateIds: seq<Id>, newStatus: string, count: nat)
    | GroupBatch(affiliateIds: seq<Id>, newGroup: string, count: nat)
    | DeleteBatch(affiliateIds: seq<Id>, count: nat, deletedEmails: seq<string>)

  datatype AuditLog = AuditLog(actorId: Id, action: string, objectType: string, objectId: Id,
                               payload: AuditPayload)

  /** The database behind `new PrismaClient()` (and the `db` wrapper of `@/lib/prisma`). */
  class Db {
    var users: seq<User>
    var affiliates: seq<Affiliate>
    var conversions: seq<Conversion>
    var commissions: seq<Commission>
    var commissionRules: seq<CommissionRule>
    var payouts: seq<Payout>
    var otps: seq<Otp>
    var emailTemplates: seq<EmailTemplate>
    var emailLogs: seq<EmailLog>
    var auditLogs: seq<AuditLog>
  }

  predicate UniqueAffiliateIds(s: seq<Affiliate>) {
    forall i, j :: 0 <= i < |s| && 0 <= j < |s| && s[i].id == s[j].id ==> i == j
  }

  predicate UniqueCommissionIds(s: seq<Commission>) {
    forall i, j :: 0 <= i < |s| && 0 <= j < |s| && s[i].id == s[j].id ==> i == j
  }

  predicate UniqueRuleIds(s: seq<CommissionRule>) {
    forall i, j :: 0 <= i < |s| && 0 <= j < |s| && s[i].id == s[j].id ==> i == j
  }

  function UserWithId(id: Id): User -> bool { (u: User) => u.id == id }
  function UserWithEmail(email: string): User -> bool { (u: User) => u.email == email }
  function AffiliateWithId(id: Id): Affiliate -> bool { (a: Affiliate) => a.id == id }

  /** Row `k` of the affiliates table with its balance raised by `t`, every other row as it was. */
  function Credit(affs: seq<Affiliate>, k: nat, t: int): seq<Affiliate>
    requires k < |affs|
  {
    affs[k := affs[k].(balanceCents := affs[k].balanceCents + t)]
  }

  /** The first user row with id `uid` (what `findUnique` returns) exists and has role 'ADMIN'. */
  predicate IsAdminUser(users: seq<User>, uid: Id) {
    exists i :: 0 <= i < |users| && users[i].id == uid && users[i].role == "ADMIN" &&
      (forall j :: 0 <= j < i ==> users[j].id != uid)
  }

  /** The session cookie as the routes see it after `jwtVerify`. */
  datatype Token = NoToken | BadToken | Claims(userId: Id, role: string)

  /** The gate at the top of the admin routes (payouts, settings, affiliates/batch):
      no cookie is 401, a token `jwtVerify` rejects throws into the route's catch (500),
      and a user that is missing or not 'ADMIN' is 403. `None` lets the request through. */
  function AdminGate(users: seq<User>, token: Token): (r: Option<int>)
    ensures r.None? <==> token.Claims? && IsAdminUser(users, token.userId)
    ensures token.NoToken? ==> r == Some(401)
    ensures token.BadToken? ==> r == Some(500)
    ensures token.Claims? && r.Some? ==> r == Some(403)
  {
    match token
    case NoToken => Some(401)
    case BadToken => Some(500)
    case Claims(uid, _) =>
      match FirstIndex(users, UserWithId(uid))
      case None => Some(403)
      case Some(i) => if users[i].role == "ADMIN" then None else Some(403)
  }
}
