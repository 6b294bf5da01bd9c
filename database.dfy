/** The `DatabaseService` of the browser build: one table per entity, each a
    list of records kept in local storage under `affiliate_platform_<table>`.
    Every method loads its table, changes it in memory and saves it back, so
    here each table is a field of the service that the methods reassign.
    These records have their own snake_case shape and enums ('admin' /
    'affiliate' roles, 'percentage' / 'flat' rules), distinct from the
    Prisma tables of the API routes. Record ids and timestamps come from the
    clock and `Math.random`, so they are parameters. */
module LocalDatabase {
  import opened Common

  type Id = string

  /** `new Date().toISOString()`. */
  type Timestamp = string

  datatype User = User(
    id: Id,
    email: string,
    passwordHash: string,
    name: string,
    role: string,
    status: string,
    createdAt: Timestamp,
    updatedAt: Timestamp)

  datatype Affiliate = Affiliate(
    id: Id,
    userId: Id,
    referralCode: string,
    payoutDetails: map<string, string>,
    balanceCents: int,
    createdAt: Timestamp,
    updatedAt: Timestamp)

  datatype ReferralMetadata = ReferralMetadata(
    company: Option<string>,
    notes: Option<string>,
    source: Option<string>,
    estimatedValue: Option<int>)

  datatype Referral = Referral(
    id: Id,
    affiliateId: Id,
    leadName: string,
    leadEmail: string,
    metadata: ReferralMetadata,
    status: string,
    submittedAt: Timestamp,
    reviewedBy: Option<Id>,
    reviewedAt: Option<Timestamp>,
    reviewNotes: Option<string>)

  datatype ReferralClick = ReferralClick(
    id: Id,
    referralCode: string,
    ip: string,
    userAgent: string,
    cookieAttributionKey: string,
    createdAt: Timestamp)

  datatype Conversion = Conversion(
    id: Id,
    affiliateId: Id,
    referralId: Option<Id>,
    eventType: string,
    amountCents: int,
    currency: string,
    status: string,
    eventMetadata: map<string, string>,
    createdAt: Timestamp)

  datatype Commission = Commission(
    id: Id,
    conversionId: Id,
    affiliateId: Id,
    amountCents: int,
    rate: int,
    status: string,
    createdAt: Timestamp,
    approvedBy: Option<Id>,
    approvedAt: Option<Timestamp>)

  datatype Payout = Payout(
    id: Id,
    affiliateId: Id,
    amountCents: int,
    currency: string,
    payoutMethod: string,
    status: string,
    metadata: map<string, string>,
    createdAt: Timestamp,
    processedAt: Option<Timestamp>)

  datatype AuditLog = AuditLog(
    id: Id,
    actorId: Id,
    action: string,
    objectType: string,
    objectId: Id,
    payload: map<string, string>,
    createdAt: Timestamp)

  datatype CommissionRule = CommissionRule(
    id: Id,
    name: string,
    kind: string,
    value: int,
    minAmountCents: Option<int>,
    maxAmountCents: Option<int>,
    tierRequirements: map<string, int>,
    isDefault: bool,
    createdAt: Timestamp)

  // ---------------------------------------------------------------- partial updates

  /** `Partial<User>`: a key that is absent is `None`. */
  datatype UserPatch = UserPatch(
    id: Option<Id>,
    email: Option<string>,
    passwordHash: Option<string>,
    name: Option<string>,
    role: Option<string>,
    status: Option<string>,
    createdAt: Option<Timestamp>,
    updatedAt: Option<Timestamp>)

  datatype AffiliatePatch = AffiliatePatch(
    id: Option<Id>,
    userId: Option<Id>,
    referralCode: Option<string>,
    payoutDetails: Option<map<string, string>>,
    balanceCents: Option<int>,
    createdAt: Option<Timestamp>,
    updatedAt: Option<Timestamp>)

  datatype ReferralPatch = ReferralPatch(
    id: Option<Id>,
    affiliateId: Option<Id>,
    leadName: Option<string>,
    leadEmail: Option<string>,
    metadata: Option<ReferralMetadata>,
    status: Option<string>,
    submittedAt: Option<Timestamp>,
    reviewedBy: Option<Id>,
    reviewedAt: Option<Timestamp>,
    reviewNotes: Option<string>)

  datatype CommissionPatch = CommissionPatch(
    id: Option<Id>,
    conversionId: Option<Id>,
    affiliateId: Option<Id>,
    amountCents: Option<int>,
    rate: Option<int>,
    status: Option<string>,
    createdAt: Option<Timestamp>,
    approvedBy: Option<Id>,
    approvedAt: Option<Timestamp>)

  /** An optional column of a record under a patch: the patch wins where it has the key. */
  function Over<T>(patch: Option<T>, current: T): T {
    patch.GetOr(current)
  }

  function OverOpt<T>(patch: Option<T>, current: Option<T>): Option<T> {
    if patch.Some? then patch else current
  }

  /** `{ ...u, ...updates, updated_at: now }`. */
  function MergeUser(u: User, p: UserPatch, now: Timestamp): User {
    User(Over(p.id, u.id), Over(p.email, u.email), Over(p.passwordHash, u.passwordHash),
         Over(p.name, u.name), Over(p.role, u.role), Over(p.status, u.status),
         Over(p.createdAt, u.createdAt), now)
  }

  /** `{ ...a, ...updates, updated_at: now }`. */
  function MergeAffiliate(a: Affiliate, p: AffiliatePatch, now: Timestamp): Affiliate {
    Affiliate(Over(p.id, a.id), Over(p.userId, a.userId), Over(p.referralCode, a.referralCode),
              Over(p.payoutDetails, a.payoutDetails), Over(p.balanceCents, a.balanceCents),
              Over(p.createdAt, a.createdAt), now)
  }

  /** `{ ...r, ...updates }`: no timestamp is refreshed. */
  function MergeReferral(r: Referral, p: ReferralPatch): Referral {
    Referral(Over(p.id, r.id), Over(p.affiliateId, r.affiliateId), Over(p.leadName, r.leadName),
             Over(p.leadEmail, r.leadEmail), Over(p.metadata, r.metadata), Over(p.status, r.status),
             Over(p.submittedAt, r.submittedAt), OverOpt(p.reviewedBy, r.reviewedBy),
             OverOpt(p.reviewedAt, r.reviewedAt), OverOpt(p.reviewNotes, r.reviewNotes))
  }

  /** `{ ...c, ...updates }`: no timestamp is refreshed. */
  function MergeCommission(c: Commission, p: CommissionPatch): Commission {
    Commission(Over(p.id, c.id), Over(p.conversionId, c.conversionId),
               Over(p.affiliateId, c.affiliateId), Over(p.amountCents, c.amountCents),
               Over(p.rate, c.rate), Over(p.status, c.status), Over(p.createdAt, c.createdAt),
               OverOpt(p.approvedBy, c.approvedBy), OverOpt(p.approvedAt, c.approvedAt))
  }

  const NoUserChanges := UserPatch(None, None, None, None, None, None, None, None)
  const NoAffiliateChanges := AffiliatePatch(None, None, None, None, None, None, None)
  const NoReferralChanges := ReferralPatch(None, None, None, None, None, None, None, None, None, None)
  const NoCommissionChanges := CommissionPatch(None, None, None, None, None, None, None, None, None)

  /** An empty patch changes nothing but the refreshed `updated_at` of users and affiliates;
      referrals and commissions come back exactly as they were. */
  lemma EmptyPatchChangesOnlyTimestamp(u: User, a: Affiliate, r: Referral, c: Commission, now: Timestamp)
    ensures MergeUser(u, NoUserChanges, now) == u.(updatedAt := now)
    ensures MergeAffiliate(a, NoAffiliateChanges, now) == a.(updatedAt := now)
    ensures MergeReferral(r, NoReferralChanges) == r
    ensures MergeCommission(c, NoCommissionChanges) == c
  {
  }

  /** Applying the same update twice is applying it once. */
  lemma MergeIdempotent(u: User, pu: UserPatch, a: Affiliate, pa: AffiliatePatch,
                        r: Referral, pr: ReferralPatch, c: Commission, pc: CommissionPatch,
                        now: Timestamp)
    ensures MergeUser(MergeUser(u, pu, now), pu, now) == MergeUser(u, pu, now)
    ensures MergeAffiliate(MergeAffiliate(a, pa, now), pa, now) == MergeAffiliate(a, pa, now)
    ensures MergeReferral(MergeReferral(r, pr), pr) == MergeReferral(r, pr)
    ensures MergeCommission(MergeCommission(c, pc), pc) == MergeCommission(c, pc)
  {
  }

  /** Whatever the patch says about `updated_at`, a user or affiliate update stamps `now`,
      and a key the patch carries always wins over the stored column. */
  lemma UpdateStampsNow(u: User, pu: UserPatch, a: Affiliate, pa: AffiliatePatch, now: Timestamp)
    ensures MergeUser(u, pu, now).updatedAt == now
    ensures MergeAffiliate(a, pa, now).updatedAt == now
    ensures pu.status.Some? ==> MergeUser(u, pu, now).status == pu.status.value
    ensures pu.status.None? ==> MergeUser(u, pu, now).status == u.status
    ensures pa.balanceCents.Some? ==> MergeAffiliate(a, pa, now).balanceCents == pa.balanceCents.value
    ensures pa.balanceCents.None? ==> MergeAffiliate(a, pa, now).balanceCents == a.balanceCents
  {
  }

  // ---------------------------------------------------------------- predicates used by the getters

  function UserWithEmail(email: string): User -> bool { (u: User) => u.email == email }
  function UserWithId(id: Id): User -> bool { (u: User) => u.id == id }
  function AffiliateOfUser(userId: Id): Affiliate -> bool { (a: Affiliate) => a.userId == userId }
  function AffiliateWithCode(code: string): Affiliate -> bool { (a: Affiliate) => a.referralCode == code }
  function AffiliateWithId(id: Id): Affiliate -> bool { (a: Affiliate) => a.id == id }
  function ReferralOf(affiliateId: Id): Referral -> bool { (r: Referral) => r.affiliateId == affiliateId }
  function ReferralWithId(id: Id): Referral -> bool { (r: Referral) => r.id == id }
  function IsSubmitted(r: Referral): bool { r.status == "submitted" }
  function ConversionOf(affiliateId: Id): Conversion -> bool { (c: Conversion) => c.affiliateId == affiliateId }
  function CommissionOf(affiliateId: Id): Commission -> bool { (c: Commission) => c.affiliateId == affiliateId }
  function CommissionWithId(id: Id): Commission -> bool { (c: Commission) => c.id == id }
  function IsPending(c: Commission): bool { c.status == "pending" }
  function IsApproved(c: Commission): bool { c.status == "approved" }
  function PayoutOf(affiliateId: Id): Payout -> bool { (p: Payout) => p.affiliateId == affiliateId }
  function ClickWithCode(code: string): ReferralClick -> bool { (c: ReferralClick) => c.referralCode == code }
  function IsDefaultRule(r: CommissionRule): bool { r.isDefault }
  function CommissionCents(c: Commission): int { c.amountCents }
  function ConversionCents(c: Conversion): int { c.amountCents }

  /** The integer fields of `getAffiliateStats` (`conversionRate` is a float). */
  datatype AffiliateStats = AffiliateStats(
    totalClicks: nat,
    totalConversions: nat,
    totalCommissions: nat,
    pendingCommissions: nat,
    approvedCommissions: nat,
    totalEarnings: int,
    pendingEarnings: int)

  const NoStats := AffiliateStats(0, 0, 0, 0, 0, 0, 0)

  /** The integer fields of `getPlatformStats`. */
  datatype PlatformStats = PlatformStats(
    totalAffiliates: nat,
    activeAffiliates: nat,
    pendingAffiliates: nat,
    totalReferrals: nat,
    pendingReferrals: nat,
    approvedReferrals: nat,
    totalConversions: nat,
    totalCommissions: nat,
    totalRevenue: int)

  // ---------------------------------------------------------------- sample data

  /** The rows `initializeSampleData` writes, given the fourteen generated ids in the order
      the calls draw them: ids[0..3] users, ids[3..5] affiliates, ids[5..8] rules,
      ids[8..10] referrals, ids[10] the conversion, ids[11] the commission, ids[12] the
      cookie key and ids[13] the click (the key is built before the click gets its id). */
  function SampleUsers(ids: seq<Id>, now: Timestamp): seq<User>
    requires |ids| == 14
  {
    [User(ids[0], "admin@example.com", "hashed_password_admin", "Admin User", "admin", "active", now, now),
     User(ids[1], "sarah.johnson@example.com", "hashed_password_sarah", "Sarah Johnson", "affiliate", "active", now, now),
     User(ids[2], "david.lee@example.com", "hashed_password_david", "David Lee", "affiliate", "active", now, now)]
  }

  function SampleAffiliates(ids: seq<Id>, now: Timestamp): seq<Affiliate>
    requires |ids| == 14
  {
    [Affiliate(ids[3], ids[1], "SARAH-TECH",
               map["method" := "bank_transfer", "bank_account" := "*****1234", "routing_number" := "123456789"],
               23750, now, now),
     Affiliate(ids[4], ids[2], "DAVID-SALES",
               map["method" := "stripe_connect", "stripe_account_id" := "acct_1234567890"],
               15400, now, now)]
  }

  function SampleRules(ids: seq<Id>, now: Timestamp): seq<CommissionRule>
    requires |ids| == 14
  {
    [CommissionRule(ids[5], "Standard Rate", "percentage", 15, None, None, map[], true, now),
     CommissionRule(ids[6], "Enterprise Tier", "percentage", 20, Some(500000), None, map[], false, now),
     CommissionRule(ids[7], "Bonus Rate", "percentage", 25, None, None, map["min_monthly_referrals" := 10], false, now)]
  }

  function SampleReferrals(ids: seq<Id>, now: Timestamp): seq<Referral>
    requires |ids| == 14
  {
    [Referral(ids[8], ids[3], "John Smith", "john@techcorp.com",
              ReferralMetadata(Some("TechCorp"), Some("Enterprise client, high value lead"), None, Some(150000)),
              "submitted", now, None, None, None),
     Referral(ids[9], ids[4], "Maria Garcia", "maria@startup.io",
              ReferralMetadata(Some("StartupXYZ"), Some("Interested in premium plan"), None, Some(80000)),
              "approved", now, Some(ids[0]), Some(now), Some("Approved - verified lead quality"))]
  }

  function SampleConversion(ids: seq<Id>, now: Timestamp): Conversion
    requires |ids| == 14
  {
    Conversion(ids[10], ids[3], None, "purchase", 225000, "USD", "approved",
               map["customer_id" := "cust_abc123", "product_id" := "prod_enterprise",
                   "plan_type" := "enterprise_annual"], now)
  }

  function SampleCommission(ids: seq<Id>, now: Timestamp): Commission
    requires |ids| == 14
  {
    Commission(ids[11], ids[10], ids[3], 33750, 15, "approved", now, Some(ids[0]), Some(now))
  }

  function SampleClick(ids: seq<Id>, now: Timestamp): ReferralClick
    requires |ids| == 14
  {
    ReferralClick(ids[13], "SARAH-TECH", "192.168.1.1",
                  "Mozilla/5.0 (Windows NT 10.0; Win64; x64) AppleWebKit/537.36", "attr_" + ids[12], now)
  }

  /** The sample commission is what the default sample rule pays on the sample conversion:
      15% of 225000 cents, exactly, for Sarah's affiliate and that conversion. */
  lemma SampleCommissionMatchesDefaultRule(ids: seq<Id>, now: Timestamp)
    requires |ids| == 14
    ensures var rule := SampleRules(ids, now)[0];
      var conv := SampleConversion(ids, now);
      var com := SampleCommission(ids, now);
      rule.isDefault && com.rate == rule.value &&
      com.amountCents * 100 == conv.amountCents * com.rate &&
      com.amountCents == conv.amountCents * rule.value / 100 &&
      com.conversionId == conv.id && com.affiliateId == conv.affiliateId == SampleAffiliates(ids, now)[0].id
  {
  }

  /** Exactly one sample rule is the default, and it comes first. */
  lemma SampleHasOneDefault(ids: seq<Id>, now: Timestamp)
    requires |ids| == 14
    ensures FirstIndex(SampleRules(ids, now), IsDefaultRule) == Some(0)
    ensures forall i :: 0 < i < |SampleRules(ids, now)| ==> !SampleRules(ids, now)[i].isDefault
  {
  }

  class DatabaseService {
    var users: seq<User>
    var affiliates: seq<Affiliate>
    var referrals: seq<Referral>
    var clicks: seq<ReferralClick>
    var conversions: seq<Conversion>
    var commissions: seq<Commission>
    var payouts: seq<Payout>
    var auditLogs: seq<AuditLog>
    var commissionRules: seq<CommissionRule>

    /** A service over empty storage (a table that was never saved loads as `[]`). */
    constructor ()
      ensures users == [] && affiliates == [] && referrals == [] && clicks == []
      ensures conversions == [] && commissions == [] && payouts == [] && auditLogs == []
      ensures commissionRules == []
    {
      users := [];
      affiliates := [];
      referrals := [];
      clicks := [];
      conversions := [];
      commissions := [];
      payouts := [];
      auditLogs := [];
      commissionRules := [];
    }

    // -------------------------------------------------------------- users

    /** The record is the data with a fresh id and both timestamps set to `now`
        (any id or timestamp in `data` is ignored), appended at the end. */
    method CreateUser(data: User, id: Id, now: Timestamp) returns (u: User)
      modifies this`users
      ensures u == data.(id := id, createdAt := now, updatedAt := now)
      ensures users == old(users) + [u]
    {
      u := data.(id := id, createdAt := now, updatedAt := now);
      users := users + [u];
    }

    function GetUserByEmail(email: string): (r: Option<User>)
      reads this
      ensures r.Some? ==> r.value in users && r.value.email == email
      ensures r.None? <==> forall i :: 0 <= i < |users| ==> users[i].email != email
      ensures r.Some? ==> exists i :: 0 <= i < |users| && users[i] == r.value &&
                            forall j :: 0 <= j < i ==> users[j].email != email
    {
      var k := FirstIndex(users, UserWithEmail(email));
      if k.Some? then Some(users[k.value]) else None
    }

    function GetUserById(id: Id): (r: Option<User>)
      reads this
      ensures r.Some? ==> r.value in users && r.value.id == id
      ensures r.None? <==> forall i :: 0 <= i < |users| ==> users[i].id != id
      ensures r.Some? ==> exists i :: 0 <= i < |users| && users[i] == r.value &&
                            forall j :: 0 <= j < i ==> users[j].id != id
    {
      var k := FirstIndex(users, UserWithId(id));
      if k.Some? then Some(users[k.value]) else None
    }

    /** An unknown id returns null and saves nothing; otherwise only the first row with
        that id is replaced, by the merged record, which is returned. */
    method UpdateUser(id: Id, updates: UserPatch, now: Timestamp) returns (r: Option<User>)
      modifies this`users
      ensures match FirstIndex(old(users), UserWithId(id))
        case None => r.None? && users == old(users)
        case Some(k) => r == Some(MergeUser(old(users)[k], updates, now)) &&
                        users == old(users)[k := r.value]
    {
      var index := FirstIndex(users, UserWithId(id));
      if index.None? {
        return None;
      }
      var merged := MergeUser(users[index.value], updates, now);
      users := users[index.value := merged];
      return Some(merged);
    }

    // -------------------------------------------------------------- affiliates

    method CreateAffiliate(data: Affiliate, id: Id, now: Timestamp) returns (a: Affiliate)
      modifies this`affiliates
      ensures a == data.(id := id, createdAt := now, updatedAt := now)
      ensures affiliates == old(affiliates) + [a]
    {
      a := data.(id := id, createdAt := now, updatedAt := now);
      affiliates := affiliates + [a];
    }

    function GetAffiliateByUserId(userId: Id): (r: Option<Affiliate>)
      reads this
      ensures r.Some? ==> r.value in affiliates && r.value.userId == userId
      ensures r.None? <==> forall i :: 0 <= i < |affiliates| ==> affiliates[i].userId != userId
      ensures r.Some? ==> exists i :: 0 <= i < |affiliates| && affiliates[i] == r.value &&
                            forall j :: 0 <= j < i ==> affiliates[j].userId != userId
    {
      Find(affiliates, AffiliateOfUser(userId))
    }

    /** The first affiliate whose code equals `code` exactly (no case folding), else null. */
    function GetAffiliateByReferralCode(code: string): (r: Option<Affiliate>)
      reads this
      ensures r.Some? ==> exists i :: 0 <= i < |affiliates| && affiliates[i] == r.value &&
                            affiliates[i].referralCode == code &&
                            forall j :: 0 <= j < i ==> affiliates[j].referralCode != code
      ensures r.None? <==> forall i :: 0 <= i < |affiliates| ==> affiliates[i].referralCode != code
    {
      var k := FirstIndex(affiliates, AffiliateWithCode(code));
      if k.Some? then Some(affiliates[k.value]) else None
    }

    /** The whole table, in stored order. */
    function GetAllAffiliates(): (r: seq<Affiliate>)
      reads this
      ensures |r| == |affiliates| && forall i :: 0 <= i < |r| ==> r[i] == affiliates[i]
    {
      affiliates
    }

    method UpdateAffiliate(id: Id, updates: AffiliatePatch, now: Timestamp) returns (r: Option<Affiliate>)
      modifies this`affiliates
      ensures match FirstIndex(old(affiliates), AffiliateWithId(id))
        case None => r.None? && affiliates == old(affiliates)
        case Some(k) => r == Some(MergeAffiliate(old(affiliates)[k], updates, now)) &&
                        affiliates == old(affiliates)[k := r.value]
    {
      var index := FirstIndex(affiliates, AffiliateWithId(id));
      if index.None? {
        return None;
      }
      var merged := MergeAffiliate(affiliates[index.value], updates, now);
      affiliates := affiliates[index.value := merged];
      return Some(merged);
    }

    // -------------------------------------------------------------- referrals

    /** The record gets a fresh id and `submitted_at = now`. */
    method CreateReferral(data: Referral, id: Id, now: Timestamp) returns (r: Referral)
      modifies this`referrals
      ensures r == data.(id := id, submittedAt := now)
      ensures referrals == old(referrals) + [r]
    {
      r := data.(id := id, submittedAt := now);
      referrals := referrals + [r];
    }

    /** Exactly the affiliate's referrals, in stored order. */
    function GetReferralsByAffiliate(affiliateId: Id): (r: seq<Referral>)
      reads this
      ensures forall x :: x in r <==> x in referrals && x.affiliateId == affiliateId
    {
      FilterExact(referrals, ReferralOf(affiliateId));
      Filter(referrals, ReferralOf(affiliateId))
    }

    /** Exactly the referrals still `submitted`, in stored order. */
    function GetPendingReferrals(): (r: seq<Referral>)
      reads this
      ensures forall x :: x in r <==> x in referrals && x.status == "submitted"
    {
      FilterExact(referrals, IsSubmitted);
      Filter(referrals, IsSubmitted)
    }

    method UpdateReferral(id: Id, updates: ReferralPatch) returns (r: Option<Referral>)
      modifies this`referrals
      ensures match FirstIndex(old(referrals), ReferralWithId(id))
        case None => r.None? && referrals == old(referrals)
        case Some(k) => r == Some(MergeReferral(old(referrals)[k], updates)) &&
                        referrals == old(referrals)[k := r.value]
    {
      var index := FirstIndex(referrals, ReferralWithId(id));
      if index.None? {
        return None;
      }
      var merged := MergeReferral(referrals[index.value], updates);
      referrals := referrals[index.value := merged];
      return Some(merged);
    }

    // -------------------------------------------------------------- conversions

    method CreateConversion(data: Conversion, id: Id, now: Timestamp) returns (c: Conversion)
      modifies this`conversions
      ensures c == data.(id := id, createdAt := now)
      ensures conversions == old(conversions) + [c]
    {
      c := data.(id := id, createdAt := now);
      conversions := conversions + [c];
    }

    /** Exactly the affiliate's conversions, in stored order. */
    function GetConversionsByAffiliate(affiliateId: Id): (r: seq<Conversion>)
      reads this
      ensures forall x :: x in r <==> x in conversions && x.affiliateId == affiliateId
    {
      FilterExact(conversions, ConversionOf(affiliateId));
      Filter(conversions, ConversionOf(affiliateId))
    }

    // -------------------------------------------------------------- commissions

    method CreateCommission(data: Commission, id: Id, now: Timestamp) returns (c: Commission)
      modifies this`commissions
      ensures c == data.(id := id, createdAt := now)
      ensures commissions == old(commissions) + [c]
    {
      c := data.(id := id, createdAt := now);
      commissions := commissions + [c];
    }

    /** Exactly the affiliate's commissions, in stored order. */
    function GetCommissionsByAffiliate(affiliateId: Id): (r: seq<Commission>)
      reads this
      ensures forall x :: x in r <==> x in commissions && x.affiliateId == affiliateId
    {
      FilterExact(commissions, CommissionOf(affiliateId));
      Filter(commissions, CommissionOf(affiliateId))
    }

    /** Exactly the commissions still `pending`, in stored order. */
    function GetPendingCommissions(): (r: seq<Commission>)
      reads this
      ensures forall x :: x in r <==> x in commissions && x.status == "pending"
    {
      FilterExact(commissions, IsPending);
      Filter(commissions, IsPending)
    }

    method UpdateCommission(id: Id, updates: CommissionPatch) returns (r: Option<Commission>)
      modifies this`commissions
      ensures match FirstIndex(old(commissions), CommissionWithId(id))
        case None => r.None? && commissions == old(commissions)
        case Some(k) => r == Some(MergeCommission(old(commissions)[k], updates)) &&
                        commissions == old(commissions)[k := r.value]
    {
      var index := FirstIndex(commissions, CommissionWithId(id));
      if index.None? {
        return None;
      }
      var merged := MergeCommission(commissions[index.value], updates);
      commissions := commissions[index.value := merged];
      return Some(merged);
    }

    // -------------------------------------------------------------- payouts

    method CreatePayout(data: Payout, id: Id, now: Timestamp) returns (p: Payout)
      modifies this`payouts
      ensures p == data.(id := id, createdAt := now)
      ensures payouts == old(payouts) + [p]
    {
      p := data.(id := id, createdAt := now);
      payouts := payouts + [p];
    }

    /** Exactly the affiliate's payouts, in stored order. */
    function GetPayoutsByAffiliate(affiliateId: Id): (r: seq<Payout>)
      reads this
      ensures forall x :: x in r <==> x in payouts && x.affiliateId == affiliateId
    {
      FilterExact(payouts, PayoutOf(affiliateId));
      Filter(payouts, PayoutOf(affiliateId))
    }

    // -------------------------------------------------------------- commission rules

    method CreateCommissionRule(data: CommissionRule, id: Id, now: Timestamp) returns (r: CommissionRule)
      modifies this`commissionRules
      ensures r == data.(id := id, createdAt := now)
      ensures commissionRules == old(commissionRules) + [r]
    {
      r := data.(id := id, createdAt := now);
      commissionRules := commissionRules + [r];
    }

    /** The whole table, in stored order. */
    function GetCommissionRules(): (r: seq<CommissionRule>)
      reads this
      ensures |r| == |commissionRules| && forall i :: 0 <= i < |r| ==> r[i] == commissionRules[i]
    {
      commissionRules
    }

    /** The first rule with `is_default`, else null. */
    function GetDefaultCommissionRule(): (r: Option<CommissionRule>)
      reads this
      ensures r.Some? ==> exists i :: 0 <= i < |commissionRules| && commissionRules[i] == r.value &&
                            r.value.isDefault &&
                            forall j :: 0 <= j < i ==> !commissionRules[j].isDefault
      ensures r.None? <==> forall i :: 0 <= i < |commissionRules| ==> !commissionRules[i].isDefault
    {
      var k := FirstIndex(commissionRules, IsDefaultRule);
      if k.Some? then Some(commissionRules[k.value]) else None
    }

    // -------------------------------------------------------------- audit log and tracking

    method CreateAuditLog(data: AuditLog, id: Id, now: Timestamp) returns (l: AuditLog)
      modifies this`auditLogs
      ensures l == data.(id := id, createdAt := now)
      ensures auditLogs == old(auditLogs) + [l]
    {
      l := data.(id := id, createdAt := now);
      auditLogs := auditLogs + [l];
    }

    method CreateReferralClick(data: ReferralClick, id: Id, now: Timestamp) returns (c: ReferralClick)
      modifies this`clicks
      ensures c == data.(id := id, createdAt := now)
      ensures clicks == old(clicks) + [c]
    {
      c := data.(id := id, createdAt := now);
      clicks := clicks + [c];
    }

    /** Exactly the clicks on that referral code, in stored order. */
    function GetClicksByReferralCode(code: string): (r: seq<ReferralClick>)
      reads this
      ensures forall x :: x in r <==> x in clicks && x.referralCode == code
    {
      FilterExact(clicks, ClickWithCode(code));
      Filter(clicks, ClickWithCode(code))
    }

    // -------------------------------------------------------------- sample data

    /** Seeds the tables once: with any user already stored nothing changes; otherwise the
        sample rows are appended to each table (only the users table is known to be empty). */
    method InitializeSampleData(ids: seq<Id>, now: Timestamp)
      requires |ids| == 14
      modifies this`users, this`affiliates, this`commissionRules, this`referrals
      modifies this`conversions, this`commissions, this`clicks
      ensures old(users) != [] ==>
                users == old(users) && affiliates == old(affiliates) &&
                commissionRules == old(commissionRules) && referrals == old(referrals) &&
                conversions == old(conversions) && commissions == old(commissions) &&
                clicks == old(clicks)
      ensures old(users) == [] ==>
                users == SampleUsers(ids, now) &&
                affiliates == old(affiliates) + SampleAffiliates(ids, now) &&
                commissionRules == old(commissionRules) + SampleRules(ids, now) &&
                referrals == old(referrals) + SampleReferrals(ids, now) &&
                conversions == old(conversions) + [SampleConversion(ids, now)] &&
                commissions == old(commissions) + [SampleCommission(ids, now)] &&
                clicks == old(clicks) + [SampleClick(ids, now)]
    {
      if |users| > 0 {
        return;
      }
      SeedAccounts(ids, now);
      SeedRules(ids, now);
      SeedReferrals(ids, now);
      SeedActivity(ids, now);
    }

    /** The admin, the two affiliate users and their affiliates. */
    method SeedAccounts(ids: seq<Id>, now: Timestamp)
      requires |ids| == 14
      modifies this`users, this`affiliates
      ensures users == old(users) + SampleUsers(ids, now)
      ensures affiliates == old(affiliates) + SampleAffiliates(ids, now)
    {
      var _ := CreateUser(User("", "admin@example.com", "hashed_password_admin", "Admin User",
                               "admin", "active", "", ""), ids[0], now);
      var sarah := CreateUser(User("", "sarah.johnson@example.com", "hashed_password_sarah",
                                   "Sarah Johnson", "affiliate", "active", "", ""), ids[1], now);
      var david := CreateUser(User("", "david.lee@example.com", "hashed_password_david", "David Lee",
                                   "affiliate", "active", "", ""), ids[2], now);
      var _ := CreateAffiliate(
        Affiliate("", sarah.id, "SARAH-TECH",
                  map["method" := "bank_transfer", "bank_account" := "*****1234", "routing_number" := "123456789"],
                  23750, "", ""), ids[3], now);
      var _ := CreateAffiliate(
        Affiliate("", david.id, "DAVID-SALES",
                  map["method" := "stripe_connect", "stripe_account_id" := "acct_1234567890"],
                  15400, "", ""), ids[4], now);
    }

    method SeedRules(ids: seq<Id>, now: Timestamp)
      requires |ids| == 14
      modifies this`commissionRules
      ensures commissionRules == old(commissionRules) + SampleRules(ids, now)
    {
      var _ := CreateCommissionRule(
        CommissionRule("", "Standard Rate", "percentage", 15, None, None, map[], true, ""), ids[5], now);
      var _ := CreateCommissionRule(
        CommissionRule("", "Enterprise Tier", "percentage", 20, Some(500000), None, map[], false, ""), ids[6], now);
      var _ := CreateCommissionRule(
        CommissionRule("", "Bonus Rate", "percentage", 25, None, None, map["min_monthly_referrals" := 10], false, ""),
        ids[7], now);
    }

    /** ids[3], ids[4] are the affiliates and ids[0] the admin written by `SeedAccounts`. */
    method SeedReferrals(ids: seq<Id>, now: Timestamp)
      requires |ids| == 14
      modifies this`referrals
      ensures referrals == old(referrals) + SampleReferrals(ids, now)
    {
      var _ := CreateReferral(
        Referral("", ids[3], "John Smith", "john@techcorp.com",
                 ReferralMetadata(Some("TechCorp"), Some("Enterprise client, high value lead"), None, Some(150000)),
                 "submitted", "", None, None, None), ids[8], now);
      var _ := CreateReferral(
        Referral("", ids[4], "Maria Garcia", "maria@startup.io",
                 ReferralMetadata(Some("StartupXYZ"), Some("Interested in premium plan"), None, Some(80000)),
                 "approved", "", Some(ids[0]), Some(now), Some("Approved - verified lead quality")), ids[9], now);
    }

    /** The conversion, its commission and one click on Sarah's code. */
    method SeedActivity(ids: seq<Id>, now: Timestamp)
      requires |ids| == 14
      modifies this`conversions, this`commissions, this`clicks
      ensures conversions == old(conversions) + [SampleConversion(ids, now)]
      ensures commissions == old(commissions) + [SampleCommission(ids, now)]
      ensures clicks == old(clicks) + [SampleClick(ids, now)]
    {
      var conversion1 := CreateConversion(
        Conversion("", ids[3], None, "purchase", 225000, "USD", "approved",
                   map["customer_id" := "cust_abc123", "product_id" := "prod_enterprise",
                       "plan_type" := "enterprise_annual"], ""), ids[10], now);
      var _ := CreateCommission(
        Commission("", conversion1.id, ids[3], 33750, 15, "approved", "", Some(ids[0]), Some(now)),
        ids[11], now);
      var cookieKey := "attr_" + ids[12];
      var _ := CreateReferralClick(
        ReferralClick("", "SARAH-TECH", "192.168.1.1",
                      "Mozilla/5.0 (Windows NT 10.0; Win64; x64) AppleWebKit/537.36", cookieKey, ""),
        ids[13], now);
    }

    // -------------------------------------------------------------- statistics

    /** `getAffiliateStats(userId)`: the argument is the affiliate's *user* id. */
    function GetAffiliateStats(userId: Id): (r: AffiliateStats)
      reads this
      ensures GetAffiliateByUserId(userId).None? ==> r == NoStats
    {
      match GetAffiliateByUserId(userId)
      case None => NoStats
      case Some(a) =>
        var mine := Filter(commissions, CommissionOf(a.id));
        var pending := Filter(mine, IsPending);
        AffiliateStats(
          |Filter(clicks, ClickWithCode(a.referralCode))|,
          |Filter(conversions, ConversionOf(a.id))|,
          |mine|,
          |pending|,
          |Filter(mine, IsApproved)|,
          SumBy(mine, CommissionCents),
          SumBy(pending, CommissionCents))
    }

    function GetPlatformStats(): PlatformStats
      reads this
    {
      var affiliateUsers := Filter(users, (u: User) => u.role == "affiliate");
      PlatformStats(
        |affiliateUsers|,
        |Filter(affiliateUsers, (u: User) => u.status == "active")|,
        |Filter(affiliateUsers, (u: User) => u.status == "pending")|,
        |referrals|,
        |Filter(referrals, IsSubmitted)|,
        |Filter(referrals, (r: Referral) => r.status == "approved")|,
        |conversions|,
        |commissions|,
        SumBy(conversions, ConversionCents))
    }
  }

  // ---------------------------------------------------------------- properties of the getters

  /** The pending lists hold exactly the rows with status 'submitted' / 'pending'. */
  lemma PendingListsExact(db: DatabaseService, r: Referral, c: Commission)
    ensures r in db.GetPendingReferrals() <==> r in db.referrals && r.status == "submitted"
    ensures c in db.GetPendingCommissions() <==> c in db.commissions && c.status == "pending"
  {
    FilterMember(db.referrals, IsSubmitted, r);
    FilterMember(db.commissions, IsPending, c);
  }

  /** The pending lists keep table order: a record appended to the table joins the end of
      its pending list exactly when it is pending. */
  lemma PendingListsKeepOrder(referrals: seq<Referral>, r: Referral, commissions: seq<Commission>, c: Commission)
    ensures Filter(referrals + [r], IsSubmitted) ==
            Filter(referrals, IsSubmitted) + (if r.status == "submitted" then [r] else [])
    ensures Filter(commissions + [c], IsPending) ==
            Filter(commissions, IsPending) + (if c.status == "pending" then [c] else [])
  {
    FilterAppend(referrals, [r], IsSubmitted);
    FilterAppend(commissions, [c], IsPending);
    assert Filter([r], IsSubmitted) == (if IsSubmitted(r) then [r] else []) + Filter([r][1..], IsSubmitted);
    assert Filter([c], IsPending) == (if IsPending(c) then [c] else []) + Filter([c][1..], IsPending);
  }

  /** The commission counts of `getAffiliateStats`: pending and approved are disjoint
      parts of the affiliate's commissions, which are part of the table. */
  lemma StatsCounts(db: DatabaseService, userId: Id)
    ensures var s := db.GetAffiliateStats(userId);
      s.pendingCommissions + s.approvedCommissions <= s.totalCommissions <= |db.commissions| &&
      s.totalClicks <= |db.clicks| && s.totalConversions <= |db.conversions|
  {
    match db.GetAffiliateByUserId(userId)
    case None =>
    case Some(a) =>
      var mine := Filter(db.commissions, CommissionOf(a.id));
      DisjointCounts(mine, IsPending, IsApproved);
  }

  /** With no negative commission in the table, the pending earnings never exceed the
      total earnings, and neither is negative. */
  lemma StatsEarnings(db: DatabaseService, userId: Id)
    requires forall i :: 0 <= i < |db.commissions| ==> db.commissions[i].amountCents >= 0
    ensures var s := db.GetAffiliateStats(userId);
      0 <= s.pendingEarnings <= s.totalEarnings
  {
    match db.GetAffiliateByUserId(userId)
    case None =>
    case Some(a) =>
      var mine := Filter(db.commissions, CommissionOf(a.id));
      forall i | 0 <= i < |mine| ensures CommissionCents(mine[i]) >= 0 {
        FilterMember(db.commissions, CommissionOf(a.id), mine[i]);
      }
      SumOfFilterBounded(mine, IsPending, CommissionCents);
  }

  /** A user update keeps the updated row findable under its id when the patch leaves
      the id alone: `getUserById` then returns exactly the record `updateUser` returned. */
  lemma UpdatedUserIsFound(users: seq<User>, id: Id, updates: UserPatch, now: Timestamp)
    requires FirstIndex(users, UserWithId(id)).Some?
    requires updates.id.None? || updates.id == Some(id)
    ensures var k := FirstIndex(users, UserWithId(id)).value;
      var after := users[k := MergeUser(users[k], updates, now)];
      Find(after, UserWithId(id)) == Some(MergeUser(users[k], updates, now))
  {
    var k := FirstIndex(users, UserWithId(id)).value;
    var after := users[k := MergeUser(users[k], updates, now)];
    FirstIndexAt(after, UserWithId(id), k);
  }
}
