/** `POST /api/webhook/conversion`: validate the event, attribute it to an
    affiliate, pick the default commission rule, compute the commission in
    integer cents, then write one conversion, one commission, the new balance
    and an audit entry. */
module ConversionWebhook {
  import opened Common
  import opened Prisma

  /** The JSON body. A key that is absent is `None`; `event_metadata` defaults to `{}`. */
  datatype Event = Event(
    eventType: Option<string>,
    amountCents: Option<int>,
    currency: Option<string>,
    customerEmail: Option<string>,
    attributionKey: Option<string>,
    referralCode: Option<string>,
    eventMetadata: map<string, string>)

  /** JavaScript truthiness of an optional number: present and not 0. */
  predicate TruthyAmount(a: Option<int>) {
    a.Some? && a.value != 0
  }

  /** The rate used when no rule applies or the rule's value is 0. */
  const DefaultRate := 15

  datatype Method = NoAttribution | ByAttributionKey | ByReferralCode

  function MethodName(m: Method): string {
    match m
    case NoAttribution => "none"
    case ByAttributionKey => "attribution_key"
    case ByReferralCode => "referral_code"
  }

  function WithReferralCode(code: string): Affiliate -> bool {
    (a: Affiliate) => a.referralCode == code
  }

  function IsDefaultRule(r: CommissionRule): bool {
    r.isDefault
  }

  /** The affiliate chosen (as a row index) and the method recorded for it. */
  datatype Attribution = Attribution(index: Option<nat>, via: Method)

  /** Lines 25-41. The attribution key is never looked up, so only the referral
      code can resolve an affiliate: the first one whose code is exactly equal. */
  function Attribute(ev: Event, affiliates: seq<Affiliate>): (r: Attribution)
    ensures !Truthy(ev.referralCode) ==> r.index.None?
    ensures !Truthy(ev.referralCode) ==>
              r.via == (if Truthy(ev.attributionKey) then ByAttributionKey else NoAttribution)
    ensures Truthy(ev.referralCode) ==> r.via == ByReferralCode
    ensures r.index.Some? ==> r.index.value < |affiliates|
                              && affiliates[r.index.value].referralCode == ev.referralCode.value
                              && forall j :: 0 <= j < r.index.value ==>
                                   affiliates[j].referralCode != ev.referralCode.value
    ensures Truthy(ev.referralCode) ==>
              (r.index.None? <==> forall j :: 0 <= j < |affiliates| ==>
                                     affiliates[j].referralCode != ev.referralCode.value)
  {
    if Truthy(ev.referralCode) then
      Attribution(FirstIndex(affiliates, WithReferralCode(ev.referralCode.value)), ByReferralCode)
    else
      Attribution(None, if Truthy(ev.attributionKey) then ByAttributionKey else NoAttribution)
  }

  /** Line 76: the first rule flagged as default; tier and volume rules are disabled. */
  function ApplicableRule(rules: seq<CommissionRule>): (r: Option<CommissionRule>)
    ensures r.Some? ==> r.value.isDefault
    ensures r.Some? ==> exists i :: 0 <= i < |rules| && rules[i] == r.value &&
                          forall j :: 0 <= j < i ==> !rules[j].isDefault
    ensures r.None? <==> forall j :: 0 <= j < |rules| ==> !rules[j].isDefault
  {
    match FirstIndex(rules, IsDefaultRule)
    case None => None
    case Some(i) => Some(rules[i])
  }

  /** Line 102: `applicableRule?.value || 15`. */
  function CommissionRate(rule: Option<CommissionRule>): (rate: int)
    ensures rate != 0
    ensures rule.Some? && rule.value.value != 0 ==> rate == rule.value.value
    ensures rule.None? || rule.value.value == 0 ==> rate == DefaultRate
  {
    if rule.Some? && rule.value.value != 0 then rule.value.value else DefaultRate
  }

  predicate IsPercentage(rule: Option<CommissionRule>) {
    rule.Some? && rule.value.kind == "PERCENTAGE"
  }

  predicate IsFixed(rule: Option<CommissionRule>) {
    rule.Some? && rule.value.kind == "FIXED"
  }

  /** Lines 103-109: `Math.floor(amount * rate / 100)` for a percentage rule and a
      non-zero amount, the rate itself (cents) for a fixed rule, and 0 otherwise.
      The percentage case is characterised as the floor: it is the largest whole
      number of cents not above the exact product, so it never over-credits. */
  function CommissionCents(rule: Option<CommissionRule>, amount: Option<int>): (c: int)
    ensures IsPercentage(rule) && TruthyAmount(amount) ==>
              100 * c <= amount.value * CommissionRate(rule) < 100 * c + 100
    ensures IsFixed(rule) ==> c == CommissionRate(rule)
    ensures !(IsPercentage(rule) && TruthyAmount(amount)) && !IsFixed(rule) ==> c == 0
  {
    var rate := CommissionRate(rule);
    if IsPercentage(rule) && TruthyAmount(amount) then
      var product := amount.value * rate;
      product / 100
    else if IsFixed(rule) then rate
    else 0
  }

  /** With a non-negative amount and rate, a percentage commission lies between 0 and the amount times the rate over 100. */
  lemma PercentageCommissionBounds(rule: Option<CommissionRule>, amount: Option<int>)
    requires IsPercentage(rule) && TruthyAmount(amount)
    requires amount.value >= 0 && CommissionRate(rule) >= 0
    ensures 0 <= CommissionCents(rule, amount)
    ensures 100 * CommissionCents(rule, amount) <= amount.value * CommissionRate(rule)
    ensures CommissionRate(rule) <= 100 ==> CommissionCents(rule, amount) <= amount.value
  {
    var c := CommissionCents(rule, amount);
    var a, rate := amount.value, CommissionRate(rule);
    var p := a * rate;
    assert 100 * c <= p < 100 * c + 100;
    assert p >= 0;
    if rate <= 100 {
      ProductAtMost(a, rate);
    }
  }

  lemma ProductAtMost(a: int, rate: int)
    requires a >= 0 && 0 <= rate <= 100
    ensures a * rate <= a * 100
  {
    assert a * (100 - rate) >= 0;
  }

  predicate Validated(ev: Event) {
    Truthy(ev.eventType) && Truthy(ev.customerEmail)
  }

  /** Lines 60-72: the conversion row; a missing amount is stored as 0 and a missing currency as 'USD'. */
  function NewConversion(ev: Event, affiliate: Affiliate, m: Method, id: Id): Conversion
    requires Validated(ev)
  {
    Conversion(
      id, affiliate.id, ev.eventType.value, ev.amountCents.GetOr(0), ev.currency.GetOr("USD"),
      "PENDING",
      ConversionMetadata(ev.eventMetadata, ev.customerEmail.value, MethodName(m),
                         ev.attributionKey, ev.referralCode))
  }

  datatype Response =
    | BadRequest
    | NotAttributed
    | Tracked(conversion: Conversion, commission: Commission, via: Method)

  function Status(r: Response): int {
    if r.BadRequest? then 400 else 200
  }

  /** The handler. The balance update reads the affiliate row fetched by code and
      writes it back by id, sequentially (no concurrent deliveries are modelled). */
  method Post(db: Db, ev: Event, conversionId: Id, commissionId: Id) returns (resp: Response)
    requires UniqueAffiliateIds(db.affiliates)
    modifies db`conversions, db`commissions, db`affiliates, db`auditLogs
    ensures resp.BadRequest? <==> !Validated(ev)
    ensures resp.NotAttributed? <==>
              Validated(ev) && Attribute(ev, old(db.affiliates)).index.None?
    ensures !resp.Tracked? ==>
              db.conversions == old(db.conversions) && db.commissions == old(db.commissions)
              && db.affiliates == old(db.affiliates) && db.auditLogs == old(db.auditLogs)
    ensures resp.Tracked? ==>
              var att := Attribute(ev, old(db.affiliates));
              var k := att.index.value;
              var a := old(db.affiliates)[k];
              var rule := ApplicableRule(db.commissionRules);
              var cents := CommissionCents(rule, ev.amountCents);
              && Validated(ev) && att.index.Some?
              && resp.via == att.via == ByReferralCode
              && resp.conversion == NewConversion(ev, a, att.via, conversionId)
              && resp.commission == Commission(commissionId, conversionId, a.id, a.userId, cents,
                                               CommissionRate(rule), "PENDING", None)
              && db.conversions == old(db.conversions) + [resp.conversion]
              && db.commissions == old(db.commissions) + [resp.commission]
              && db.affiliates == Credit(old(db.affiliates), k, cents)
              && db.auditLogs == old(db.auditLogs) +
                   [AuditLog("system", "conversion_tracked", "conversion", conversionId,
                             ConversionTracked(ev.eventType.value, ev.amountCents, cents, a.id,
                                               "referral_code"))]
  {
    if !Truthy(ev.eventType) || !Truthy(ev.customerEmail) {
      return BadRequest;
    }

    var found: Option<nat> := None;
    var via := NoAttribution;
    if Truthy(ev.attributionKey) {
      // the click-history lookup is stubbed out in the source
      via := ByAttributionKey;
    }
    if found.None? && Truthy(ev.referralCode) {
      found := FirstIndex(db.affiliates, WithReferralCode(ev.referralCode.value));
      via := ByReferralCode;
    }
    assert found == Attribute(ev, db.affiliates).index && via == Attribute(ev, db.affiliates).via;
    if found.None? {
      return NotAttributed;
    }
    var affiliate := db.affiliates[found.value];
    ghost var affiliates0 := db.affiliates;

    var conversion := NewConversion(ev, affiliate, via, conversionId);
    db.conversions := db.conversions + [conversion];

    var rule := ApplicableRule(db.commissionRules);
    var rate := CommissionRate(rule);
    var amount := 0;
    if IsPercentage(rule) && TruthyAmount(ev.amountCents) {
      amount := (ev.amountCents.value * rate) / 100;
    } else if IsFixed(rule) {
      amount := rate;
    }
    assert amount == CommissionCents(rule, ev.amountCents);

    var commission := Commission(commissionId, conversion.id, affiliate.id, affiliate.userId,
                                 amount, rate, "PENDING", None);
    db.commissions := db.commissions + [commission];

    // updateAffiliate(affiliate.id, { balanceCents: affiliate.balanceCents + amount })
    var row := FirstIndex(db.affiliates, AffiliateWithId(affiliate.id));
    assert row == Some(found.value) by {
      assert affiliates0[found.value].id == affiliate.id;
    }
    // the row read by code is the row written by id, so setting its balance to
    // `affiliate.balanceCents + amount` raises the stored balance by `amount`
    db.affiliates := Credit(db.affiliates, row.value, amount);

    db.auditLogs := db.auditLogs +
      [AuditLog("system", "conversion_tracked", "conversion", conversion.id,
                ConversionTracked(ev.eventType.value, ev.amountCents, amount, affiliate.id,
                                  MethodName(via)))];
    resp := Tracked(conversion, commission, via);
  }
}
