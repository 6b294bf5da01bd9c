/** `GET` and `POST /api/admin/payouts`: group the approved, unpaid commissions
    by affiliate, and pay out selected affiliates (one payout per affiliate,
    its commissions stamped as paid, its balance credited). */
module Payouts {
  import opened Common
  import opened Prisma

  /** Approved and not yet paid: the `where` filter of both handlers. */
  predicate Eligible(c: Commission) {
    c.status == "APPROVED" && c.paidAt.None?
  }

  function EligibleFor(aid: Id): Commission -> bool {
    (c: Commission) => Eligible(c) && c.affiliateId == aid
  }

  function ForAffiliate(aid: Id): Commission -> bool {
    (c: Commission) => c.affiliateId == aid
  }

  function Cents(c: Commission): int {
    c.amountCents
  }

  /** The commissions the POST loop fetches for one affiliate, in table order. */
  function Unpaid(cs: seq<Commission>, aid: Id): seq<Commission> {
    Filter(cs, EligibleFor(aid))
  }

  /** Cents still owed on approved commissions, over the whole table. */
  function UnpaidCents(cs: seq<Commission>): int {
    SumBy(Filter(cs, Eligible), Cents)
  }

  // ---------------------------------------------------------------- GET

  /** One element of `Object.values(commissionsByAffiliate)`. */
  datatype Group = Group(affiliateId: Id, commissions: seq<Commission>, totalAmount: int)

  function GroupWithId(aid: Id): Group -> bool {
    (g: Group) => g.affiliateId == aid
  }

  /** What the reducer at lines 52-69 builds from `pending`: one group per affiliate key,
      holding exactly that affiliate's commissions in order, with their sum, and a group
      for every key that occurs. */
  predicate Grouping(pending: seq<Commission>, groups: seq<Group>) {
    KeysDistinct(groups) && GroupsExact(pending, groups) && GroupsCover(pending, groups)
  }

  predicate KeysDistinct(groups: seq<Group>) {
    forall i, j :: 0 <= i < j < |groups| ==> groups[i].affiliateId != groups[j].affiliateId
  }

  predicate GroupExact(pending: seq<Commission>, g: Group) {
    && g.commissions == Filter(pending, ForAffiliate(g.affiliateId))
    && g.commissions != []
    && g.totalAmount == SumBy(g.commissions, Cents)
  }

  predicate GroupsExact(pending: seq<Commission>, groups: seq<Group>) {
    forall i :: 0 <= i < |groups| ==> GroupExact(pending, groups[i])
  }

  predicate HasGroup(groups: seq<Group>, aid: Id) {
    exists i :: 0 <= i < |groups| && groups[i].affiliateId == aid
  }

  predicate GroupsCover(pending: seq<Commission>, groups: seq<Group>) {
    forall j :: 0 <= j < |pending| ==> HasGroup(groups, pending[j].affiliateId)
  }

  /** Every pending commission lies in exactly one group: the one keyed by its affiliate. */
  lemma ExactlyOneGroup(pending: seq<Commission>, groups: seq<Group>, j: nat)
    requires Grouping(pending, groups) && j < |pending|
    ensures exists i :: 0 <= i < |groups| && pending[j] in groups[i].commissions
    ensures forall i, i' :: 0 <= i < |groups| && 0 <= i' < |groups| &&
                            pending[j] in groups[i].commissions && pending[j] in groups[i'].commissions
                            ==> i == i'
  {
    var c := pending[j];
    assert HasGroup(groups, c.affiliateId);
    var i :| 0 <= i < |groups| && groups[i].affiliateId == c.affiliateId;
    assert GroupExact(pending, groups[i]);
    FilterMember(pending, ForAffiliate(c.affiliateId), c);
    assert c in groups[i].commissions;
    forall i, i' | 0 <= i < |groups| && 0 <= i' < |groups| &&
                   c in groups[i].commissions && c in groups[i'].commissions
      ensures i == i'
    {
      assert GroupExact(pending, groups[i]) && GroupExact(pending, groups[i']);
      KeyOfMember(pending, groups[i].affiliateId, c);
      KeyOfMember(pending, groups[i'].affiliateId, c);
    }
  }

  lemma KeyOfMember(pending: seq<Commission>, aid: Id, c: Commission)
    requires c in Filter(pending, ForAffiliate(aid))
    ensures c.affiliateId == aid
  {
    FilterMember(pending, ForAffiliate(aid), c);
  }

  /** The GET handler: after the admin gate, the reducer over the eligible commissions. */
  method Get(db: Db, token: Token) returns (status: int, groups: seq<Group>)
    ensures AdminGate(db.users, token).Some? ==>
              status == AdminGate(db.users, token).value && groups == []
    ensures AdminGate(db.users, token).None? ==>
              status == 200 && Grouping(Filter(db.commissions, Eligible), groups)
  {
    var gate := AdminGate(db.users, token);
    if gate.Some? {
      return gate.value, [];
    }
    status := 200;
    groups := GroupByAffiliate(Filter(db.commissions, Eligible));
  }

  /** The reducer at lines 52-69, over the commissions the query returned. */
  method GroupByAffiliate(pending: seq<Commission>) returns (groups: seq<Group>)
    ensures Grouping(pending, groups)
  {
    groups := [];
    var k := 0;
    while k < |pending|
      invariant 0 <= k <= |pending|
      invariant Grouping(pending[..k], groups)
    {
      assert pending[..k + 1] == pending[..k] + [pending[k]];
      groups := AddToGroup(pending[..k], groups, pending[k]);
      k := k + 1;
    }
    assert pending[..k] == pending;
  }

  /** The reducer's callback: open a group for a new affiliate key, or append the
      commission to its group and add its cents to the total. */
  method AddToGroup(seen: seq<Commission>, groups: seq<Group>, c: Commission) returns (r: seq<Group>)
    requires Grouping(seen, groups)
    ensures Grouping(seen + [c], r)
  {
    var found := FirstIndex(groups, GroupWithId(c.affiliateId));
    if found.None? {
      GroupingOpen(seen, groups, c);
      r := groups + [Group(c.affiliateId, [c], c.amountCents)];
    } else {
      var i := found.value;
      GroupingJoin(seen, groups, c, i);
      r := groups[i := groups[i].(commissions := groups[i].commissions + [c],
                                  totalAmount := groups[i].totalAmount + c.amountCents)];
    }
  }

  lemma FilterSnoc(p: seq<Commission>, c: Commission, a: Id)
    ensures Filter(p + [c], ForAffiliate(a)) ==
            Filter(p, ForAffiliate(a)) + (if c.affiliateId == a then [c] else [])
  {
    FilterAppend(p, [c], ForAffiliate(a));
    assert [c][1..] == [];
  }

  lemma OtherGroupExact(p: seq<Commission>, g: Group, c: Commission)
    requires GroupExact(p, g) && g.affiliateId != c.affiliateId
    ensures GroupExact(p + [c], g)
  {
    FilterSnoc(p, c, g.affiliateId);
  }

  lemma SameGroupExact(p: seq<Commission>, g: Group, c: Commission)
    requires GroupExact(p, g) && g.affiliateId == c.affiliateId
    ensures GroupExact(p + [c], g.(commissions := g.commissions + [c],
                                   totalAmount := g.totalAmount + c.amountCents))
  {
    FilterSnoc(p, c, g.affiliateId);
    SumByAppend(g.commissions, [c], Cents);
    assert SumBy([c], Cents) == c.amountCents;
  }

  lemma NoGroupNoMembers(p: seq<Commission>, groups: seq<Group>, a: Id)
    requires GroupsCover(p, groups) && !HasGroup(groups, a)
    ensures Filter(p, ForAffiliate(a)) == []
  {
    assert forall j :: 0 <= j < |p| ==> !ForAffiliate(a)(p[j]) by {
      forall j | 0 <= j < |p| ensures !ForAffiliate(a)(p[j]) {
        assert HasGroup(groups, p[j].affiliateId);
      }
    }
    FilterNone(p, ForAffiliate(a));
  }

  /** Groups that keep their keys, plus one for `c`'s affiliate, still cover `p + [c]`. */
  lemma CoverExtend(p: seq<Commission>, groups: seq<Group>, g': seq<Group>, c: Commission)
    requires GroupsCover(p, groups)
    requires |groups| <= |g'| && forall n :: 0 <= n < |groups| ==> g'[n].affiliateId == groups[n].affiliateId
    requires HasGroup(g', c.affiliateId)
    ensures GroupsCover(p + [c], g')
  {
    var p' := p + [c];
    forall j | 0 <= j < |p'|
      ensures HasGroup(g', p'[j].affiliateId)
    {
      if j < |p| {
        assert p'[j] == p[j];
        assert HasGroup(groups, p[j].affiliateId);
        var n :| 0 <= n < |groups| && groups[n].affiliateId == p[j].affiliateId;
        assert g'[n].affiliateId == p'[j].affiliateId;
      }
    }
  }

  /** A commission whose affiliate has no group yet opens a new group at the end. */
  lemma GroupingOpen(p: seq<Commission>, groups: seq<Group>, c: Commission)
    requires Grouping(p, groups)
    requires forall i :: 0 <= i < |groups| ==> !GroupWithId(c.affiliateId)(groups[i])
    ensures Grouping(p + [c], groups + [Group(c.affiliateId, [c], c.amountCents)])
  {
    var p', g' := p + [c], groups + [Group(c.affiliateId, [c], c.amountCents)];
    assert !HasGroup(groups, c.affiliateId);
    NoGroupNoMembers(p, groups, c.affiliateId);
    forall i | 0 <= i < |g'|
      ensures GroupExact(p', g'[i])
    {
      if i < |groups| {
        assert GroupExact(p, groups[i]);
        assert !GroupWithId(c.affiliateId)(groups[i]);
        OtherGroupExact(p, groups[i], c);
      } else {
        FilterSnoc(p, c, c.affiliateId);
        assert SumBy([c], Cents) == c.amountCents;
      }
    }
    assert g'[|groups|].affiliateId == c.affiliateId;
    CoverExtend(p, groups, g', c);
    assert KeysDistinct(g') by {
      forall i, j | 0 <= i < j < |g'| ensures g'[i].affiliateId != g'[j].affiliateId {
        if j == |groups| {
          assert !GroupWithId(c.affiliateId)(groups[i]);
        } else {
          assert KeysDistinct(groups);
        }
      }
    }
    assert GroupsExact(p', g');
  }

  /** A commission whose affiliate already has group `i` joins the end of that group. */
  lemma GroupingJoin(p: seq<Commission>, groups: seq<Group>, c: Commission, i: nat)
    requires Grouping(p, groups)
    requires i < |groups| && GroupWithId(c.affiliateId)(groups[i])
    ensures Grouping(p + [c], groups[i := groups[i].(commissions := groups[i].commissions + [c],
                                                     totalAmount := groups[i].totalAmount + c.amountCents)])
  {
    var g := groups[i];
    var p', g' := p + [c], groups[i := g.(commissions := g.commissions + [c],
                                          totalAmount := g.totalAmount + c.amountCents)];
    forall n | 0 <= n < |g'|
      ensures GroupExact(p', g'[n])
    {
      assert GroupExact(p, groups[n]);
      if n != i {
        assert KeysDistinct(groups);
        assert groups[n].affiliateId != g.affiliateId;
        OtherGroupExact(p, groups[n], c);
      } else {
        SameGroupExact(p, g, c);
      }
    }
    assert g'[i].affiliateId == c.affiliateId;
    CoverExtend(p, groups, g', c);
  }

  // ---------------------------------------------------------------- POST

  /** One element of `processedPayouts`. */
  datatype Processed = Processed(affiliateId: Id, payoutId: Id, amount: int, commissionCount: nat)

  /** The tables the POST loop writes, its result list, and whether an `update` threw. */
  datatype Books = Books(
    commissions: seq<Commission>,
    affiliates: seq<Affiliate>,
    payouts: seq<Payout>,
    processed: seq<Processed>,
    failed: bool)

  function IdsOf(cs: seq<Commission>): set<Id> {
    set c | c in cs :: c.id
  }

  /** `commission.updateMany({ where: { id: { in: ids } }, data: { paidAt: now } })`. */
  function MarkPaid(cs: seq<Commission>, ids: set<Id>, now: Millis): (r: seq<Commission>)
    ensures |r| == |cs|
    ensures forall i :: 0 <= i < |cs| ==>
              r[i] == if cs[i].id in ids then cs[i].(paidAt := Some(now)) else cs[i]
    decreases |cs|
  {
    if cs == [] then []
    else
      [if cs[0].id in ids then cs[0].(paidAt := Some(now)) else cs[0]] + MarkPaid(cs[1..], ids, now)
  }

  /** Lines 121-173, one affiliate: skip when nothing is owed; otherwise create the payout,
      stamp the fetched commissions, and credit the affiliate. When no affiliate has the id,
      `affiliate.update` throws after the first two writes and the route answers 500. */
  function Step(b: Books, aid: Id, now: Millis, newId: nat -> Id): Books {
    var unpaid := Unpaid(b.commissions, aid);
    if unpaid == [] then b
    else
      var total := SumBy(unpaid, Cents);
      var payout := Payout(newId(|b.payouts|), unpaid[0].userId, unpaid[0].id, total,
                           "BANK_TRANSFER", "PENDING");
      var marked := MarkPaid(b.commissions, IdsOf(unpaid), now);
      match FirstIndex(b.affiliates, AffiliateWithId(aid))
      case None => Books(marked, b.affiliates, b.payouts + [payout], b.processed, true)
      case Some(k) =>
        Books(marked, Credit(b.affiliates, k, total),
              b.payouts + [payout], b.processed + [Processed(aid, payout.id, total, |unpaid|)],
              false)
  }

  /** The whole loop over `affiliateIds`, stopping at the first failure. */
  function Run(b: Books, ids: seq<Id>, now: Millis, newId: nat -> Id): Books
    decreases |ids|
  {
    if ids == [] then b
    else
      var s := Step(b, ids[0], now, newId);
      if s.failed then s else Run(s, ids[1..], now, newId)
  }

  /** The POST handler. `affiliateIds` is `None` when the body has no such key or it is not an array. */
  method Post(db: Db, token: Token, affiliateIds: Option<seq<Id>>, now: Millis, newId: nat -> Id)
    returns (status: int, processed: seq<Processed>)
    modifies db`commissions, db`affiliates, db`payouts
    ensures AdminGate(old(db.users), token).Some? ==>
              && status == AdminGate(old(db.users), token).value && processed == []
              && db.commissions == old(db.commissions) && db.affiliates == old(db.affiliates)
              && db.payouts == old(db.payouts)
    ensures (AdminGate(old(db.users), token).None? &&
             (affiliateIds.None? || affiliateIds.value == [])) ==> status == 400
    ensures status != 200 && status != 500 ==>
              && processed == []
              && db.commissions == old(db.commissions) && db.affiliates == old(db.affiliates)
              && db.payouts == old(db.payouts)
    ensures AdminGate(old(db.users), token).None? &&
            affiliateIds.Some? && affiliateIds.value != [] ==>
              var r := Run(Books(old(db.commissions), old(db.affiliates), old(db.payouts), [], false),
                           affiliateIds.value, now, newId);
              && db.commissions == r.commissions && db.affiliates == r.affiliates
              && db.payouts == r.payouts
              && status == (if r.failed then 500 else 200)
              && processed == (if r.failed then [] else r.processed)
  {
    var gate := AdminGate(db.users, token);
    if gate.Some? {
      return gate.value, [];
    }
    if affiliateIds.None? || affiliateIds.value == [] {
      return 400, [];
    }
    var ids := affiliateIds.value;
    ghost var b0 := Books(db.commissions, db.affiliates, db.payouts, [], false);
    status, processed := 200, [];
    var k := 0;
    while k < |ids|
      invariant 0 <= k <= |ids|
      invariant Run(b0, ids, now, newId) ==
                Run(Books(db.commissions, db.affiliates, db.payouts, processed, false), ids[k..], now, newId)
    {
      var commissions, affiliates, payouts := db.commissions, db.affiliates, db.payouts;
      ghost var cur := Books(commissions, affiliates, payouts, processed, false);
      var aid := ids[k];
      assert ids[k..][0] == aid && ids[k..][1..] == ids[k + 1..];
      StepCases(cur, aid, now, newId);
      ghost var next := Step(cur, aid, now, newId);
      var unpaid := Filter(commissions, EligibleFor(aid));
      if unpaid != [] {
        var total := SumBy(unpaid, Cents);
        var payout := Payout(newId(|payouts|), unpaid[0].userId, unpaid[0].id, total,
                             "BANK_TRANSFER", "PENDING");
        db.payouts := payouts + [payout];
        db.commissions := MarkPaid(commissions, IdsOf(unpaid), now);
        var row := FirstIndex(affiliates, AffiliateWithId(aid));
        if row.None? {
          assert next == Books(db.commissions, affiliates, db.payouts, processed, true);
          return 500, [];
        }
        db.affiliates := Credit(affiliates, row.value, total);
        processed := processed + [Processed(aid, payout.id, total, |unpaid|)];
        assert next == Books(db.commissions, db.affiliates, db.payouts, processed, false);
      } else {
        assert next == cur;
      }
      k := k + 1;
    }
  }

  // ---------------------------------------------------------------- lemmas

  /** The id set of an affiliate's unpaid commissions picks out exactly those rows. */
  predicate Selects(cs: seq<Commission>, ids: set<Id>, aid: Id) {
    forall i :: 0 <= i < |cs| ==> (cs[i].id in ids <==> Eligible(cs[i]) && cs[i].affiliateId == aid)
  }

  /** With unique commission ids, `id in commissions.map(c => c.id)` selects exactly the fetched rows. */
  lemma SelectsUnpaid(cs: seq<Commission>, aid: Id)
    requires UniqueCommissionIds(cs)
    ensures Selects(cs, IdsOf(Unpaid(cs, aid)), aid)
  {
    var u := Unpaid(cs, aid);
    forall i | 0 <= i < |cs|
      ensures cs[i].id in IdsOf(u) <==> Eligible(cs[i]) && cs[i].affiliateId == aid
    {
      if cs[i].id in IdsOf(u) {
        var c :| c in u && c.id == cs[i].id;
        FilterMember(cs, EligibleFor(aid), c);
        var m :| 0 <= m < |cs| && cs[m] == c;
        assert m == i;
      }
      FilterMember(cs, EligibleFor(aid), cs[i]);
    }
  }

  lemma {:induction false} SelectsTail(cs: seq<Commission>, ids: set<Id>, aid: Id)
    requires cs != [] && Selects(cs, ids, aid)
    ensures Selects(cs[1..], ids, aid)
  {
    assert forall i :: 0 <= i < |cs| - 1 ==> cs[1..][i] == cs[i + 1];
  }

  /** After the stamp, the affiliate has nothing left to pay out. */
  lemma MarkPaidSettles(cs: seq<Commission>, ids: set<Id>, now: Millis, aid: Id)
    requires Selects(cs, ids, aid)
    ensures Unpaid(MarkPaid(cs, ids, now), aid) == []
  {
  }

  /** Another affiliate's unpaid commissions are not touched by the stamp. */
  lemma MarkPaidKeepsOthers(cs: seq<Commission>, ids: set<Id>, now: Millis, aid: Id, other: Id)
    requires Selects(cs, ids, aid) && other != aid
    ensures Unpaid(MarkPaid(cs, ids, now), other) == Unpaid(cs, other)
  {
    var m := MarkPaid(cs, ids, now);
    FilterPointwise(cs, m, EligibleFor(other));
  }

  /** The stamp lowers the owed total by exactly the affiliate's unpaid sum. */
  lemma {:induction false} MarkPaidCents(cs: seq<Commission>, ids: set<Id>, now: Millis, aid: Id)
    requires Selects(cs, ids, aid)
    ensures UnpaidCents(MarkPaid(cs, ids, now)) == UnpaidCents(cs) - SumBy(Unpaid(cs, aid), Cents)
    decreases |cs|
  {
    if cs != [] {
      var c, t := cs[0], cs[1..];
      var m := MarkPaid(cs, ids, now);
      assert m[0] == (if c.id in ids then c.(paidAt := Some(now)) else c);
      assert m[1..] == MarkPaid(t, ids, now);
      SelectsTail(cs, ids, aid);
      MarkPaidCents(t, ids, now, aid);
      SumFilterCons(m, Eligible, Cents);
      SumFilterCons(cs, Eligible, Cents);
      SumFilterCons(cs, EligibleFor(aid), Cents);
      assert EligibleFor(aid)(c) <==> c.id in ids;
    }
  }

  function Balance(a: Affiliate): int {
    a.balanceCents
  }

  function PayoutCents(p: Payout): int {
    p.amountCents
  }

  function ProcessedCents(p: Processed): int {
    p.amount
  }

  /** Crediting one row raises the balance total by the credit. */
  lemma CreditTotal(affs: seq<Affiliate>, k: nat, t: int)
    requires k < |affs|
    ensures SumBy(Credit(affs, k, t), Balance) == SumBy(affs, Balance) + t
    ensures |Credit(affs, k, t)| == |affs|
    ensures forall j :: 0 <= j < |affs| ==> Credit(affs, k, t)[j].id == affs[j].id
  {
    var a := affs[k];
    var upd := affs[k := a.(balanceCents := a.balanceCents + t)];
    assert affs == affs[..k] + [a] + affs[k + 1..];
    assert upd == affs[..k] + [a.(balanceCents := a.balanceCents + t)] + affs[k + 1..];
    SumByAppend(affs[..k] + [a], affs[k + 1..], Balance);
    SumByAppend(affs[..k], [a], Balance);
    SumByAppend(affs[..k] + [a.(balanceCents := a.balanceCents + t)], affs[k + 1..], Balance);
    SumByAppend(affs[..k], [a.(balanceCents := a.balanceCents + t)], Balance);
  }

  /** Every commission names an affiliate row: the foreign key of `Commission.affiliateId`. */
  predicate Referenced(b: Books) {
    forall i :: 0 <= i < |b.commissions| ==> HasAffiliateRow(b.affiliates, b.commissions[i].affiliateId)
  }

  predicate HasAffiliateRow(affs: seq<Affiliate>, aid: Id) {
    exists j :: 0 <= j < |affs| && affs[j].id == aid
  }

  /** What the tables satisfy in the database and every step preserves. */
  predicate Consistent(b: Books) {
    UniqueCommissionIds(b.commissions) && Referenced(b)
  }

  /** Rewriting rows without changing their keys keeps the tables consistent. */
  lemma ConsistentAfter(b: Books, b': Books)
    requires Consistent(b)
    requires |b'.commissions| == |b.commissions| && |b'.affiliates| == |b.affiliates|
    requires forall i :: 0 <= i < |b.commissions| ==>
               b'.commissions[i].id == b.commissions[i].id &&
               b'.commissions[i].affiliateId == b.commissions[i].affiliateId
    requires forall j :: 0 <= j < |b.affiliates| ==> b'.affiliates[j].id == b.affiliates[j].id
    ensures Consistent(b')
  {
    forall i | 0 <= i < |b'.commissions|
      ensures HasAffiliateRow(b'.affiliates, b'.commissions[i].affiliateId)
    {
      assert HasAffiliateRow(b.affiliates, b.commissions[i].affiliateId);
      var j :| 0 <= j < |b.affiliates| && b.affiliates[j].id == b.commissions[i].affiliateId;
      assert b'.affiliates[j].id == b'.commissions[i].affiliateId;
    }
  }

  /** When something is owed, the foreign key gives the row the step credits. */
  lemma CreditedRow(b: Books, aid: Id) returns (k: nat)
    requires Referenced(b) && Unpaid(b.commissions, aid) != []
    ensures k < |b.affiliates| && b.affiliates[k].id == aid
    ensures FirstIndex(b.affiliates, AffiliateWithId(aid)) == Some(k)
  {
    var u := Unpaid(b.commissions, aid);
    FilterMember(b.commissions, EligibleFor(aid), u[0]);
    var i0 :| 0 <= i0 < |b.commissions| && b.commissions[i0] == u[0];
    assert HasAffiliateRow(b.affiliates, b.commissions[i0].affiliateId);
    var j0 :| 0 <= j0 < |b.affiliates| && b.affiliates[j0].id == b.commissions[i0].affiliateId;
    assert AffiliateWithId(aid)(b.affiliates[j0]);
    k := FirstIndex(b.affiliates, AffiliateWithId(aid)).value;
  }

  /** The outcome of a step, case by case, with or without the foreign key. */
  lemma StepCases(b: Books, aid: Id, now: Millis, newId: nat -> Id)
    ensures var s := Step(b, aid, now, newId);
            var u := Unpaid(b.commissions, aid);
            var total := SumBy(u, Cents);
            var row := FirstIndex(b.affiliates, AffiliateWithId(aid));
            && (u == [] ==> s == b)
            && (u != [] ==>
                  var payout := Payout(newId(|b.payouts|), u[0].userId, u[0].id, total,
                                       "BANK_TRANSFER", "PENDING");
                  && s.commissions == MarkPaid(b.commissions, IdsOf(u), now)
                  && s.payouts == b.payouts + [payout]
                  && (row.None? ==> s.failed && s.affiliates == b.affiliates && s.processed == b.processed)
                  && (row.Some? ==>
                        && !s.failed
                        && s.affiliates == Credit(b.affiliates, row.value, total)
                        && s.processed == b.processed + [Processed(aid, payout.id, total, |u|)]))
  {
  }

  /** The fields of a step that has something to pay, under the foreign key. */
  lemma StepFields(b: Books, aid: Id, now: Millis, newId: nat -> Id) returns (k: nat)
    requires Referenced(b) && Unpaid(b.commissions, aid) != []
    ensures k < |b.affiliates| && b.affiliates[k].id == aid
    ensures var s := Step(b, aid, now, newId);
            var u := Unpaid(b.commissions, aid);
            var total := SumBy(u, Cents);
            var payout := Payout(newId(|b.payouts|), u[0].userId, u[0].id, total, "BANK_TRANSFER", "PENDING");
            && !s.failed
            && s.commissions == MarkPaid(b.commissions, IdsOf(u), now)
            && s.payouts == b.payouts + [payout]
            && s.affiliates == Credit(b.affiliates, k, total)
            && s.processed == b.processed + [Processed(aid, payout.id, total, |u|)]
  {
    k := CreditedRow(b, aid);
  }

  /** Under the foreign key a step never fails, keeps the tables consistent, settles the
      affiliate and leaves every other affiliate's dues alone. */
  lemma StepSettles(b: Books, aid: Id, now: Millis, newId: nat -> Id)
    requires Consistent(b) && !b.failed
    ensures var s := Step(b, aid, now, newId);
            && !s.failed && Consistent(s)
            && Unpaid(s.commissions, aid) == []
            && (forall other :: other != aid ==>
                  Unpaid(s.commissions, other) == Unpaid(b.commissions, other))
  {
    var u := Unpaid(b.commissions, aid);
    var s := Step(b, aid, now, newId);
    if u != [] {
      var k := StepFields(b, aid, now, newId);
      SelectsUnpaid(b.commissions, aid);
      var ids := IdsOf(u);
      var m := MarkPaid(b.commissions, ids, now);
      MarkPaidSettles(b.commissions, ids, now, aid);
      forall other | other != aid
        ensures Unpaid(m, other) == Unpaid(b.commissions, other)
      {
        MarkPaidKeepsOthers(b.commissions, ids, now, aid, other);
      }
      ConsistentAfter(b, s);
    }
  }

  /** A step moves the same amount in all four places: the new payout, the result entry,
      the affiliate's balance, and the table's owed total. */
  lemma StepLedger(b: Books, aid: Id, now: Millis, newId: nat -> Id)
    requires Consistent(b) && !b.failed
    ensures var s := Step(b, aid, now, newId);
            var total := SumBy(Unpaid(b.commissions, aid), Cents);
            && SumBy(s.payouts, PayoutCents) == SumBy(b.payouts, PayoutCents) + total
            && SumBy(s.processed, ProcessedCents) == SumBy(b.processed, ProcessedCents) + total
            && SumBy(s.affiliates, Balance) == SumBy(b.affiliates, Balance) + total
            && UnpaidCents(s.commissions) == UnpaidCents(b.commissions) - total
  {
    var u := Unpaid(b.commissions, aid);
    var s := Step(b, aid, now, newId);
    if u == [] {
      assert SumBy(u, Cents) == 0;
    } else {
      var total := SumBy(u, Cents);
      var k := StepFields(b, aid, now, newId);
      SelectsUnpaid(b.commissions, aid);
      MarkPaidCents(b.commissions, IdsOf(u), now, aid);
      CreditTotal(b.affiliates, k, total);
      var payout := Payout(newId(|b.payouts|), u[0].userId, u[0].id, total, "BANK_TRANSFER", "PENDING");
      SumByAppend(b.payouts, [payout], PayoutCents);
      SumByAppend(b.processed, [Processed(aid, payout.id, total, |u|)], ProcessedCents);
    }
  }

  // ---------------------------------------------------------------- the whole loop

  /** Under the foreign key the loop never hits the 500 path, and it keeps the tables consistent. */
  lemma {:induction false} RunNeverFails(b: Books, ids: seq<Id>, now: Millis, newId: nat -> Id)
    requires Consistent(b) && !b.failed
    ensures !Run(b, ids, now, newId).failed && Consistent(Run(b, ids, now, newId))
    decreases |ids|
  {
    if ids != [] {
      StepSettles(b, ids[0], now, newId);
      RunNeverFails(Step(b, ids[0], now, newId), ids[1..], now, newId);
    }
  }

  /** Conservation: what the new payouts add up to is what the result list reports, what the
      balances grew by, and what the owed total shrank by. */
  lemma {:induction false} RunLedger(b: Books, ids: seq<Id>, now: Millis, newId: nat -> Id)
    requires Consistent(b) && !b.failed
    ensures var r := Run(b, ids, now, newId);
            var paid := SumBy(r.payouts, PayoutCents) - SumBy(b.payouts, PayoutCents);
            && paid == SumBy(r.processed, ProcessedCents) - SumBy(b.processed, ProcessedCents)
            && paid == SumBy(r.affiliates, Balance) - SumBy(b.affiliates, Balance)
            && paid == UnpaidCents(b.commissions) - UnpaidCents(r.commissions)
    decreases |ids|
  {
    if ids != [] {
      StepSettles(b, ids[0], now, newId);
      StepLedger(b, ids[0], now, newId);
      RunLedger(Step(b, ids[0], now, newId), ids[1..], now, newId);
    }
  }

  /** An affiliate with nothing owed stays that way through the loop. */
  lemma {:induction false} RunKeepsSettled(b: Books, ids: seq<Id>, now: Millis, newId: nat -> Id, x: Id)
    requires Consistent(b) && !b.failed && Unpaid(b.commissions, x) == []
    ensures Unpaid(Run(b, ids, now, newId).commissions, x) == []
    decreases |ids|
  {
    if ids != [] {
      StepSettles(b, ids[0], now, newId);
      RunKeepsSettled(Step(b, ids[0], now, newId), ids[1..], now, newId, x);
    }
  }

  /** An affiliate that was not requested keeps exactly the dues it had. */
  lemma {:induction false} RunFrame(b: Books, ids: seq<Id>, now: Millis, newId: nat -> Id, x: Id)
    requires Consistent(b) && !b.failed && x !in ids
    ensures Unpaid(Run(b, ids, now, newId).commissions, x) == Unpaid(b.commissions, x)
    decreases |ids|
  {
    if ids != [] {
      StepSettles(b, ids[0], now, newId);
      RunFrame(Step(b, ids[0], now, newId), ids[1..], now, newId, x);
    }
  }

  /** Every requested affiliate ends with nothing owed: all its approved commissions are stamped. */
  lemma {:induction false} RunSettles(b: Books, ids: seq<Id>, now: Millis, newId: nat -> Id)
    requires Consistent(b) && !b.failed
    ensures forall x :: x in ids ==> Unpaid(Run(b, ids, now, newId).commissions, x) == []
    decreases |ids|
  {
    if ids != [] {
      var s := Step(b, ids[0], now, newId);
      StepSettles(b, ids[0], now, newId);
      RunSettles(s, ids[1..], now, newId);
      RunKeepsSettled(s, ids[1..], now, newId, ids[0]);
      assert forall x :: x in ids ==> x == ids[0] || x in ids[1..];
    }
  }

  /** With nothing owed to any requested affiliate, the loop writes nothing. */
  lemma {:induction false} RunIdle(b: Books, ids: seq<Id>, now: Millis, newId: nat -> Id)
    requires forall x :: x in ids ==> Unpaid(b.commissions, x) == []
    ensures Run(b, ids, now, newId) == b
    decreases |ids|
  {
    if ids != [] {
      StepCases(b, ids[0], now, newId);
      assert forall x :: x in ids[1..] ==> x in ids;
      RunIdle(b, ids[1..], now, newId);
    }
  }

  /** Idempotence: sending the same request again (at any time, with any id source) creates
      no payout, stamps nothing and credits nothing. */
  lemma SecondRunPaysNothing(b: Books, ids: seq<Id>, now: Millis, newId: nat -> Id,
                             later: Millis, laterId: nat -> Id)
    requires Consistent(b) && !b.failed
    ensures var r := Run(b, ids, now, newId);
            Run(r.(processed := []), ids, later, laterId) == r.(processed := [])
  {
    var r := Run(b, ids, now, newId);
    RunNeverFails(b, ids, now, newId);
    RunSettles(b, ids, now, newId);
    RunIdle(r.(processed := []), ids, later, laterId);
  }

  /** The requested affiliates that are owed something. */
  function Owed(cs: seq<Commission>, ids: seq<Id>): set<Id> {
    set aid | aid in ids && Unpaid(cs, aid) != []
  }

  /** Settling the first requested affiliate takes it, and only it, out of the owed set. */
  lemma OwedAfterStep(cs: seq<Commission>, cs': seq<Commission>, ids: seq<Id>)
    requires ids != [] && Unpaid(cs', ids[0]) == []
    requires forall other :: other != ids[0] ==> Unpaid(cs', other) == Unpaid(cs, other)
    ensures |Owed(cs, ids)| == |Owed(cs', ids[1..])| + (if Unpaid(cs, ids[0]) != [] then 1 else 0)
  {
    var x, rest := ids[0], ids[1..];
    var owed, owedRest := Owed(cs, ids), Owed(cs', rest);
    assert owedRest == Owed(cs, rest) - {x};
    if Unpaid(cs, x) == [] {
      assert owed == owedRest;
    } else {
      assert owed == owedRest + {x};
    }
  }

  /** The result list grows by one entry, and the payouts table by one row, per owed
      affiliate, however often it is repeated in the request. */
  lemma {:induction false} RunCount(b: Books, ids: seq<Id>, now: Millis, newId: nat -> Id)
    requires Consistent(b) && !b.failed
    ensures var r := Run(b, ids, now, newId);
            && |r.processed| == |b.processed| + |Owed(b.commissions, ids)|
            && |r.payouts| == |b.payouts| + |Owed(b.commissions, ids)|
            && r.processed[..|b.processed|] == b.processed
    decreases |ids|
  {
    if ids != [] {
      var x, rest := ids[0], ids[1..];
      var s := Step(b, x, now, newId);
      StepSettles(b, x, now, newId);
      RunCount(s, rest, now, newId);
      OwedAfterStep(b.commissions, s.commissions, ids);
      if Unpaid(b.commissions, x) != [] {
        var k := StepFields(b, x, now, newId);
        var r := Run(s, rest, now, newId);
        assert r.processed[..|b.processed|] == r.processed[..|s.processed|][..|b.processed|];
      } else {
        StepCases(b, x, now, newId);
      }
    } else {
      assert Owed(b.commissions, ids) == {};
    }
  }

  /** An entry of the result list that names an owed affiliate and reports its dues as they
      stood in `cs`. */
  predicate ReportsDues(cs: seq<Commission>, ids: seq<Id>, e: Processed) {
    && e.affiliateId in ids && Unpaid(cs, e.affiliateId) != []
    && e.amount == SumBy(Unpaid(cs, e.affiliateId), Cents)
    && e.commissionCount == |Unpaid(cs, e.affiliateId)|
  }

  /** Every entry of `ps` from index `from` on reports its dues. */
  predicate AllReport(cs: seq<Commission>, ids: seq<Id>, ps: seq<Processed>, from: nat) {
    forall i :: from <= i < |ps| ==> ReportsDues(cs, ids, ps[i])
  }

  /** The entries of `ps` from index `from` on name pairwise different affiliates. */
  predicate DistinctFrom(ps: seq<Processed>, from: nat) {
    forall i, j :: from <= i < j < |ps| ==> ps[i].affiliateId != ps[j].affiliateId
  }

  /** An entry for a later id of the request is an entry for the request. */
  lemma DuesTail(cs: seq<Commission>, ids: seq<Id>, e: Processed)
    requires ids != [] && ReportsDues(cs, ids[1..], e)
    ensures ReportsDues(cs, ids, e)
  {
    assert e.affiliateId in ids;
  }

  /** An entry written after the first requested affiliate was settled names another
      affiliate, whose dues the settling left as they were. */
  lemma DuesAfterSettling(cs: seq<Commission>, cs': seq<Commission>, ids: seq<Id>, e: Processed)
    requires ids != [] && Unpaid(cs', ids[0]) == []
    requires forall other :: other != ids[0] ==> Unpaid(cs', other) == Unpaid(cs, other)
    requires ReportsDues(cs', ids[1..], e)
    ensures ReportsDues(cs, ids, e) && e.affiliateId != ids[0]
  {
    assert e.affiliateId != ids[0];
    assert e.affiliateId in ids;
  }

  /** Each new entry names an owed affiliate and reports its dues as they stood before the
      request. */
  lemma {:induction false} RunReportsDues(b: Books, ids: seq<Id>, now: Millis, newId: nat -> Id)
    requires Consistent(b) && !b.failed
    ensures AllReport(b.commissions, ids, Run(b, ids, now, newId).processed, |b.processed|)
    decreases |ids|
  {
    if ids != [] {
      var x, rest := ids[0], ids[1..];
      var s := Step(b, x, now, newId);
      var r := Run(s, rest, now, newId);
      StepSettles(b, x, now, newId);
      assert Run(b, ids, now, newId) == r;
      RunReportsDues(s, rest, now, newId);
      RunCount(s, rest, now, newId);
      if Unpaid(b.commissions, x) == [] {
        StepCases(b, x, now, newId);
        forall i | |b.processed| <= i < |r.processed|
          ensures ReportsDues(b.commissions, ids, r.processed[i])
        {
          DuesTail(b.commissions, ids, r.processed[i]);
        }
        assert AllReport(b.commissions, ids, r.processed, |b.processed|);
      } else {
        var k := StepFields(b, x, now, newId);
        var n := |b.processed|;
        assert r.processed[n] == s.processed[n] by {
          assert r.processed[..|s.processed|] == s.processed;
        }
        assert ReportsDues(b.commissions, ids, r.processed[n]);
        forall i | n < i < |r.processed|
          ensures ReportsDues(b.commissions, ids, r.processed[i])
        {
          DuesAfterSettling(b.commissions, s.commissions, ids, r.processed[i]);
        }
        assert AllReport(b.commissions, ids, r.processed, n);
      }
    }
  }

  /** No affiliate gets two entries. */
  lemma {:induction false} RunEntriesDistinct(b: Books, ids: seq<Id>, now: Millis, newId: nat -> Id)
    requires Consistent(b) && !b.failed
    ensures DistinctFrom(Run(b, ids, now, newId).processed, |b.processed|)
    decreases |ids|
  {
    if ids != [] {
      var x, rest := ids[0], ids[1..];
      var s := Step(b, x, now, newId);
      var r := Run(s, rest, now, newId);
      StepSettles(b, x, now, newId);
      assert Run(b, ids, now, newId) == r;
      RunEntriesDistinct(s, rest, now, newId);
      if Unpaid(b.commissions, x) == [] {
        StepCases(b, x, now, newId);
        assert DistinctFrom(r.processed, |b.processed|);
      } else {
        var k := StepFields(b, x, now, newId);
        var n := |b.processed|;
        RunCount(s, rest, now, newId);
        RunReportsDues(s, rest, now, newId);
        assert r.processed[n] == s.processed[n] by {
          assert r.processed[..|s.processed|] == s.processed;
        }
        forall j | n < j < |r.processed|
          ensures r.processed[n].affiliateId != r.processed[j].affiliateId
        {
          DuesAfterSettling(b.commissions, s.commissions, ids, r.processed[j]);
        }
        assert DistinctFrom(r.processed, n);
      }
    }
  }

  /** Each new entry names an owed affiliate and reports its dues as they stood before the
      request, and no affiliate gets two entries. */
  lemma RunEntries(b: Books, ids: seq<Id>, now: Millis, newId: nat -> Id)
    requires Consistent(b) && !b.failed
    ensures var r := Run(b, ids, now, newId);
            && (forall i :: |b.processed| <= i < |r.processed| ==>
                  var e := r.processed[i];
                  && e.affiliateId in Owed(b.commissions, ids)
                  && e.amount == SumBy(Unpaid(b.commissions, e.affiliateId), Cents)
                  && e.commissionCount == |Unpaid(b.commissions, e.affiliateId)|)
            && (forall i, j :: |b.processed| <= i < j < |r.processed| ==>
                  r.processed[i].affiliateId != r.processed[j].affiliateId)
  {
    var r := Run(b, ids, now, newId);
    RunReportsDues(b, ids, now, newId);
    RunEntriesDistinct(b, ids, now, newId);
    forall i | |b.processed| <= i < |r.processed|
      ensures r.processed[i].affiliateId in Owed(b.commissions, ids)
    {
      assert ReportsDues(b.commissions, ids, r.processed[i]);
    }
  }
}
