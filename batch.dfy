/** `POST /api/admin/affiliates/batch`: one admin action applied to a list of
    affiliates. `changeStatus` rewrites the status of the users that own the
    listed affiliates, `changeGroup` merges a `group` entry into each listed
    affiliate's payout details one id at a time, and `delete` removes the
    owning users together with (by cascade) their affiliates. Every successful
    action appends one audit-log row. */
module AffiliateBatch {
  import opened Common
  import opened Prisma

  /** The user statuses `changeStatus` accepts (the `UserStatus` enum). */
  const ValidStatuses: seq<string> := ["PENDING", "ACTIVE", "INACTIVE", "SUSPENDED"]

  /** `where: { id: { in: affiliateIds } }` on the affiliates table. */
  function Listed(ids: seq<Id>): Affiliate -> bool {
    (a: Affiliate) => a.id in ids
  }

  function UserIds(affs: seq<Affiliate>): seq<Id> {
    seq(|affs|, i requires 0 <= i < |affs| => affs[i].userId)
  }

  /** `affiliates.map(aff => aff.userId)` over the listed affiliates, in table order. */
  function Owners(affs: seq<Affiliate>, ids: seq<Id>): seq<Id> {
    UserIds(Filter(affs, Listed(ids)))
  }

  /** Some listed affiliate belongs to user `uid`. */
  predicate OwnsListed(affs: seq<Affiliate>, ids: seq<Id>, uid: Id) {
    exists i :: 0 <= i < |affs| && affs[i].id in ids && affs[i].userId == uid
  }

  /** The owners are exactly the users of the listed affiliates. */
  lemma OwnersMember(affs: seq<Affiliate>, ids: seq<Id>, uid: Id)
    ensures uid in Owners(affs, ids) <==> OwnsListed(affs, ids, uid)
  {
    var listed := Filter(affs, Listed(ids));
    if uid in Owners(affs, ids) {
      var k :| 0 <= k < |listed| && listed[k].userId == uid;
      FilterMember(affs, Listed(ids), listed[k]);
      var i :| 0 <= i < |affs| && affs[i] == listed[k];
      assert affs[i].id in ids && affs[i].userId == uid;
    }
    if OwnsListed(affs, ids, uid) {
      var i :| 0 <= i < |affs| && affs[i].id in ids && affs[i].userId == uid;
      FilterMember(affs, Listed(ids), affs[i]);
      var k :| 0 <= k < |listed| && listed[k] == affs[i];
      assert Owners(affs, ids)[k] == uid;
    }
  }

  function InSet(ids: seq<Id>): User -> bool {
    (u: User) => u.id in ids
  }

  function NotInSet(ids: seq<Id>): User -> bool {
    (u: User) => u.id !in ids
  }

  // ---------------------------------------------------------------- changeStatus

  /** `user.updateMany({ where: { id: { in: owners } }, data: { status } })`. */
  function WithStatus(users: seq<User>, owners: seq<Id>, status: string): seq<User> {
    seq(|users|, i requires 0 <= i < |users| =>
      if users[i].id in owners then users[i].(status := status) else users[i])
  }

  /** After `changeStatus`, a user row carries the new status if its user owns a listed
      affiliate and is untouched otherwise; no other column changes, and the reported
      count is the number of rows that were selected. */
  lemma StatusChangesOwnersOnly(users: seq<User>, affs: seq<Affiliate>, ids: seq<Id>,
                                status: string, j: nat)
    requires j < |users|
    ensures var r := WithStatus(users, Owners(affs, ids), status);
      |r| == |users| &&
      (OwnsListed(affs, ids, users[j].id) ==> r[j] == users[j].(status := status)) &&
      (!OwnsListed(affs, ids, users[j].id) ==> r[j] == users[j])
  {
    OwnersMember(affs, ids, users[j].id);
  }

  /** The count is at most the number of users, and the rows it counts are exactly
      those whose user owns a listed affiliate. */
  lemma StatusCount(users: seq<User>, affs: seq<Affiliate>, ids: seq<Id>)
    ensures |Filter(users, InSet(Owners(affs, ids)))| <= |users|
    ensures Filter(users, InSet(Owners(affs, ids))) ==
            Filter(users, (u: User) => OwnsListed(affs, ids, u.id))
  {
    forall i | 0 <= i < |users|
      ensures InSet(Owners(affs, ids))(users[i]) <==> OwnsListed(affs, ids, users[i].id)
    {
      OwnersMember(affs, ids, users[i].id);
    }
    FilterSame(users, InSet(Owners(affs, ids)), (u: User) => OwnsListed(affs, ids, u.id));
  }

  // ---------------------------------------------------------------- changeGroup

  /** `{ ...payoutDetails, group }`: the existing details with `group` added or overwritten. */
  function Grouped(a: Affiliate, group: string): (r: Affiliate)
    ensures r.(payoutDetails := a.payoutDetails) == a
    ensures "group" in r.payoutDetails && r.payoutDetails["group"] == group
    ensures forall k :: k in a.payoutDetails && k != "group" ==>
              k in r.payoutDetails && r.payoutDetails[k] == a.payoutDetails[k]
    ensures r.payoutDetails.Keys == a.payoutDetails.Keys + {"group"}
  {
    a.(payoutDetails := a.payoutDetails["group" := group])
  }

  /** One `affiliate.update({ where: { id } })` of the loop; an unknown id changes nothing
      (the route throws before writing, see `Post`). */
  function SetGroup(affs: seq<Affiliate>, id: Id, group: string): seq<Affiliate> {
    match FirstIndex(affs, AffiliateWithId(id))
    case None => affs
    case Some(k) => affs[k := Grouped(affs[k], group)]
  }

  /** The loop over `affiliateIds`, as a fold from the front. */
  function Regrouped(affs: seq<Affiliate>, ids: seq<Id>, group: string): seq<Affiliate>
    decreases |ids|
  {
    if ids == [] then affs else Regrouped(SetGroup(affs, ids[0], group), ids[1..], group)
  }

  /** The id column of a table. */
  function IdsOf(affs: seq<Affiliate>): seq<Id> {
    seq(|affs|, i requires 0 <= i < |affs| => affs[i].id)
  }

  /** Regrouping never touches the id column, so which ids exist stays fixed through the loop. */
  lemma {:induction false} RegroupKeepsIds(affs: seq<Affiliate>, ids: seq<Id>, group: string)
    ensures IdsOf(Regrouped(affs, ids, group)) == IdsOf(affs)
    decreases |ids|
  {
    if ids != [] {
      var next := SetGroup(affs, ids[0], group);
      SetGroupKeepsIds(affs, ids[0], group);
      RegroupKeepsIds(next, ids[1..], group);
    }
  }

  /** One more loop iteration is one more `SetGroup` at the back. */
  lemma {:induction false} RegroupSnoc(affs: seq<Affiliate>, ids: seq<Id>, id: Id, group: string)
    ensures Regrouped(affs, ids + [id], group) == SetGroup(Regrouped(affs, ids, group), id, group)
    decreases |ids|
  {
    if ids == [] {
      assert [id][1..] == [];
    } else {
      assert (ids + [id])[0] == ids[0];
      assert (ids + [id])[1..] == ids[1..] + [id];
      RegroupSnoc(SetGroup(affs, ids[0], group), ids[1..], id, group);
    }
  }

  /** No affiliate row carries `id`. */
  predicate Missing(affs: seq<Affiliate>, id: Id) {
    forall j :: 0 <= j < |affs| ==> affs[j].id != id
  }

  /** The first id of the request that names no affiliate is `FirstIndex(ids, Unknown(affs))`. */
  function Unknown(affs: seq<Affiliate>): Id -> bool {
    (id: Id) => Missing(affs, id)
  }

  /** Every id of `ids` names an affiliate. */
  predicate AllKnown(affs: seq<Affiliate>, ids: seq<Id>) {
    forall j :: 0 <= j < |ids| ==> !Missing(affs, ids[j])
  }

  /** `findUnique` by id finds nothing exactly when no row carries the id. */
  lemma LookupMisses(affs: seq<Affiliate>, id: Id)
    ensures FirstIndex(affs, AffiliateWithId(id)).None? <==> Missing(affs, id)
  {
    assert forall j :: 0 <= j < |affs| ==> (AffiliateWithId(id)(affs[j]) <==> affs[j].id == id);
  }

  /** Tables with the same id column miss the same ids. */
  lemma SameIdsMissing(a: seq<Affiliate>, b: seq<Affiliate>, id: Id)
    requires IdsOf(a) == IdsOf(b)
    ensures Missing(a, id) <==> Missing(b, id)
  {
    assert |a| == |IdsOf(a)|;
    assert forall j :: 0 <= j < |a| ==> a[j].id == IdsOf(a)[j] == b[j].id;
  }

  /** One update leaves the id column as it was. */
  lemma SetGroupKeepsIds(affs: seq<Affiliate>, id: Id, group: string)
    ensures IdsOf(SetGroup(affs, id, group)) == IdsOf(affs)
  {
  }

  function AffiliatesWithIds(ids: seq<Id>, group: string, affs: seq<Affiliate>): seq<Affiliate> {
    seq(|affs|, j requires 0 <= j < |affs| =>
      if affs[j].id in ids then Grouped(affs[j], group) else affs[j])
  }

  /** With unique affiliate ids the loop's result does not depend on the order of the
      request or on repeated ids: every listed affiliate is grouped, every other row is
      unchanged. */
  lemma {:induction false} RegroupDirect(affs: seq<Affiliate>, ids: seq<Id>, group: string)
    requires UniqueAffiliateIds(affs)
    ensures Regrouped(affs, ids, group) == AffiliatesWithIds(ids, group, affs)
    decreases |ids|
  {
    if ids == [] {
    } else {
      var next := SetGroup(affs, ids[0], group);
      assert |next| == |affs| && forall j :: 0 <= j < |affs| ==> next[j].id == affs[j].id;
      assert UniqueAffiliateIds(next);
      RegroupDirect(next, ids[1..], group);
      var lhs := AffiliatesWithIds(ids[1..], group, next);
      var rhs := AffiliatesWithIds(ids, group, affs);
      forall j | 0 <= j < |affs| ensures lhs[j] == rhs[j] {
        if affs[j].id == ids[0] {
          var k := FirstIndex(affs, AffiliateWithId(ids[0])).value;
          assert k == j;
        }
      }
    }
  }

  // ---------------------------------------------------------------- delete

  /** `deletedEmails`: the e-mail of each listed affiliate's user, in table order.
      `None` when some listed affiliate has no user row, which makes the query that
      includes the required `user` relation fail. */
  function OwnerEmails(users: seq<User>, affs: seq<Affiliate>): (r: Option<seq<string>>)
    ensures r.Some? ==> |r.value| == |affs|
    ensures r.Some? ==> forall i :: 0 <= i < |affs| ==>
              Find(users, UserWithId(affs[i].userId)).Some? &&
              r.value[i] == Find(users, UserWithId(affs[i].userId)).value.email
    ensures r.None? <==> exists i :: 0 <= i < |affs| && Find(users, UserWithId(affs[i].userId)).None?
    decreases |affs|
  {
    if affs == [] then Some([])
    else
      match Find(users, UserWithId(affs[0].userId))
      case None => None
      case Some(u) =>
        match OwnerEmails(users, affs[1..])
        case None =>
          assert forall i :: 0 <= i < |affs| - 1 ==> affs[1..][i] == affs[i + 1];
          None
        case Some(rest) => Some([u.email] + rest)
  }

  /** The affiliates that remain once the owners are deleted and the delete cascades. */
  function Survivors(affs: seq<Affiliate>, owners: seq<Id>): seq<Affiliate> {
    Filter(affs, (a: Affiliate) => a.userId !in owners)
  }

  /** The delete removes every listed affiliate (and every other affiliate of the same
      users), keeps every affiliate whose user owns no listed affiliate, and the deleted
      and surviving users add up to the old table. */
  lemma DeleteRemovesListed(users: seq<User>, affs: seq<Affiliate>, ids: seq<Id>, a: Affiliate)
    ensures var owners := Owners(affs, ids);
      (a in Survivors(affs, owners) <==> a in affs && !OwnsListed(affs, ids, a.userId)) &&
      (a in Survivors(affs, owners) ==> a.id !in ids) &&
      |Filter(users, InSet(owners))| + |Filter(users, NotInSet(owners))| == |users|
  {
    var owners := Owners(affs, ids);
    FilterMember(affs, (b: Affiliate) => b.userId !in owners, a);
    OwnersMember(affs, ids, a.userId);
    if a in affs && a.id in ids {
      var i :| 0 <= i < |affs| && affs[i] == a;
      assert OwnsListed(affs, ids, a.userId);
    }
    ComplementCounts(users, InSet(owners), NotInSet(owners));
  }

  /** One iteration of the `changeGroup` loop, seen from the table before the loop: the
      lookup misses exactly when `ids[i]` is the first unknown id, and on a hit the update
      is the next fold step. */
  lemma GroupStep(start: seq<Affiliate>, ids: seq<Id>, i: nat, g: string)
    requires i < |ids|
    requires AllKnown(start, ids[..i])
    ensures var cur := Regrouped(start, ids[..i], g);
      match FirstIndex(cur, AffiliateWithId(ids[i]))
      case None => FirstIndex(ids, Unknown(start)) == Some(i)
      case Some(k) => AllKnown(start, ids[..i + 1]) &&
                      Regrouped(start, ids[..i + 1], g) == cur[k := Grouped(cur[k], g)]
  {
    var cur := Regrouped(start, ids[..i], g);
    RegroupKeepsIds(start, ids[..i], g);
    LookupMisses(cur, ids[i]);
    SameIdsMissing(cur, start, ids[i]);
    if Missing(start, ids[i]) {
      GroupMiss(start, ids, i);
    } else {
      GroupHit(start, ids, i, g);
    }
  }

  lemma GroupMiss(start: seq<Affiliate>, ids: seq<Id>, i: nat)
    requires i < |ids| && Missing(start, ids[i])
    requires AllKnown(start, ids[..i])
    ensures FirstIndex(ids, Unknown(start)) == Some(i)
  {
    assert forall j :: 0 <= j < i ==> ids[..i][j] == ids[j];
    FirstIndexAt(ids, Unknown(start), i);
  }

  lemma GroupHit(start: seq<Affiliate>, ids: seq<Id>, i: nat, g: string)
    requires i < |ids| && !Missing(start, ids[i])
    requires AllKnown(start, ids[..i])
    ensures var cur := Regrouped(start, ids[..i], g);
      AllKnown(start, ids[..i + 1]) &&
      Regrouped(start, ids[..i + 1], g) == SetGroup(cur, ids[i], g)
  {
    var pre, post := ids[..i], ids[..i + 1];
    assert post == pre + [ids[i]];
    RegroupSnoc(start, pre, ids[i], g);
    forall j | 0 <= j < |post|
      ensures !Missing(start, post[j])
    {
      if j < i {
        assert post[j] == pre[j];
      }
    }
  }

  /** The `for` loop of `changeGroup`: ids are processed in request order, and the
      first one that names no affiliate throws, leaving the earlier updates written. */
  method ChangeGroup(db: Db, ids: seq<Id>, g: string) returns (ok: bool)
    modifies db`affiliates
    ensures match FirstIndex(ids, Unknown(old(db.affiliates)))
      case Some(k) => !ok && db.affiliates == Regrouped(old(db.affiliates), ids[..k], g)
      case None => ok && db.affiliates == Regrouped(old(db.affiliates), ids, g)
  {
    ghost var start := db.affiliates;
    var i := 0;
    while i < |ids|
      invariant 0 <= i <= |ids|
      invariant db.affiliates == Regrouped(start, ids[..i], g)
      invariant AllKnown(start, ids[..i])
    {
      GroupStep(start, ids, i, g);
      var k := FirstIndex(db.affiliates, AffiliateWithId(ids[i]));
      if k.None? {
        // `update` on a missing row throws; earlier iterations stay written.
        return false;
      }
      db.affiliates := db.affiliates[k.value := Grouped(db.affiliates[k.value], g)];
      i := i + 1;
    }
    assert ids[..i] == ids;
    assert forall j :: 0 <= j < |ids| ==> ids[..i][j] == ids[j];
    return true;
  }

  // ---------------------------------------------------------------- the handler

  /** The checks before the switch: `affiliateIds` must be a non-empty array
      (`None` stands for a missing or non-array value) and `action` truthy. */
  predicate ArgumentsPresent(affiliateIds: Option<seq<Id>>, action: Option<string>) {
    affiliateIds.Some? && |affiliateIds.value| > 0 && Truthy(action)
  }

  method Post(db: Db, token: Token, affiliateIds: Option<seq<Id>>, action: Option<string>,
              status: Option<string>, group: Option<string>)
    returns (code: int, count: nat)
    modifies db`users, db`affiliates, db`auditLogs
    ensures AdminGate(old(db.users), token).Some? ==>
              code == AdminGate(old(db.users), token).value && count == 0 &&
              db.users == old(db.users) && db.affiliates == old(db.affiliates) &&
              db.auditLogs == old(db.auditLogs)
    ensures AdminGate(old(db.users), token).None? && !ArgumentsPresent(affiliateIds, action) ==>
              code == 400
    ensures code != 200 && code != 500 ==>
              db.users == old(db.users) && db.affiliates == old(db.affiliates) &&
              db.auditLogs == old(db.auditLogs) && count == 0
    ensures AdminGate(old(db.users), token).None? && ArgumentsPresent(affiliateIds, action) ==>
      var ids := affiliateIds.value;
      var owners := Owners(old(db.affiliates), ids);
      if action.value == "changeStatus" then
        if !Truthy(status) || status.value !in ValidStatuses then
          code == 400
        else
          code == 200 && db.affiliates == old(db.affiliates) &&
          db.users == WithStatus(old(db.users), owners, status.value) &&
          count == |Filter(old(db.users), InSet(owners))| &&
          db.auditLogs == old(db.auditLogs) +
            [AuditLog(token.userId, "BATCH_UPDATE_AFFILIATE_STATUS", "AFFILIATE", "BATCH",
                      StatusBatch(ids, status.value, count))]
      else if action.value == "changeGroup" then
        if !Truthy(group) then
          code == 400
        else
          db.users == old(db.users) &&
          match FirstIndex(ids, Unknown(old(db.affiliates)))
          case Some(k) =>
            code == 500 && count == 0 && db.auditLogs == old(db.auditLogs) &&
            db.affiliates == Regrouped(old(db.affiliates), ids[..k], group.value)
          case None =>
            code == 200 && count == |ids| &&
            db.affiliates == Regrouped(old(db.affiliates), ids, group.value) &&
            db.auditLogs == old(db.auditLogs) +
              [AuditLog(token.userId, "BATCH_UPDATE_AFFILIATE_GROUP", "AFFILIATE", "BATCH",
                        GroupBatch(ids, group.value, count))]
      else if action.value == "delete" then
        match OwnerEmails(old(db.users), Filter(old(db.affiliates), Listed(ids)))
        case None =>
          code == 500 && count == 0 && db.users == old(db.users) &&
          db.affiliates == old(db.affiliates) && db.auditLogs == old(db.auditLogs)
        case Some(emails) =>
          code == 200 && count == |Filter(old(db.users), InSet(owners))| &&
          db.users == Filter(old(db.users), NotInSet(owners)) &&
          db.affiliates == Survivors(old(db.affiliates), owners) &&
          db.auditLogs == old(db.auditLogs) +
            [AuditLog(token.userId, "BATCH_DELETE_AFFILIATES", "AFFILIATE", "BATCH",
                      DeleteBatch(ids, count, emails))]
      else
        code == 400
  {
    count := 0;
    var gate := AdminGate(db.users, token);
    if gate.Some? {
      return gate.value, 0;
    }
    if affiliateIds.None? || |affiliateIds.value| == 0 || !Truthy(action) {
      return 400, 0;
    }
    var ids := affiliateIds.value;
    if action.value == "changeStatus" {
      if !Truthy(status) || status.value !in ValidStatuses {
        return 400, 0;
      }
      var owners := Owners(db.affiliates, ids);
      count := |Filter(db.users, InSet(owners))|;
      db.users := WithStatus(db.users, owners, status.value);
      db.auditLogs := db.auditLogs +
        [AuditLog(token.userId, "BATCH_UPDATE_AFFILIATE_STATUS", "AFFILIATE", "BATCH",
                  StatusBatch(ids, status.value, count))];
      return 200, count;
    } else if action.value == "changeGroup" {
      if !Truthy(group) {
        return 400, 0;
      }
      var g := group.value;
      var ok := ChangeGroup(db, ids, g);
      if !ok {
        return 500, 0;
      }
      count := |ids|;
      db.auditLogs := db.auditLogs +
        [AuditLog(token.userId, "BATCH_UPDATE_AFFILIATE_GROUP", "AFFILIATE", "BATCH",
                  GroupBatch(ids, g, count))];
      return 200, count;
    } else if action.value == "delete" {
      var listed := Filter(db.affiliates, Listed(ids));
      var emails := OwnerEmails(db.users, listed);
      if emails.None? {
        return 500, 0;
      }
      var owners := UserIds(listed);
      count := |Filter(db.users, InSet(owners))|;
      db.users := Filter(db.users, NotInSet(owners));
      db.affiliates := Survivors(db.affiliates, owners);
      db.auditLogs := db.auditLogs +
        [AuditLog(token.userId, "BATCH_DELETE_AFFILIATES", "AFFILIATE", "BATCH",
                  DeleteBatch(ids, count, emails.value))];
      return 200, count;
    } else {
      return 400, 0;
    }
  }
}
