/** `POST /api/admin/settings`: create, update and delete commission rules while
    keeping at most one rule flagged as the default. */
module Settings {
  import opened Common
  import opened Prisma

  /** The `ruleData` object of the request body; a key that is absent is `None`. */
  datatype RuleData = RuleData(
    id: Option<Id>,
    name: Option<string>,
    kind: Option<string>,
    value: Option<int>,
    conditions: Option<map<string, string>>,
    isDefault: Option<bool>,
    isActive: Option<bool>)

  /** The table state the route promises to keep: no two rules flagged as default. */
  predicate AtMostOneDefault(rules: seq<CommissionRule>) {
    forall i, j :: 0 <= i < |rules| && 0 <= j < |rules| && rules[i].isDefault && rules[j].isDefault ==> i == j
  }

  function RuleWithId(id: Id): CommissionRule -> bool {
    (r: CommissionRule) => r.id == id
  }

  /** `commissionRule.updateMany({ where: { isDefault: true [, id: { not: keep }] }, data: { isDefault: false } })`. */
  function ClearDefaults(rules: seq<CommissionRule>, keep: Option<Id>): (r: seq<CommissionRule>)
    ensures |r| == |rules|
    ensures forall i :: 0 <= i < |rules| ==>
              r[i] == if rules[i].isDefault && keep != Some(rules[i].id)
                      then rules[i].(isDefault := false) else rules[i]
    decreases |rules|
  {
    if rules == [] then []
    else
      var head := if rules[0].isDefault && keep != Some(rules[0].id)
                  then rules[0].(isDefault := false) else rules[0];
      [head] + ClearDefaults(rules[1..], keep)
  }

  /** After clearing, a default can only remain on a row with the kept id. */
  lemma ClearedDefaultsKeepOnly(rules: seq<CommissionRule>, keep: Option<Id>)
    ensures forall i :: 0 <= i < |rules| && ClearDefaults(rules, keep)[i].isDefault ==>
              keep == Some(rules[i].id) && rules[i].isDefault
    ensures forall i :: 0 <= i < |rules| ==> ClearDefaults(rules, keep)[i].id == rules[i].id
  {
  }

  // ---------------------------------------------------------------- create

  /** Lines 181-186: the fields `create` insists on. */
  predicate CreateValid(d: RuleData) {
    Truthy(d.name) && Truthy(d.kind) && d.value.Some?
  }

  /** Lines 196-205: `conditions || {}`, `isDefault || false`, and always active. */
  function NewRule(id: Id, d: RuleData): CommissionRule
    requires CreateValid(d)
  {
    CommissionRule(id, d.name.value, d.kind.value, d.value.value, d.conditions.GetOr(map[]),
                   d.isDefault.GetOr(false), true)
  }

  /** Lines 189-205: clear every default when the new rule is one, then append it. */
  function CreateRule(rules: seq<CommissionRule>, d: RuleData, id: Id): seq<CommissionRule>
    requires CreateValid(d)
  {
    (if IsTrue(d.isDefault) then ClearDefaults(rules, None) else rules) + [NewRule(id, d)]
  }

  /** Creating keeps at most one default; a rule created as default is then the only one,
      and a rule created otherwise leaves every existing row as it was. */
  lemma CreateKeepsOneDefault(rules: seq<CommissionRule>, d: RuleData, id: Id)
    requires CreateValid(d) && AtMostOneDefault(rules)
    ensures var r := CreateRule(rules, d, id);
            && |r| == |rules| + 1
            && r[|rules|] == NewRule(id, d)
            && AtMostOneDefault(r)
            && (IsTrue(d.isDefault) ==> forall i :: 0 <= i < |r| ==> (r[i].isDefault <==> i == |rules|))
            && (!IsTrue(d.isDefault) ==> r[..|rules|] == rules && !r[|rules|].isDefault)
  {
    var r := CreateRule(rules, d, id);
    ClearedDefaultsKeepOnly(rules, None);
    if IsTrue(d.isDefault) {
      assert forall i :: 0 <= i < |rules| ==> !r[i].isDefault by {
        assert forall i :: 0 <= i < |rules| ==> r[i] == ClearDefaults(rules, None)[i];
      }
    } else {
      assert r[..|rules|] == rules;
      assert d.isDefault.GetOr(false) == false;
    }
  }

  // ---------------------------------------------------------------- update

  /** `commissionRule.update({ data: updates })`: every field present in `updates` replaces the stored one. */
  function Patch(rule: CommissionRule, d: RuleData): CommissionRule {
    rule.(name := d.name.GetOr(rule.name),
          kind := d.kind.GetOr(rule.kind),
          value := d.value.GetOr(rule.value),
          conditions := d.conditions.GetOr(rule.conditions),
          isDefault := d.isDefault.GetOr(rule.isDefault),
          isActive := d.isActive.GetOr(rule.isActive))
  }

  /** What a handler leaves behind: the status, the rules table, and the rule it returns. */
  datatype Outcome = Outcome(status: int, rules: seq<CommissionRule>, rule: Option<CommissionRule>)

  /** Lines 226-239: clear the other defaults when the update sets one, then update the row;
      an unknown id makes `update` throw (500) after the clearing has been written. */
  function UpdateRule(rules: seq<CommissionRule>, id: Id, d: RuleData): Outcome {
    var cleared := if IsTrue(d.isDefault) then ClearDefaults(rules, Some(id)) else rules;
    match FirstIndex(cleared, RuleWithId(id))
    case None => Outcome(500, cleared, None)
    case Some(k) => Outcome(200, cleared[k := Patch(cleared[k], d)], Some(Patch(cleared[k], d)))
  }

  /** An update on a known id changes that row to the patched rule and, when it sets the
      default, clears the others, so "at most one default" holds afterwards; with the flag set
      the updated rule is the only default. */
  lemma UpdateKeepsOneDefault(rules: seq<CommissionRule>, id: Id, d: RuleData)
    requires UniqueRuleIds(rules) && AtMostOneDefault(rules)
    ensures var o := UpdateRule(rules, id, d);
            && |o.rules| == |rules|
            && AtMostOneDefault(o.rules)
            && (o.status == 200 <==> exists k :: 0 <= k < |rules| && rules[k].id == id)
            && (o.status == 200 && IsTrue(d.isDefault) ==>
                  forall i :: 0 <= i < |rules| ==> (o.rules[i].isDefault <==> rules[i].id == id))
            && (!IsTrue(d.isDefault) ==>
                  forall i :: 0 <= i < |rules| && rules[i].id != id ==> o.rules[i] == rules[i])
  {
    var cleared := if IsTrue(d.isDefault) then ClearDefaults(rules, Some(id)) else rules;
    ClearedDefaultsKeepOnly(rules, Some(id));
    assert forall i :: 0 <= i < |rules| ==> cleared[i].id == rules[i].id;
    var o := UpdateRule(rules, id, d);
    match FirstIndex(cleared, RuleWithId(id))
    case None =>
      assert forall k :: 0 <= k < |rules| ==> !RuleWithId(id)(cleared[k]);
      if IsTrue(d.isDefault) {
        assert forall i :: 0 <= i < |rules| ==> !o.rules[i].isDefault;
      }
    case Some(k) =>
      assert rules[k].id == id;
      if IsTrue(d.isDefault) {
        forall i | 0 <= i < |rules|
          ensures o.rules[i].isDefault <==> rules[i].id == id
        {
          if i != k {
            assert rules[i].id != id;
            assert !cleared[i].isDefault;
          }
        }
      } else {
        forall i, j | 0 <= i < |rules| && 0 <= j < |rules| && o.rules[i].isDefault && o.rules[j].isDefault
          ensures i == j
        {
          assert rules[i].isDefault && rules[j].isDefault;
        }
      }
  }

  // ---------------------------------------------------------------- delete

  /** Lines 259-261: `delete({ where: { id } })` removes the row, or throws (500) on an unknown id. */
  function DeleteRule(rules: seq<CommissionRule>, id: Id): Outcome {
    match FirstIndex(rules, RuleWithId(id))
    case None => Outcome(500, rules, None)
    case Some(k) => Outcome(200, rules[..k] + rules[k + 1..], None)
  }

  function Keeps(id: Id): CommissionRule -> bool {
    (r: CommissionRule) => r.id != id
  }

  /** Deleting removes exactly the rule with that id and keeps every other row, in order;
      it fails (500) exactly when no rule has that id. */
  lemma DeleteRemovesExactly(rules: seq<CommissionRule>, id: Id)
    requires UniqueRuleIds(rules)
    ensures var o := DeleteRule(rules, id);
            && o.rules == Filter(rules, Keeps(id))
            && (o.status == 200 <==> exists k :: 0 <= k < |rules| && rules[k].id == id)
  {
    match FirstIndex(rules, RuleWithId(id))
    case None =>
      FilterKeepsAll(rules, Keeps(id));
    case Some(k) =>
      FilterDropsOne(rules, Keeps(id), k);
  }

  /** Removing a row never creates a second default. */
  lemma DeleteKeepsOneDefault(rules: seq<CommissionRule>, id: Id)
    requires AtMostOneDefault(rules)
    ensures AtMostOneDefault(DeleteRule(rules, id).rules)
  {
    var o := DeleteRule(rules, id);
    match FirstIndex(rules, RuleWithId(id))
    case None =>
    case Some(k) =>
      forall i, j | 0 <= i < |o.rules| && 0 <= j < |o.rules| && o.rules[i].isDefault && o.rules[j].isDefault
        ensures i == j
      {
        var i' := if i < k then i else i + 1;
        var j' := if j < k then j else j + 1;
        assert o.rules[i] == rules[i'] && o.rules[j] == rules[j'];
      }
  }

  // ---------------------------------------------------------------- the handler

  /** The POST handler. `action` is `None` when absent; a missing `ruleData` makes the
      destructuring throw (500) for the three known actions. */
  method Post(db: Db, token: Token, action: Option<string>, ruleData: Option<RuleData>, newId: Id)
    returns (status: int, rule: Option<CommissionRule>)
    modifies db`commissionRules
    ensures AdminGate(old(db.users), token).Some? ==>
              status == AdminGate(old(db.users), token).value && db.commissionRules == old(db.commissionRules)
    ensures status != 200 && status != 500 ==> db.commissionRules == old(db.commissionRules) && rule.None?
    ensures AdminGate(old(db.users), token).None? ==>
              if action == Some("create") then
                if ruleData.None? then status == 500 && db.commissionRules == old(db.commissionRules)
                else if !CreateValid(ruleData.value) then status == 400
                else status == 200 && rule == Some(NewRule(newId, ruleData.value))
                     && db.commissionRules == CreateRule(old(db.commissionRules), ruleData.value, newId)
              else if action == Some("update") then
                if ruleData.None? then status == 500 && db.commissionRules == old(db.commissionRules)
                else if !Truthy(ruleData.value.id) then status == 400
                else var o := UpdateRule(old(db.commissionRules), ruleData.value.id.value, ruleData.value);
                     status == o.status && db.commissionRules == o.rules && rule == o.rule
              else if action == Some("delete") then
                if ruleData.None? then status == 500 && db.commissionRules == old(db.commissionRules)
                else if !Truthy(ruleData.value.id) then status == 400
                else var o := DeleteRule(old(db.commissionRules), ruleData.value.id.value);
                     status == o.status && db.commissionRules == o.rules && rule.None?
              else status == 400
    ensures UniqueRuleIds(old(db.commissionRules)) && AtMostOneDefault(old(db.commissionRules)) ==>
              AtMostOneDefault(db.commissionRules)
  {
    var gate := AdminGate(db.users, token);
    if gate.Some? {
      return gate.value, None;
    }
    if action == Some("create") {
      if ruleData.None? {
        return 500, None;
      }
      var d := ruleData.value;
      if !Truthy(d.name) || !Truthy(d.kind) || d.value.None? {
        return 400, None;
      }
      if IsTrue(d.isDefault) {
        db.commissionRules := ClearDefaults(db.commissionRules, None);
      }
      var created := NewRule(newId, d);
      db.commissionRules := db.commissionRules + [created];
      if AtMostOneDefault(old(db.commissionRules)) {
        CreateKeepsOneDefault(old(db.commissionRules), d, newId);
      }
      return 200, Some(created);
    }
    if action == Some("update") {
      if ruleData.None? {
        return 500, None;
      }
      var d := ruleData.value;
      if !Truthy(d.id) {
        return 400, None;
      }
      var id := d.id.value;
      if IsTrue(d.isDefault) {
        db.commissionRules := ClearDefaults(db.commissionRules, Some(id));
      }
      var row := FirstIndex(db.commissionRules, RuleWithId(id));
      if row.None? {
        status, rule := 500, None;
      } else {
        var updated := Patch(db.commissionRules[row.value], d);
        db.commissionRules := db.commissionRules[row.value := updated];
        status, rule := 200, Some(updated);
      }
      if UniqueRuleIds(old(db.commissionRules)) && AtMostOneDefault(old(db.commissionRules)) {
        UpdateKeepsOneDefault(old(db.commissionRules), id, d);
      }
      return;
    }
    if action == Some("delete") {
      if ruleData.None? {
        return 500, None;
      }
      var d := ruleData.value;
      if !Truthy(d.id) {
        return 400, None;
      }
      var id := d.id.value;
      var row := FirstIndex(db.commissionRules, RuleWithId(id));
      if row.None? {
        return 500, None;
      }
      db.commissionRules := db.commissionRules[..row.value] + db.commissionRules[row.value + 1..];
      if AtMostOneDefault(old(db.commissionRules)) {
        DeleteKeepsOneDefault(old(db.commissionRules), id);
      }
      return 200, None;
    }
    return 400, None;
  }
}
