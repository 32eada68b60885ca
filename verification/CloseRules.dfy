/**
 The close-rule state machine of backend/async_persistence.py: trigger, deactivate and recover,
 issued by any number of evaluators. Each UPDATE is one atomic step; `now` is its clock, in
 seconds.
 */
module CloseRules {
  import opened Common

  type RuleId = string

  datatype Status = Active | Paused | Triggered | Executed | Expired
  datatype Rule = Rule(accountId: string, triggerType: string, status: Status, triggeredAt: Option<real>)
  type Table = map<RuleId, Rule>

  datatype Operation =
    | Trigger(now: real, id: RuleId)
    | Deactivate(now: real, account: string, exclude: Option<RuleId>)
    | Recover(now: real, maxAge: real)

  predicate Protected(r: Rule) {
    r.triggerType == "PAUSE_TRADING" || r.triggerType == "TRAILING_PROFIT"
  }

  /** What one operation does to one rule. */
  function Update(op: Operation, id: RuleId, r: Rule): Rule {
    match op
    case Trigger(now, target) =>
      if id == target && r.status == Active then r.(status := Triggered, triggeredAt := Some(now)) else r
    case Deactivate(_, account, exclude) =>
      if r.accountId == account && exclude != Some(id)
         && (r.status == Active || r.status == Paused || r.status == Triggered) && !Protected(r)
      then r.(status := Expired) else r
    case Recover(now, maxAge) =>
      if r.status == Triggered && r.triggeredAt.Some? && r.triggeredAt.value < now - maxAge
      then r.(status := Active, triggeredAt := None) else r
  }

  function Apply(table: Table, op: Operation): Table {
    map id | id in table :: Update(op, id, table[id])
  }

  function Before(table: Table, ops: seq<Operation>, n: nat): Table
    requires n <= |ops|
  {
    if n == 0 then table else Apply(Before(table, ops, n - 1), ops[n - 1])
  }

  /** Operation `n` triggers the rule. */
  predicate Fires(table: Table, ops: seq<Operation>, id: RuleId, n: nat)
    requires n < |ops|
  {
    ops[n].Trigger? && ops[n].id == id && id in Before(table, ops, n) && Before(table, ops, n)[id].status == Active
  }

  /** Operation `n` takes the rule back from triggered to active. */
  predicate Recovers(table: Table, ops: seq<Operation>, id: RuleId, n: nat)
    requires n < |ops|
  {
    && ops[n].Recover? && id in Before(table, ops, n)
    && Update(ops[n], id, Before(table, ops, n)[id]) != Before(table, ops, n)[id]
  }

  function Firings(table: Table, ops: seq<Operation>, id: RuleId, n: nat): nat
    requires n <= |ops|
  {
    if n == 0 then 0 else Firings(table, ops, id, n - 1) + if Fires(table, ops, id, n - 1) then 1 else 0
  }

  function Recoveries(table: Table, ops: seq<Operation>, id: RuleId, n: nat): nat
    requires n <= |ops|
  {
    if n == 0 then 0 else Recoveries(table, ops, id, n - 1) + if Recovers(table, ops, id, n - 1) then 1 else 0
  }

  lemma {:induction false} RulesRemain(table: Table, ops: seq<Operation>, n: nat)
    requires n <= |ops|
    ensures Before(table, ops, n).Keys == table.Keys
  {
    if n > 0 {
      RulesRemain(table, ops, n - 1);
    }
  }

  lemma BeforeSteps(table: Table, ops: seq<Operation>, id: RuleId, n: nat)
    requires 0 < n <= |ops| && id in Before(table, ops, n - 1)
    ensures id in Before(table, ops, n)
    ensures Before(table, ops, n)[id] == Update(ops[n - 1], id, Before(table, ops, n - 1)[id])
  {
    hide Update;
  }

  /** A rule that is triggered when the run starts counts as fired once. */
  function Debt(table: Table, id: RuleId): nat {
    if id in table && table[id].status == Triggered then 1 else 0
  }

  /** The books of a rule: while it is active or paused every firing has been recovered; while
      it is triggered one has not. */
  lemma {:induction false} FiringsMatchRecoveries(table: Table, ops: seq<Operation>, id: RuleId, n: nat)
    requires n <= |ops| && id in table
    ensures id in Before(table, ops, n)
    ensures var (f, c) := (Debt(table, id) + Firings(table, ops, id, n), Recoveries(table, ops, id, n));
            var r := Before(table, ops, n)[id];
            && c <= f <= c + 1
            && (r.status == Active || r.status == Paused || r.status == Executed ==> f == c)
            && (r.status == Triggered ==> f == c + 1)
  {
    hide Apply;
    if n > 0 {
      FiringsMatchRecoveries(table, ops, id, n - 1);
      hide Before;
      BeforeSteps(table, ops, id, n);
    }
  }

  /** Over every run a rule fires at most once more than it is recovered. */
  lemma FiringsAtMostOneMore(table: Table, ops: seq<Operation>, id: RuleId, n: nat)
    requires n <= |ops| && id in table
    ensures Firings(table, ops, id, n) <= Recoveries(table, ops, id, n) + 1
  {
    FiringsMatchRecoveries(table, ops, id, n);
  }

  ghost predicate ClockRuns(ops: seq<Operation>) {
    forall i, j :: 0 <= i <= j < |ops| ==> ops[i].now <= ops[j].now
  }

  /** After a firing the rule is triggered with a stamp of that moment or later, or spent, or was
      recovered and so the limit has passed. */
  lemma {:induction false} AfterFiring(table: Table, ops: seq<Operation>, id: RuleId, i: nat, j: nat, maxAge: real)
    requires i < j <= |ops| && ClockRuns(ops) && Fires(table, ops, id, i)
    requires forall k :: 0 <= k < |ops| && ops[k].Recover? ==> ops[k].maxAge >= maxAge
    ensures id in Before(table, ops, j)
    ensures var r := Before(table, ops, j)[id];
            || r.status == Expired
            || (r.status == Triggered && r.triggeredAt.Some? && r.triggeredAt.value >= ops[i].now)
            || ops[j - 1].now > ops[i].now + maxAge
    decreases j
  {
    hide Apply, Before;
    BeforeSteps(table, ops, id, i + 1);
    if i + 1 < j {
      AfterFiring(table, ops, id, i, j - 1, maxAge);
      BeforeSteps(table, ops, id, j);
      assert ops[j - 2].now <= ops[j - 1].now;
    }
  }

  /** Over every run, two firings of one rule are more than the recovery age apart. */
  lemma FiringsAreApart(table: Table, ops: seq<Operation>, id: RuleId, i: nat, j: nat, maxAge: real)
    requires i < j < |ops| && ClockRuns(ops)
    requires forall k :: 0 <= k < |ops| && ops[k].Recover? ==> ops[k].maxAge >= maxAge
    requires Fires(table, ops, id, i) && Fires(table, ops, id, j)
    ensures ops[j].now - ops[i].now > maxAge
  {
    AfterFiring(table, ops, id, i, j, maxAge);
    assert ops[j - 1].now <= ops[j].now;
  }

  /** An expired rule stays expired; a rule that protects trading never becomes expired; identity,
      account and type never change. */
  lemma {:induction false} ExpiryIsFinal(table: Table, ops: seq<Operation>, id: RuleId, m: nat, n: nat)
    requires m <= n <= |ops| && id in table
    ensures id in Before(table, ops, m) && id in Before(table, ops, n)
    ensures var (r, r') := (Before(table, ops, m)[id], Before(table, ops, n)[id]);
            && r'.accountId == r.accountId && r'.triggerType == r.triggerType
            && (r.status == Expired ==> r' == r)
            && (Protected(r) && r.status != Expired ==> r'.status != Expired)
    decreases n
  {
    hide Apply, Update;
    RulesRemain(table, ops, m);
    RulesRemain(table, ops, n);
    if m < n {
      ExpiryIsFinal(table, ops, id, m, n - 1);
      UpdateKeepsExpiry(Before(table, ops, n - 1), ops[n - 1], id);
    }
  }

  lemma UpdateKeepsExpiry(table: Table, op: Operation, id: RuleId)
    requires id in table
    ensures id in Apply(table, op)
    ensures var (r, r') := (table[id], Apply(table, op)[id]);
            && r'.accountId == r.accountId && r'.triggerType == r.triggerType
            && (r.status == Expired ==> r' == r)
            && (Protected(r) && r.status != Expired ==> r'.status != Expired)
  {
  }

  // ---------------------------------------------------------------------------------
  // The whole row from the history of the operations
  // ---------------------------------------------------------------------------------

  /** A deactivation whose WHERE clause fits the rule in all but its status. */
  predicate Aims(op: Operation, id: RuleId, r: Rule) {
    && op.Deactivate? && op.account == r.accountId && op.exclude != Some(id)
    && r.triggerType !in {"PAUSE_TRADING", "TRAILING_PROFIT"}
  }

  /** Over every run a rule is expired exactly if it was when the run began, or it was not yet executed
      and some deactivation aimed at it: of its own account, not excluding it, and it does not protect
      trading. No trigger, recovery or other account's deactivation expires it. */
  lemma {:induction false} ExpiredExactlyByDeactivation(table: Table, ops: seq<Operation>, id: RuleId, n: nat)
    requires n <= |ops| && id in table
    ensures id in Before(table, ops, n)
    ensures Before(table, ops, n)[id].status == Expired
            <==> || table[id].status == Expired
                 || (table[id].status != Executed && exists k :: 0 <= k < n && Aims(ops[k], id, table[id]))
    ensures Before(table, ops, n)[id].status == Executed <==> table[id].status == Executed
    ensures Before(table, ops, n)[id].accountId == table[id].accountId
    ensures Before(table, ops, n)[id].triggerType == table[id].triggerType
  {
    hide Apply;
    if n > 0 {
      ExpiredExactlyByDeactivation(table, ops, id, n - 1);
      hide Before;
      BeforeSteps(table, ops, id, n);
      if Before(table, ops, n)[id].status == Expired && Before(table, ops, n - 1)[id].status != Expired {
        assert Aims(ops[n - 1], id, table[id]);
      }
    }
  }

  /** Operation `k` fires the rule, and no later one before `n` recovers it: none comes more than its
      age after the firing. */
  predicate HoldsFrom(ops: seq<Operation>, id: RuleId, k: nat, n: nat)
    requires k < n <= |ops|
  {
    && ops[k].Trigger? && ops[k].id == id
    && forall j :: k < j < n && ops[j].Recover? ==> ops[j].now - ops[j].maxAge <= ops[k].now
  }

  /** Some attempt before `n` found the rule active and holds it triggered, with its time as the stamp. */
  ghost predicate FiredLast(table: Table, ops: seq<Operation>, id: RuleId, n: nat, stamp: Option<real>)
    requires n <= |ops|
  {
    exists k :: 0 <= k < n && Fires(table, ops, id, k) && HoldsFrom(ops, id, k, n) && stamp == Some(ops[k].now)
  }

  /** Over every run of a rule that starts active and is never aimed at: it is triggered exactly if some
      attempt to trigger it found it active and no recovery since came more than its age later; its
      stamp is then the time of every such attempt. Otherwise it is active. */
  lemma {:induction false} TriggeredExactlyByLastFiring(table: Table, ops: seq<Operation>, id: RuleId, n: nat)
    requires n <= |ops| && id in table && table[id].status == Active
    requires forall k :: 0 <= k < n ==> !Aims(ops[k], id, table[id])
    ensures id in Before(table, ops, n)
    ensures var r := Before(table, ops, n)[id];
            && (r.status == Triggered <==> FiredLast(table, ops, id, n, r.triggeredAt))
            && (r.status != Triggered ==> r.status == Active)
            && (forall k :: 0 <= k < n && Fires(table, ops, id, k) && HoldsFrom(ops, id, k, n) ==>
                  r.triggeredAt == Some(ops[k].now))
  {
    hide Apply, Before, Update;
    RulesRemain(table, ops, n);
    NothingBefore(table, ops);
    if n > 0 {
      TriggeredExactlyByLastFiring(table, ops, id, n - 1);
      ExpiredExactlyByDeactivation(table, ops, id, n - 1);
      BeforeSteps(table, ops, id, n);
      var (r, r') := (Before(table, ops, n - 1)[id], Before(table, ops, n)[id]);
      OneMoreAttempt(ops[n - 1], id, r);
      assert forall k :: 0 <= k < n - 1 && HoldsFrom(ops, id, k, n) ==> HoldsFrom(ops, id, k, n - 1);
      if r.status == Triggered {
        var k :| 0 <= k < n - 1 && Fires(table, ops, id, k) && HoldsFrom(ops, id, k, n - 1)
                 && r.triggeredAt == Some(ops[k].now);
        assert r' == r ==> HoldsFrom(ops, id, k, n);
      } else if r' != r {
        assert HoldsFrom(ops, id, n - 1, n);
      }
    }
  }

  lemma NothingBefore(table: Table, ops: seq<Operation>)
    ensures Before(table, ops, 0) == table
  {
  }

  /** One operation that does not aim at an active or triggered rule. */
  lemma OneMoreAttempt(op: Operation, id: RuleId, r: Rule)
    requires !Aims(op, id, r) && (r.status == Active || (r.status == Triggered && r.triggeredAt.Some?))
    ensures var r' := Update(op, id, r);
            if r.status == Active then
              r' == if op.Trigger? && op.id == id then r.(status := Triggered, triggeredAt := Some(op.now)) else r
            else
              r' == if op.Recover? && op.now - op.maxAge > r.triggeredAt.value
                    then r.(status := Active, triggeredAt := None) else r
  {
  }

  lemma DeactivatedIsApplied(table: Table, after: Table, now: real, account: string, exclude: Option<RuleId>)
    requires after.Keys == table.Keys
    requires forall id :: id in after ==> after[id] == Update(Deactivate(now, account, exclude), id, table[id])
    ensures after == Apply(table, Deactivate(now, account, exclude))
  {
    hide Update;
  }

  // ---------------------------------------------------------------------------------
  // The methods of the source
  // ---------------------------------------------------------------------------------

  class RuleStore {
    var rules: Table

    constructor (rules: Table)
      ensures this.rules == rules
    {
      this.rules := rules;
    }

    method AtomicTriggerRule(id: RuleId, now: real) returns (triggered: bool)
      modifies this
      ensures triggered <==> id in old(rules) && old(rules)[id].status == Active
      ensures rules == if triggered
                       then var r := old(rules)[id];
                            old(rules)[id := Rule(r.accountId, r.triggerType, Triggered, Some(now))]
                       else old(rules)
      ensures rules == Apply(old(rules), Trigger(now, id))
    {
      triggered := id in rules && rules[id].status == Active;
      if triggered {
        rules := rules[id := rules[id].(status := Triggered, triggeredAt := Some(now))];
      }
    }

    /** The count is the number of rows the UPDATE matched. */
    method DeactivateRulesForAccount(account: string, exclude: Option<RuleId>, now: real) returns (count: nat)
      modifies this
      ensures rules.Keys == old(rules).Keys
      ensures forall id :: id in rules ==>
                var r := old(rules)[id];
                rules[id] == if r.accountId != account || exclude == Some(id)
                                || r.triggerType in {"PAUSE_TRADING", "TRAILING_PROFIT"}
                                || r.status == Executed || r.status == Expired
                             then r else Rule(account, r.triggerType, Expired, r.triggeredAt)
      ensures count == |set id | id in old(rules) && rules[id] != old(rules)[id]|
      ensures rules == Apply(old(rules), Deactivate(now, account, exclude))
    {
      hide Apply;
      var matching := set id | id in rules && rules[id].accountId == account && exclude != Some(id)
                               && (rules[id].status == Active || rules[id].status == Paused
                                   || rules[id].status == Triggered)
                               && !Protected(rules[id]);
      count := |matching|;
      rules := map id | id in rules :: if id in matching then rules[id].(status := Expired) else rules[id];
      DeactivatedIsApplied(old(rules), rules, now, account, exclude);
      assert matching == set id | id in old(rules) && rules[id] != old(rules)[id];
    }

    method RecoverStuckTriggeredRules(maxAge: real, now: real) returns (count: nat)
      modifies this
      ensures rules.Keys == old(rules).Keys
      ensures forall id :: id in rules ==>
                var r := old(rules)[id];
                rules[id] == if r.status == Triggered && r.triggeredAt.Some? && now - r.triggeredAt.value > maxAge
                             then Rule(r.accountId, r.triggerType, Active, None) else r
      ensures count == |set id | id in old(rules) && rules[id] != old(rules)[id]|
      ensures rules == Apply(old(rules), Recover(now, maxAge))
    {
      var matching := set id | id in rules && rules[id].status == Triggered
                               && rules[id].triggeredAt.Some? && rules[id].triggeredAt.value < now - maxAge;
      count := |matching|;
      rules := map id | id in rules ::
                 if id in matching then rules[id].(status := Active, triggeredAt := None) else rules[id];
      assert matching == set id | id in old(rules) && rules[id] != old(rules)[id];
    }
  }
}
