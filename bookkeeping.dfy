/** The optimizer's two bookkeeping structures as values: the fired-rule table
    (for each expression, the rules already applied to it) and the set of
    groups already explored. Both only ever grow. */
module Bookkeeping {
  import opened Ids

  /** `fired_rules: HashMap<ExprId, HashSet<RuleId>>`. */
  type FiredRules = map<ExprId, set<RuleId>>

  /** `is_rule_fired`: look the expression up and test membership; an
      expression with no entry has fired nothing. */
  predicate RuleFired(fired: FiredRules, e: ExprId, r: RuleId)
    ensures RuleFired(fired, e, r) ==> e in fired
  {
    if e in fired then r in fired[e] else false
  }

  /** Every (expression, rule) pair the table records. */
  ghost function FiredPairs(fired: FiredRules): set<(ExprId, RuleId)> {
    set e, r | e in fired && r in fired[e] :: (e, r)
  }

  /** The table `after` records every pair `before` records (and maybe more). */
  ghost predicate TableGrows(before: FiredRules, after: FiredRules) {
    forall e: ExprId, r: RuleId :: RuleFired(before, e, r) ==> RuleFired(after, e, r)
  }

  /** `mark_rule_fired`: `entry(e).or_default().insert(r)`. */
  function WithRuleFired(fired: FiredRules, e: ExprId, r: RuleId): (fired': FiredRules)
    ensures RuleFired(fired', e, r)
    ensures forall e', r' :: e' != e || r' != r ==> RuleFired(fired', e', r') == RuleFired(fired, e', r')
    ensures FiredPairs(fired') == FiredPairs(fired) + {(e, r)}
    ensures fired'.Keys == fired.Keys + {e}
    ensures RuleFired(fired, e, r) ==> fired' == fired
  {
    var rules := if e in fired then fired[e] else {};
    var fired' := fired[e := rules + {r}];
    assert RuleFired(fired, e, r) ==> rules + {r} == fired[e];
    assert FiredPairs(fired') == FiredPairs(fired) + {(e, r)} by {
      forall p | p in FiredPairs(fired')
        ensures p in FiredPairs(fired) + {(e, r)}
      {
        var (e', r') := p;
        if e' != e { assert p in FiredPairs(fired); }
        else if r' != r { assert p in FiredPairs(fired); }
      }
      forall p | p in FiredPairs(fired) + {(e, r)}
        ensures p in FiredPairs(fired')
      {
        var (e', r') := p;
        assert RuleFired(fired', e', r');
      }
    }
    fired'
  }

  /** `mark_group_explored`: insert into the explored set. */
  function WithGroupExplored(explored: set<GroupId>, g: GroupId): (explored': set<GroupId>)
    ensures g in explored'
    ensures forall h :: h != g ==> (h in explored' <==> h in explored)
    ensures g in explored ==> explored' == explored
  {
    explored + {g}
  }

  /** The explored set after marking each group of `gs` in turn. */
  function WithAllExplored(explored: set<GroupId>, gs: seq<GroupId>): (explored': set<GroupId>)
    ensures forall g :: g in explored' <==> g in explored || g in gs
  {
    if gs == [] then explored
    else WithGroupExplored(WithAllExplored(explored, gs[..|gs| - 1]), gs[|gs| - 1])
  }

  /** The table after marking each pair of `ps` in turn. */
  function WithAllFired(fired: FiredRules, ps: seq<(ExprId, RuleId)>): (fired': FiredRules)
    ensures forall e: ExprId, r: RuleId :: RuleFired(fired', e, r) <==> RuleFired(fired, e, r) || (e, r) in ps
  {
    if ps == [] then fired
    else WithRuleFired(WithAllFired(fired, ps[..|ps| - 1]), ps[|ps| - 1].0, ps[|ps| - 1].1)
  }

  /** Marking pairs in turn records exactly those pairs on top of the old ones. */
  lemma {:induction false} WithAllFiredPairs(fired: FiredRules, ps: seq<(ExprId, RuleId)>)
    ensures FiredPairs(WithAllFired(fired, ps)) == FiredPairs(fired) + (set p | p in ps)
  {
    if ps != [] {
      var init := ps[..|ps| - 1];
      WithAllFiredPairs(fired, init);
      assert (set p | p in ps) == (set p | p in init) + {ps[|ps| - 1]} by {
        assert ps == init + [ps[|ps| - 1]];
      }
    }
  }

  /** Growth composes across successive rounds of marking. */
  lemma TableGrowsTransitive(a: FiredRules, b: FiredRules, c: FiredRules)
    requires TableGrows(a, b) && TableGrows(b, c)
    ensures TableGrows(a, c)
  {
  }
}
