/**
 * Threshold rule tables.
 *
 * The risk engine (backend.py:138-165), the recommendation generator
 * (backend.py:182-199) and the student dashboard (app.py:209-227) each run
 * nine `if` statements in a fixed order. Every test is a strict `<`
 * comparison against a constant or an `== 0` test, and every `if` that fires
 * appends one entry to a list. A table of `Rule`s says the same thing
 * declaratively, and `Triggered` is the list such an `if` chain builds.
 */
module Rules {
  import opened Metrics

  /** `field < bound`, or `field == 0`. */
  datatype Condition = Below(field: Field, bound: real) | IsZero(field: Field)

  predicate Holds(c: Condition, m: MetricVector)
  {
    match c
    case Below(f, bound) => Value(m, f) < bound
    case IsZero(f) => Value(m, f) == 0.0
  }

  /** A condition and what its `if` contributes when the condition holds. */
  datatype Rule<A> = Rule(cond: Condition, action: A)

  /** What one rule appends: its action if its condition holds, else nothing. */
  function Fire<A>(r: Rule<A>, m: MetricVector): seq<A>
  {
    if Holds(r.cond, m) then [r.action] else []
  }

  /**
   * The actions of the rules whose condition holds, in table order: the list
   * that the `if` chain builds by appending, one rule after the other.
   */
  function Triggered<A>(rules: seq<Rule<A>>, m: MetricVector): (fired: seq<A>)
    ensures |fired| <= |rules|
  {
    if rules == [] then []
    else Triggered(rules[..|rules| - 1], m) + Fire(rules[|rules| - 1], m)
  }

  /** The table positions of the rules whose condition holds. */
  function FiredIndices<A>(rules: seq<Rule<A>>, m: MetricVector): seq<nat>
  {
    if rules == [] then []
    else
      FiredIndices(rules[..|rules| - 1], m)
      + (if Holds(rules[|rules| - 1].cond, m) then [|rules| - 1] else [])
  }

  /** Running one more `if` of the chain appends what that rule fires. */
  lemma TriggeredStep<A>(rules: seq<Rule<A>>, k: nat, m: MetricVector)
    requires k < |rules|
    ensures Triggered(rules[..k + 1], m) == Triggered(rules[..k], m) + Fire(rules[k], m)
  {
    assert rules[..k + 1][..k] == rules[..k];
  }

  /** One more rule at the end of a table appends what that rule fires. */
  lemma TriggeredSnoc<A>(rules: seq<Rule<A>>, r: Rule<A>, m: MetricVector)
    ensures Triggered(rules + [r], m) == Triggered(rules, m) + Fire(r, m)
  {
    assert (rules + [r])[..|rules|] == rules;
  }

  /** A nine-rule chain, written out: what each `if` appends, in order. */
  lemma TriggeredNine<A>(r0: Rule<A>, r1: Rule<A>, r2: Rule<A>, r3: Rule<A>, r4: Rule<A>,
                         r5: Rule<A>, r6: Rule<A>, r7: Rule<A>, r8: Rule<A>, m: MetricVector)
    ensures Triggered([r0, r1, r2, r3, r4, r5, r6, r7, r8], m)
      == Fire(r0, m) + Fire(r1, m) + Fire(r2, m) + Fire(r3, m) + Fire(r4, m)
      + Fire(r5, m) + Fire(r6, m) + Fire(r7, m) + Fire(r8, m)
  {
    TriggeredSnoc([], r0, m);
    assert [] + [r0] == [r0];
    assert Triggered([r0], m) == Fire(r0, m);
    TriggeredSnoc([r0], r1, m);
    assert [r0] + [r1] == [r0, r1];
    assert Triggered([r0, r1], m) == Fire(r0, m) + Fire(r1, m);
    TriggeredSnoc([r0, r1], r2, m);
    assert [r0, r1] + [r2] == [r0, r1, r2];
    assert Triggered([r0, r1, r2], m) == Fire(r0, m) + Fire(r1, m) + Fire(r2, m);
    TriggeredSnoc([r0, r1, r2], r3, m);
    assert [r0, r1, r2] + [r3] == [r0, r1, r2, r3];
    assert Triggered([r0, r1, r2, r3], m) == Fire(r0, m) + Fire(r1, m) + Fire(r2, m) + Fire(r3, m);
    TriggeredSnoc([r0, r1, r2, r3], r4, m);
    assert [r0, r1, r2, r3] + [r4] == [r0, r1, r2, r3, r4];
    assert Triggered([r0, r1, r2, r3, r4], m) == Fire(r0, m) + Fire(r1, m) + Fire(r2, m) + Fire(r3, m) + Fire(r4, m);
    TriggeredSnoc([r0, r1, r2, r3, r4], r5, m);
    assert [r0, r1, r2, r3, r4] + [r5] == [r0, r1, r2, r3, r4, r5];
    assert Triggered([r0, r1, r2, r3, r4, r5], m) == Fire(r0, m) + Fire(r1, m) + Fire(r2, m) + Fire(r3, m) + Fire(r4, m) + Fire(r5, m);
    TriggeredSnoc([r0, r1, r2, r3, r4, r5], r6, m);
    assert [r0, r1, r2, r3, r4, r5] + [r6] == [r0, r1, r2, r3, r4, r5, r6];
    assert Triggered([r0, r1, r2, r3, r4, r5, r6], m) == Fire(r0, m) + Fire(r1, m) + Fire(r2, m) + Fire(r3, m) + Fire(r4, m) + Fire(r5, m) + Fire(r6, m);
    TriggeredSnoc([r0, r1, r2, r3, r4, r5, r6], r7, m);
    assert [r0, r1, r2, r3, r4, r5, r6] + [r7] == [r0, r1, r2, r3, r4, r5, r6, r7];
    assert Triggered([r0, r1, r2, r3, r4, r5, r6, r7], m) == Fire(r0, m) + Fire(r1, m) + Fire(r2, m) + Fire(r3, m) + Fire(r4, m) + Fire(r5, m) + Fire(r6, m) + Fire(r7, m);
    TriggeredSnoc([r0, r1, r2, r3, r4, r5, r6, r7], r8, m);
    assert [r0, r1, r2, r3, r4, r5, r6, r7] + [r8] == [r0, r1, r2, r3, r4, r5, r6, r7, r8];
    assert Triggered([r0, r1, r2, r3, r4, r5, r6, r7, r8], m) == Fire(r0, m) + Fire(r1, m) + Fire(r2, m) + Fire(r3, m) + Fire(r4, m) + Fire(r5, m) + Fire(r6, m) + Fire(r7, m) + Fire(r8, m);
  }

  /**
   * The full characterisation of `Triggered`: a rule contributes iff its
   * condition holds, each firing rule contributes exactly one entry, and the
   * entries appear in table order.
   */
  lemma {:induction false} TriggeredInOrder<A>(rules: seq<Rule<A>>, m: MetricVector)
    ensures var idx := FiredIndices(rules, m);
      && |idx| == |Triggered(rules, m)|
      && (forall k :: 0 <= k < |idx| ==> idx[k] < |rules| && Triggered(rules, m)[k] == rules[idx[k]].action)
      && (forall k, l :: 0 <= k < l < |idx| ==> idx[k] < idx[l])
      && (forall i :: 0 <= i < |rules| ==> (i in idx <==> Holds(rules[i].cond, m)))
  {
    if rules != [] {
      var n := |rules| - 1;
      var front := rules[..n];
      TriggeredInOrder(front, m);
      var idx, idx' := FiredIndices(front, m), FiredIndices(rules, m);
      assert forall k :: 0 <= k < |idx| ==> idx[k] < n;
      assert forall i :: 0 <= i < n ==> rules[i] == front[i];
      if Holds(rules[n].cond, m) {
        assert idx' == idx + [n];
      } else {
        assert idx' == idx;
      }
    }
  }

  /** No entry at all iff no condition holds. */
  lemma TriggeredEmpty<A>(rules: seq<Rule<A>>, m: MetricVector)
    ensures Triggered(rules, m) == [] <==> forall i :: 0 <= i < |rules| ==> !Holds(rules[i].cond, m)
  {
    TriggeredInOrder(rules, m);
    var idx := FiredIndices(rules, m);
    if Triggered(rules, m) != [] {
      assert idx[0] in idx;
    }
  }

  /** Every emitted entry is the action of some rule whose condition holds. */
  lemma TriggeredSource<A>(rules: seq<Rule<A>>, m: MetricVector, a: A)
    requires a in Triggered(rules, m)
    ensures exists i :: 0 <= i < |rules| && rules[i].action == a && Holds(rules[i].cond, m)
  {
    TriggeredInOrder(rules, m);
    var k :| 0 <= k < |Triggered(rules, m)| && Triggered(rules, m)[k] == a;
    var i := FiredIndices(rules, m)[k];
    assert i in FiredIndices(rules, m);
  }

  /** Two tables with the same conditions, position by position, fire at the same positions. */
  lemma {:induction false} SameConditionsSameFiring<A, B>(r1: seq<Rule<A>>, r2: seq<Rule<B>>, m: MetricVector)
    requires |r1| == |r2|
    requires forall i :: 0 <= i < |r1| ==> r1[i].cond == r2[i].cond
    ensures FiredIndices(r1, m) == FiredIndices(r2, m)
    ensures |Triggered(r1, m)| == |Triggered(r2, m)|
  {
    TriggeredInOrder(r1, m);
    TriggeredInOrder(r2, m);
    if r1 != [] {
      var n := |r1| - 1;
      SameConditionsSameFiring(r1[..n], r2[..n], m);
    }
  }

  /**
   * One `if` of such a chain: when the rule's condition holds, append its
   * action to the list built so far.
   */
  method ApplyRule<A>(r: Rule<A>, m: MetricVector, acc: seq<A>) returns (acc': seq<A>)
    ensures acc' == acc + Fire(r, m)
  {
    acc' := acc;
    if Holds(r.cond, m) {
      acc' := acc' + [r.action];
    }
  }
}
