/**
 Classification by an ordered table of mask/pattern rules: a byte `b`
 belongs to a rule when `b & mask == pattern`, and a chain of guarded match
 arms returns the form of the first rule that accepts the byte.  When at most
 one rule accepts each byte, the order of the rules does not matter.
 */
module MaskRules {
  import opened Results

  /** One guarded arm of a classifier. */
  datatype Rule<T> = Rule(mask: bv8, pattern: bv8, form: T)

  predicate Matches<T>(rule: Rule<T>, b: bv8) {
    b & rule.mask == rule.pattern
  }

  /** The form of the first rule that accepts `b`, or None if none does. */
  function FirstMatch<T>(rules: seq<Rule<T>>, b: bv8): Option<T> {
    if |rules| == 0 then None
    else if Matches(rules[0], b) then Some(rules[0].form)
    else FirstMatch(rules[1..], b)
  }

  /** First-match finds nothing exactly when no rule accepts the byte, and
      otherwise the form of an accepting rule that no earlier rule precedes. */
  lemma {:induction false} FirstMatchSpec<T>(rules: seq<Rule<T>>, b: bv8)
    ensures FirstMatch(rules, b).None? <==> forall i :: 0 <= i < |rules| ==> !Matches(rules[i], b)
    ensures FirstMatch(rules, b).Some? ==>
      exists i :: 0 <= i < |rules| && Matches(rules[i], b) && rules[i].form == FirstMatch(rules, b).value
                  && forall j :: 0 <= j < i ==> !Matches(rules[j], b)
  {
    if |rules| > 0 && !Matches(rules[0], b) {
      FirstMatchSpec(rules[1..], b);
      assert forall i :: 1 <= i < |rules| ==> rules[i] == rules[1..][i - 1];
      if FirstMatch(rules, b).Some? {
        var i :| 0 <= i < |rules[1..]| && Matches(rules[1..][i], b) && rules[1..][i].form == FirstMatch(rules, b).value
                 && forall j :: 0 <= j < i ==> !Matches(rules[1..][j], b);
        assert Matches(rules[i + 1], b);
      }
    }
  }

  /** At most one rule of the table accepts `b`. */
  ghost predicate Exclusive<T>(rules: seq<Rule<T>>, b: bv8) {
    forall i, j :: 0 <= i < |rules| && 0 <= j < |rules| && Matches(rules[i], b) && Matches(rules[j], b) ==> i == j
  }

  /** With at most one accepting rule, first-match finds exactly the form of
      whichever rule accepts the byte. */
  lemma {:induction false} FirstMatchIsOnlyMatch<T>(rules: seq<Rule<T>>, b: bv8, f: T)
    requires Exclusive(rules, b)
    ensures FirstMatch(rules, b) == Some(f) <==>
            exists i :: 0 <= i < |rules| && Matches(rules[i], b) && rules[i].form == f
  {
    FirstMatchSpec(rules, b);
    if exists i :: 0 <= i < |rules| && Matches(rules[i], b) && rules[i].form == f {
      var i :| 0 <= i < |rules| && Matches(rules[i], b) && rules[i].form == f;
      var r := FirstMatch(rules, b);
      assert r.Some?;
      var k :| 0 <= k < |rules| && Matches(rules[k], b) && rules[k].form == r.value;
      assert k == i;
    }
  }

  /** A byte some rule of a table accepts is accepted by some rule of any
      reordering of that table. */
  lemma MatchSurvivesReordering<T>(rules: seq<Rule<T>>, reordered: seq<Rule<T>>, b: bv8, i: int)
    requires multiset(rules) == multiset(reordered)
    requires 0 <= i < |rules| && Matches(rules[i], b)
    ensures exists j :: 0 <= j < |reordered| && reordered[j] == rules[i]
  {
    assert rules[i] in multiset(reordered);
    assert rules[i] in reordered;
  }

  /** Reordering an exclusive table leaves every classification unchanged. */
  lemma {:induction false} FirstMatchOrderIndependent<T>(rules: seq<Rule<T>>, reordered: seq<Rule<T>>, b: bv8)
    requires multiset(rules) == multiset(reordered)
    requires Exclusive(rules, b)
    ensures FirstMatch(rules, b) == FirstMatch(reordered, b)
  {
    FirstMatchSpec(rules, b);
    FirstMatchSpec(reordered, b);
    var r := FirstMatch(rules, b);
    var s := FirstMatch(reordered, b);
    if r.Some? {
      var i :| 0 <= i < |rules| && Matches(rules[i], b) && rules[i].form == r.value;
      MatchSurvivesReordering(rules, reordered, b, i);
      assert s.Some?;
      var k :| 0 <= k < |reordered| && Matches(reordered[k], b) && reordered[k].form == s.value;
      MatchSurvivesReordering(reordered, rules, b, k);
      var i' :| 0 <= i' < |rules| && rules[i'] == reordered[k];
      assert i' == i;
    }
    if s.Some? {
      var k :| 0 <= k < |reordered| && Matches(reordered[k], b) && reordered[k].form == s.value;
      MatchSurvivesReordering(reordered, rules, b, k);
    }
  }
}
