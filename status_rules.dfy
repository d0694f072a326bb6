/**
  The pattern every health check of the monitoring services follows: start from a
  status, run the checks in a fixed order, and let each check that fires overwrite
  the status and append one issue. A check is described by a `Rule`; the outcome of
  a sequence of rules is the status of the LAST rule that fired and the issues of
  all rules that fired, in check order.
*/
module StatusRules {

  /** One check: whether it fires, the status it sets and the issue it appends. */
  datatype Rule = Rule(fires: bool, status: string, issue: string)

  /** The issues of the rules that fire, in check order. */
  function Issues(rules: seq<Rule>): (r: seq<string>)
    ensures |r| <= |rules|
  {
    if rules == [] then []
    else
      var last := rules[|rules| - 1];
      Issues(rules[..|rules| - 1]) + (if last.fires then [last.issue] else [])
  }

  /** The status the checks leave behind, starting from `initial`. */
  function FinalStatus(rules: seq<Rule>, initial: string): string {
    if rules == [] then initial
    else if rules[|rules| - 1].fires then rules[|rules| - 1].status
    else FinalStatus(rules[..|rules| - 1], initial)
  }

  predicate AnyFires(rules: seq<Rule>) {
    exists i :: 0 <= i < |rules| && rules[i].fires
  }

  /** The number of rules that fire. */
  function FiredCount(rules: seq<Rule>): nat {
    if rules == [] then 0
    else FiredCount(rules[..|rules| - 1]) + (if rules[|rules| - 1].fires then 1 else 0)
  }

  /** One more rule: its issue is appended when it fires, and its status replaces the old one. */
  lemma RulesSnoc(rules: seq<Rule>, k: nat, initial: string)
    requires k < |rules|
    ensures Issues(rules[..k + 1]) == Issues(rules[..k]) + (if rules[k].fires then [rules[k].issue] else [])
    ensures FinalStatus(rules[..k + 1], initial) == if rules[k].fires then rules[k].status else FinalStatus(rules[..k], initial)
  {
    assert rules[..k + 1][..k] == rules[..k];
  }

  /** Each firing rule contributes exactly one issue; no issue at all iff no rule fires. */
  lemma {:induction false} IssuesCount(rules: seq<Rule>)
    ensures |Issues(rules)| == FiredCount(rules)
    ensures Issues(rules) == [] <==> !AnyFires(rules)
  {
    if rules != [] {
      var init := rules[..|rules| - 1];
      IssuesCount(init);
      if AnyFires(init) {
        var i :| 0 <= i < |init| && init[i].fires;
        assert rules[i].fires;
      }
    }
  }

  /** An issue is reported iff a rule that fired carries it. */
  lemma {:induction false} IssuesMembers(rules: seq<Rule>, x: string)
    ensures x in Issues(rules) <==> exists i :: 0 <= i < |rules| && rules[i].fires && rules[i].issue == x
  {
    if rules != [] {
      var init := rules[..|rules| - 1];
      IssuesMembers(init, x);
      if x in Issues(init) {
        var i :| 0 <= i < |init| && init[i].fires && init[i].issue == x;
        assert rules[i] == init[i];
      }
      if exists i :: 0 <= i < |rules| && rules[i].fires && rules[i].issue == x {
        var i :| 0 <= i < |rules| && rules[i].fires && rules[i].issue == x;
        if i < |init| {
          assert init[i] == rules[i];
        }
      }
    }
  }

  /** With no rule firing the status is the initial one. */
  lemma {:induction false} FinalStatusNoneFired(rules: seq<Rule>, initial: string)
    requires !AnyFires(rules)
    ensures FinalStatus(rules, initial) == initial
  {
    if rules != [] {
      var init := rules[..|rules| - 1];
      assert !rules[|rules| - 1].fires;
      assert forall i :: 0 <= i < |init| ==> init[i] == rules[i];
      FinalStatusNoneFired(init, initial);
    }
  }

  /** When rule `i` fires and no later rule does, the status is rule `i`'s: the last rule wins. */
  lemma {:induction false} FinalStatusLastFired(rules: seq<Rule>, initial: string, i: nat)
    requires i < |rules| && rules[i].fires
    requires forall j :: i < j < |rules| ==> !rules[j].fires
    ensures FinalStatus(rules, initial) == rules[i].status
  {
    if i < |rules| - 1 {
      var init := rules[..|rules| - 1];
      assert forall j :: 0 <= j < |init| ==> init[j] == rules[j];
      FinalStatusLastFired(init, initial, i);
    }
  }
}
