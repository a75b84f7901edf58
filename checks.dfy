/** The shape every configuration validator has: a fixed, ordered list of
    field checks, the first failing one of which aborts validation with its
    message. Here that shape is written once, as data, and serves as the
    reference the hand-written validators are proved against. */
module Checks {

  /** The result of a validator: a Go `panic(message)` is `Panic(message)`. */
  datatype Outcome = Ok | Panic(message: string)

  /** One field check: when `violated` holds, validation panics with `message`. */
  datatype Rule<-C> = Rule(violated: C -> bool, message: string)

  /** Rule `k` is the first of `rules` that `c` violates. */
  predicate FirstViolated<C>(rules: seq<Rule<C>>, c: C, k: int)
  {
    && 0 <= k < |rules|
    && rules[k].violated(c)
    && forall j :: 0 <= j < k ==> !rules[j].violated(c)
  }

  /** Runs the rules in order and stops at the first violated one. */
  function Check<C>(rules: seq<Rule<C>>, c: C): (r: Outcome)
    ensures r.Ok? <==> forall i :: 0 <= i < |rules| ==> !rules[i].violated(c)
    ensures r.Panic? ==> exists k :: FirstViolated(rules, c, k) && r.message == rules[k].message
  {
    if rules == [] then Ok
    else if rules[0].violated(c) then
      assert FirstViolated(rules, c, 0);
      Panic(rules[0].message)
    else
      var rest := Check(rules[1..], c);
      assert rest.Panic? ==> exists k :: FirstViolated(rules[1..], c, k) && rest.message == rules[1..][k].message;
      if rest.Panic? then
        var k :| FirstViolated(rules[1..], c, k) && rest.message == rules[1..][k].message;
        assert FirstViolated(rules, c, k + 1);
        rest
      else
        rest
  }

  /** The message reported is the first violated rule's, whatever comes after it. */
  lemma {:induction false} CheckReportsFirst<C>(rules: seq<Rule<C>>, c: C, k: int)
    requires FirstViolated(rules, c, k)
    ensures Check(rules, c) == Panic(rules[k].message)
  {
    if k > 0 {
      assert !rules[0].violated(c);
      assert FirstViolated(rules[1..], c, k - 1);
      CheckReportsFirst(rules[1..], c, k - 1);
    }
  }

  /** One step of `Check` at position `k` of a rule list. */
  lemma CheckStep<C>(rules: seq<Rule<C>>, c: C, k: int)
    requires 0 <= k < |rules|
    ensures Check(rules[k..], c) == if rules[k].violated(c) then Panic(rules[k].message) else Check(rules[k + 1..], c)
  {
    assert rules[k..][1..] == rules[k + 1..];
  }

  /** Running two rule lists one after the other is running their concatenation. */
  lemma {:induction false} CheckAppend<C>(first: seq<Rule<C>>, second: seq<Rule<C>>, c: C)
    ensures Check(first + second, c) == if Check(first, c).Ok? then Check(second, c) else Check(first, c)
  {
    if first == [] {
      assert first + second == second;
    } else {
      assert (first + second)[0] == first[0];
      assert (first + second)[1..] == first[1..] + second;
      CheckAppend(first[1..], second, c);
    }
  }
}
