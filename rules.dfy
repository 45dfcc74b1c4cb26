/**
 * Rule normalisation (`parseRules`): the parsed rule file is flattened into
 * the recording rules it declares, group by group and rule by rule; alerting
 * rules (those without a `record` name) are dropped, and one expression that
 * fails to parse rejects the whole file.
 */
module Rules {
  import opened Base

  /** One rule of a group as the rule-file parser delivers it; `record` is empty for an alerting rule. */
  datatype RuleDef = RuleDef(record: string, expr: string, labels: Labels)

  /** A rule group; its own evaluation interval is never consulted by the backfiller. */
  datatype RuleGroup = RuleGroup(name: string, rules: seq<RuleDef>)

  /** A parsed query expression, identified by its printed form. */
  datatype Expr = Expr(text: string)

  /** The immutable descriptor `recordingRule`: output name, parsed expression, extra labels. */
  datatype RecordingRule = RecordingRule(name: string, expr: Expr, lset: Labels)

  /** Errors of `parseRules`: those of the rule-file parser, or an expression error wrapped with the file name. */
  datatype RuleError = FileError(msg: string) | ExprError(filename: string, cause: string)

  /** The expression parser, an oracle: a parsed expression or the cause of the failure. */
  type ExprParser = string -> Result<Expr, string>

  /** All rule definitions of the groups: group order, then rule order within a group. */
  function Flatten(groups: seq<RuleGroup>): seq<RuleDef>
  {
    if groups == [] then [] else Flatten(groups[..|groups| - 1]) + groups[|groups| - 1].rules
  }

  /** Reference definition: the recording rules among `defs`, in order. */
  function Qualifying(defs: seq<RuleDef>): (q: seq<RuleDef>)
    ensures |q| <= |defs|
    ensures forall k :: 0 <= k < |q| ==> q[k].record != "" && q[k] in defs
  {
    if defs == [] then []
    else (if defs[0].record != "" then [defs[0]] else []) + Qualifying(defs[1..])
  }

  /**
   * The normalised rule list of `defs`, processed left to right as the loops
   * of `parseRules` do, or the cause of the first expression that fails to parse.
   */
  function Normalize(defs: seq<RuleDef>, parse: ExprParser): Result<seq<RecordingRule>, string>
  {
    if defs == [] then Ok([])
    else
      var d := defs[|defs| - 1];
      match Normalize(defs[..|defs| - 1], parse)
      case Err(cause) => Err(cause)
      case Ok(rs) =>
        if d.record == "" then Ok(rs)
        else match parse(d.expr)
          case Err(cause) => Err(cause)
          case Ok(e) => Ok(rs + [RecordingRule(d.record, e, d.labels)])
  }

  lemma {:induction false} FlattenAppend(a: seq<RuleGroup>, b: seq<RuleGroup>)
    ensures Flatten(a + b) == Flatten(a) + Flatten(b)
    decreases |b|
  {
    if b == [] {
      assert a + b == a;
    } else {
      var b', g := b[..|b| - 1], b[|b| - 1];
      assert b == b' + [g];
      AssocSnoc(a, b', g);
      assert (a + b)[..|a + b| - 1] == a + b';
      FlattenAppend(a, b');
      AssocAppend(Flatten(a), Flatten(b'), g.rules);
    }
  }

  lemma {:induction false} QualifyingSnoc(defs: seq<RuleDef>, d: RuleDef)
    ensures Qualifying(defs + [d]) == Qualifying(defs) + (if d.record != "" then [d] else [])
    decreases |defs|
  {
    if defs == [] {
      assert [] + [d] == [d];
    } else {
      assert (defs + [d])[1..] == defs[1..] + [d];
      QualifyingSnoc(defs[1..], d);
    }
  }

  /** Once an expression has failed, the rest of the rules cannot change the outcome. */
  lemma {:induction false} NormalizeErrSticky(a: seq<RuleDef>, b: seq<RuleDef>, parse: ExprParser)
    requires Normalize(a, parse).Err?
    ensures Normalize(a + b, parse) == Normalize(a, parse)
    decreases |b|
  {
    if b == [] {
      assert a + b == a;
    } else {
      assert (a + b)[..|a + b| - 1] == a + b[..|b| - 1];
      NormalizeErrSticky(a, b[..|b| - 1], parse);
    }
  }

  /** A successful normalisation has one descriptor per recording rule, in order, built from that rule. */
  lemma {:induction false} NormalizeOk(defs: seq<RuleDef>, parse: ExprParser)
    ensures var q := Qualifying(defs);
      Normalize(defs, parse).Ok? ==>
        var rs := Normalize(defs, parse).value;
        |rs| == |q| &&
        forall k :: 0 <= k < |q| ==>
          parse(q[k].expr).Ok? && rs[k] == RecordingRule(q[k].record, parse(q[k].expr).value, q[k].labels)
    decreases |defs|
  {
    if defs != [] && Normalize(defs, parse).Ok? {
      var a, d := defs[..|defs| - 1], defs[|defs| - 1];
      assert defs == a + [d];
      NormalizeOk(a, parse);
      QualifyingSnoc(a, d);
      var qa := Qualifying(a);
      var q := Qualifying(defs);
      assert forall k :: 0 <= k < |qa| ==> q[k] == qa[k];
    }
  }

  /** `cause` is the error of the first definition of `q` whose expression fails to parse. */
  ghost predicate FirstFailure(q: seq<RuleDef>, parse: ExprParser, cause: string)
  {
    exists k :: 0 <= k < |q| && parse(q[k].expr) == Err(cause) && forall j :: 0 <= j < k ==> parse(q[j].expr).Ok?
  }

  lemma FirstFailureExtend(qa: seq<RuleDef>, q: seq<RuleDef>, parse: ExprParser, cause: string)
    requires qa <= q && FirstFailure(qa, parse, cause)
    ensures FirstFailure(q, parse, cause)
  {
    var k :| 0 <= k < |qa| && parse(qa[k].expr) == Err(cause) && forall j :: 0 <= j < k ==> parse(qa[j].expr).Ok?;
    assert q[k] == qa[k];
    assert forall j :: 0 <= j < k ==> q[j] == qa[j];
  }

  lemma FirstFailureAtEnd(qa: seq<RuleDef>, d: RuleDef, parse: ExprParser)
    requires parse(d.expr).Err? && forall k :: 0 <= k < |qa| ==> parse(qa[k].expr).Ok?
    ensures FirstFailure(qa + [d], parse, parse(d.expr).error)
  {
    var q := qa + [d];
    assert q[|qa|] == d;
    assert forall j :: 0 <= j < |qa| ==> q[j] == qa[j];
  }

  /** A failed normalisation reports the cause of the first recording rule whose expression fails. */
  lemma {:induction false} NormalizeErr(defs: seq<RuleDef>, parse: ExprParser)
    ensures Normalize(defs, parse).Err? ==> FirstFailure(Qualifying(defs), parse, Normalize(defs, parse).error)
    decreases |defs|
  {
    if defs != [] && Normalize(defs, parse).Err? {
      var a, d := defs[..|defs| - 1], defs[|defs| - 1];
      assert defs == a + [d];
      QualifyingSnoc(a, d);
      if Normalize(a, parse).Err? {
        NormalizeErr(a, parse);
        FirstFailureExtend(Qualifying(a), Qualifying(defs), parse, Normalize(defs, parse).error);
      } else {
        NormalizeOk(a, parse);
        FirstFailureAtEnd(Qualifying(a), d, parse);
      }
    }
  }

  /**
   * Normalisation succeeds exactly when every recording rule's expression
   * parses, and then yields one descriptor per recording rule, in order, each
   * with its own name, parsed expression and labels. Otherwise the error is
   * the cause reported for the first recording rule whose expression fails.
   */
  lemma NormalizeSpec(defs: seq<RuleDef>, parse: ExprParser)
    ensures var q := Qualifying(defs);
      Normalize(defs, parse).Ok? <==> forall k :: 0 <= k < |q| ==> parse(q[k].expr).Ok?
    ensures var q := Qualifying(defs);
      Normalize(defs, parse).Ok? ==>
        var rs := Normalize(defs, parse).value;
        |rs| == |q| &&
        forall k :: 0 <= k < |q| ==>
          parse(q[k].expr).Ok? && rs[k] == RecordingRule(q[k].record, parse(q[k].expr).value, q[k].labels)
    ensures var q := Qualifying(defs);
      Normalize(defs, parse).Err? ==>
        exists k :: 0 <= k < |q| && parse(q[k].expr) == Err(Normalize(defs, parse).error) &&
          forall j :: 0 <= j < k ==> parse(q[j].expr).Ok?
  {
    NormalizeOk(defs, parse);
    NormalizeErr(defs, parse);
  }

  /** One step of normalisation: the outcome after one more rule definition. */
  lemma NormalizeSnoc(done: seq<RuleDef>, d: RuleDef, parse: ExprParser)
    ensures Normalize(done + [d], parse) ==
      match Normalize(done, parse)
      case Err(cause) => Err(cause)
      case Ok(rs) =>
        if d.record == "" then Ok(rs)
        else match parse(d.expr)
          case Err(cause) => Err(cause)
          case Ok(e) => Ok(rs + [RecordingRule(d.record, e, d.labels)])
  {
    assert (done + [d])[..|done + [d]| - 1] == done;
  }

  /** The definitions of a non-empty group list: those of its first group, then the rest. */
  lemma FlattenCons(groups: seq<RuleGroup>)
    requires groups != []
    ensures Flatten(groups) == groups[0].rules + Flatten(groups[1..])
  {
    var g := groups[0];
    assert [g] + groups[1..] == groups;
    assert [g][..0] == [];
    FlattenAppend([g], groups[1..]);
  }

  /** The rules seen up to rule `j` of group `i` are a prefix of all rule definitions. */
  lemma FlattenSplit(groups: seq<RuleGroup>, i: nat, j: nat)
    requires i < |groups| && j <= |groups[i].rules|
    ensures Flatten(groups) ==
      (Flatten(groups[..i]) + groups[i].rules[..j]) + (groups[i].rules[j..] + Flatten(groups[i + 1..]))
  {
    assert groups[..i] + groups[i..] == groups;
    FlattenAppend(groups[..i], groups[i..]);
    FlattenCons(groups[i..]);
    assert groups[i..][1..] == groups[i + 1..];
    SplitAt(Flatten(groups[..i]), groups[i].rules, Flatten(groups[i + 1..]), j);
  }

  /**
   * `parseRules`: the rule-file parser's errors are passed on; otherwise the
   * recording rules are collected group by group and rule by rule, and the
   * first expression that fails to parse returns no rules and one error
   * wrapped with the file name.
   */
  method ParseRules(filename: string, file: Result<seq<RuleGroup>, seq<RuleError>>, parse: ExprParser)
    returns (r: Result<seq<RecordingRule>, seq<RuleError>>)
    ensures file.Err? ==> r == Err(file.error)
    ensures file.Ok? ==>
      match Normalize(Flatten(file.value), parse)
      case Ok(rules) => r == Ok(rules)
      case Err(cause) => r == Err([ExprError(filename, cause)])
  {
    if file.Err? {
      return Err(file.error);
    }
    var groups := file.value;
    var rules: seq<RecordingRule> := [];
    var i := 0;
    while i < |groups|
      invariant 0 <= i <= |groups|
      invariant Normalize(Flatten(groups[..i]), parse) == Ok(rules)
    {
      var g := groups[i];
      var j := 0;
      assert Flatten(groups[..i]) + g.rules[..0] == Flatten(groups[..i]);
      while j < |g.rules|
        invariant 0 <= j <= |g.rules|
        invariant Normalize(Flatten(groups[..i]) + g.rules[..j], parse) == Ok(rules)
      {
        var rule := g.rules[j];
        RuleStep(groups, i, j, parse, rules);
        if rule.record != "" {
          var e := parse(rule.expr);
          if e.Err? {
            FailStep(groups, i, j, parse);
            return Err([ExprError(filename, e.error)]);
          }
          rules := rules + [RecordingRule(rule.record, e.value, rule.labels)];
        }
        j := j + 1;
      }
      GroupStep(groups, i);
      i := i + 1;
    }
    assert groups[..i] == groups;
    return Ok(rules);
  }

  /** One step of the inner loop: rule `j` of group `i` is the next definition normalised. */
  lemma RuleStep(groups: seq<RuleGroup>, i: nat, j: nat, parse: ExprParser, rules: seq<RecordingRule>)
    requires i < |groups| && j < |groups[i].rules|
    requires Normalize(Flatten(groups[..i]) + groups[i].rules[..j], parse) == Ok(rules)
    ensures var d, next := groups[i].rules[j], Flatten(groups[..i]) + groups[i].rules[..j + 1];
      (d.record == "" ==> Normalize(next, parse) == Ok(rules)) &&
      (d.record != "" && parse(d.expr).Err? ==> Normalize(next, parse) == Err(parse(d.expr).error)) &&
      (d.record != "" && parse(d.expr).Ok? ==>
         Normalize(next, parse) == Ok(rules + [RecordingRule(d.record, parse(d.expr).value, d.labels)]))
  {
    var done := Flatten(groups[..i]) + groups[i].rules[..j];
    assert Flatten(groups[..i]) + groups[i].rules[..j + 1] == done + [groups[i].rules[j]];
    NormalizeSnoc(done, groups[i].rules[j], parse);
  }

  /** A failure at rule `j` of group `i` is the outcome for the whole file. */
  lemma FailStep(groups: seq<RuleGroup>, i: nat, j: nat, parse: ExprParser)
    requires i < |groups| && j < |groups[i].rules|
    requires Normalize(Flatten(groups[..i]) + groups[i].rules[..j + 1], parse).Err?
    ensures Normalize(Flatten(groups), parse) == Normalize(Flatten(groups[..i]) + groups[i].rules[..j + 1], parse)
  {
    FlattenSplit(groups, i, j + 1);
    NormalizeErrSticky(Flatten(groups[..i]) + groups[i].rules[..j + 1],
                       groups[i].rules[j + 1..] + Flatten(groups[i + 1..]), parse);
  }

  /** The end of group `i`: its definitions follow those of the groups before it. */
  lemma GroupStep(groups: seq<RuleGroup>, i: nat)
    requires i < |groups|
    ensures Flatten(groups[..i + 1]) == Flatten(groups[..i]) + groups[i].rules[..|groups[i].rules|]
  {
    assert groups[..i + 1][..i] == groups[..i];
    assert groups[i].rules[..|groups[i].rules|] == groups[i].rules;
  }
}
