/*
 * The visitor of a `plugins { ... }` block. A plugin line such as `id 'a' version '1' apply false`
 * reaches it as one method call whose object expression is the call to its left, and so on down to
 * the first call of the line; the visitor gathers one value per method name along that chain and
 * hands the plugin to the plugin processor.
 */
module PluginsVisiting {
  import opened Common
  import opened Catalog
  import opened GroovyVisitors

  /** The Groovy expressions the visitor looks at; every other expression is opaque to it. */
  datatype Expression =
    | MethodCall(methodName: string, arguments: seq<Expression>, objectExpression: Expression)
    | OtherExpression(text: string)

  /** The calls visited by getValues: the call itself, then each object expression that is a call. */
  function CallChain(e: Expression): (chain: seq<Expression>)
    ensures forall i :: 0 <= i < |chain| ==> chain[i].MethodCall?
    ensures e.MethodCall? <==> |chain| > 0
    ensures e.MethodCall? ==> chain[0] == e
  {
    if e.MethodCall? then [e] + CallChain(e.objectExpression) else []
  }

  /** getArgumentValue; `evaluate` is the expression evaluator, `None` standing for null. */
  function ArgumentValue(evaluate: Expression -> Option<string>, call: Expression): (r: Result<Option<string>, VisitFailure>)
    requires call.MethodCall?
    ensures r.Ok? <==> |call.arguments| == 1
    ensures r.Ok? ==> r.value == evaluate(call.arguments[0])
    ensures r.Err? ==> r.error == UnsupportedArgumentCount(|call.arguments|)
  {
    if |call.arguments| == 1 then Ok(evaluate(call.arguments[0]))
    else Err(UnsupportedArgumentCount(|call.arguments|))
  }

  /** The do-while loop of getValues from `e` on, with the values put so far. */
  function ValuesFrom(evaluate: Expression -> Option<string>, e: Expression, values: map<string, Option<string>>)
    : Result<map<string, Option<string>>, VisitFailure>
  {
    if e.OtherExpression? then Ok(values)
    else
      match ArgumentValue(evaluate, e)
      case Err(f) => Err(f)
      case Ok(v) => ValuesFrom(evaluate, e.objectExpression, values[e.methodName := v])
  }

  predicate OneArgumentEach(chain: seq<Expression>) {
    forall i :: 0 <= i < |chain| ==> chain[i].MethodCall? && |chain[i].arguments| == 1
  }

  function NamesOf(chain: seq<Expression>): set<string> {
    set i | 0 <= i < |chain| && chain[i].MethodCall? :: chain[i].methodName
  }

  /** No call further in along the chain has the same method name as the call at `i`. */
  predicate Innermost(chain: seq<Expression>, i: nat)
    requires i < |chain| && forall k :: 0 <= k < |chain| ==> chain[k].MethodCall?
  {
    forall j :: i < j < |chain| ==> chain[j].methodName != chain[i].methodName
  }

  /** The names along a chain are the name of its first call and the names after it. */
  lemma NamesOfChain(e: Expression)
    requires e.MethodCall?
    ensures NamesOf(CallChain(e)) == {e.methodName} + NamesOf(CallChain(e.objectExpression))
  {
    var chain := CallChain(e);
    var rest := CallChain(e.objectExpression);
    assert chain == [e] + rest;
    forall k | k in NamesOf(chain) ensures k in {e.methodName} + NamesOf(rest) {
      var i :| 0 <= i < |chain| && chain[i].MethodCall? && chain[i].methodName == k;
      if i > 0 { assert rest[i - 1] == chain[i]; }
    }
    forall k | k in NamesOf(rest) ensures k in NamesOf(chain) {
      var i :| 0 <= i < |rest| && rest[i].MethodCall? && rest[i].methodName == k;
      assert chain[i + 1] == rest[i];
    }
    assert chain[0].methodName in NamesOf(chain);
  }

  /** A chain of one-argument calls stays one after its first call. */
  lemma OneArgumentEachAfterFirst(e: Expression)
    requires e.MethodCall? && OneArgumentEach(CallChain(e))
    ensures |e.arguments| == 1 && OneArgumentEach(CallChain(e.objectExpression))
  {
    var chain := CallChain(e);
    var rest := CallChain(e.objectExpression);
    assert chain == [e] + rest;
    forall i | 0 <= i < |rest| ensures rest[i].MethodCall? && |rest[i].arguments| == 1 {
      assert rest[i] == chain[i + 1];
    }
  }

  /** getValues puts one key per method name along the chain, and keeps the keys put before unless
      a call overwrites them. */
  lemma {:induction false} ValuesKeys(evaluate: Expression -> Option<string>, e: Expression,
                                      values: map<string, Option<string>>)
    requires OneArgumentEach(CallChain(e))
    ensures ValuesFrom(evaluate, e, values).Ok?
    ensures var r := ValuesFrom(evaluate, e, values).value; var names := NamesOf(CallChain(e));
      && (forall k :: k in r <==> k in values || k in names)
      && (forall k :: k in values && k !in names ==> r[k] == values[k])
    decreases e
  {
    if e.MethodCall? {
      OneArgumentEachAfterFirst(e);
      NamesOfChain(e);
      ValuesKeys(evaluate, e.objectExpression, values[e.methodName := evaluate(e.arguments[0])]);
    }
  }

  /** For a repeated method name, the value of the innermost call along the chain is the one kept. */
  lemma {:induction false} ValuesAreInnermost(evaluate: Expression -> Option<string>, e: Expression,
                                               values: map<string, Option<string>>, i: nat)
    requires OneArgumentEach(CallChain(e))
    requires i < |CallChain(e)| && Innermost(CallChain(e), i)
    ensures ValuesFrom(evaluate, e, values).Ok?
    ensures CallChain(e)[i].methodName in ValuesFrom(evaluate, e, values).value
    ensures var chain := CallChain(e);
      ValuesFrom(evaluate, e, values).value[chain[i].methodName] == evaluate(chain[i].arguments[0])
    decreases e
  {
    var chain := CallChain(e);
    var rest := CallChain(e.objectExpression);
    assert chain == [e] + rest;
    OneArgumentEachAfterFirst(e);
    var next := values[e.methodName := evaluate(e.arguments[0])];
    ValuesKeys(evaluate, e, values);
    assert chain[i].methodName in NamesOf(chain);
    ValuesKeys(evaluate, e.objectExpression, next);
    if i == 0 {
      forall j | 0 <= j < |rest| ensures rest[j].methodName != e.methodName {
        assert rest[j] == chain[j + 1];
      }
      assert e.methodName !in NamesOf(rest);
    } else {
      assert rest[i - 1] == chain[i];
      assert Innermost(rest, i - 1) by {
        forall j | i - 1 < j < |rest| ensures rest[j].methodName != rest[i - 1].methodName {
          assert rest[j] == chain[j + 1];
        }
      }
      ValuesAreInnermost(evaluate, e.objectExpression, next, i - 1);
    }
  }

  /** getValues fails exactly when a call along the chain has other than one argument, with the count
      of the outermost such call. */
  lemma {:induction false} ValuesFailure(evaluate: Expression -> Option<string>, e: Expression,
                                          values: map<string, Option<string>>)
    ensures var r := ValuesFrom(evaluate, e, values); var chain := CallChain(e);
      && (r.Err? <==> !OneArgumentEach(chain))
      && (r.Err? ==> exists i :: 0 <= i < |chain| && |chain[i].arguments| != 1
                       && r.error == UnsupportedArgumentCount(|chain[i].arguments|)
                       && forall j :: 0 <= j < i ==> |chain[j].arguments| == 1)
    decreases e
  {
    if e.MethodCall? {
      var chain := CallChain(e);
      var rest := CallChain(e.objectExpression);
      assert chain == [e] + rest;
      if |e.arguments| == 1 {
        var next := values[e.methodName := evaluate(e.arguments[0])];
        ValuesFailure(evaluate, e.objectExpression, next);
        var r := ValuesFrom(evaluate, e, values);
        assert r == ValuesFrom(evaluate, e.objectExpression, next);
        if OneArgumentEach(chain) {
          assert OneArgumentEach(rest) by {
            forall i | 0 <= i < |rest| ensures rest[i].MethodCall? && |rest[i].arguments| == 1 {
              assert rest[i] == chain[i + 1];
            }
          }
        } else {
          var i :| 0 <= i < |chain| && !(chain[i].MethodCall? && |chain[i].arguments| == 1);
          assert rest[i - 1] == chain[i];
        }
        if r.Err? {
          var i :| 0 <= i < |rest| && |rest[i].arguments| != 1
            && r.error == UnsupportedArgumentCount(|rest[i].arguments|)
            && forall j :: 0 <= j < i ==> |rest[j].arguments| == 1;
          assert chain[i + 1] == rest[i];
          forall j | 0 <= j < i + 1 ensures |chain[j].arguments| == 1 {
            if j > 0 { assert chain[j] == rest[j - 1]; }
          }
        }
      } else {
        assert chain[0] == e;
      }
    }
  }

  /** getValues, as a loop over the chain of calls. */
  method GetValues(evaluate: Expression -> Option<string>, call: Expression) returns (r: Result<map<string, Option<string>>, VisitFailure>)
    requires call.MethodCall?
    ensures r == ValuesFrom(evaluate, call, map[])
  {
    var values: map<string, Option<string>> := map[];
    var current := call;
    while current.MethodCall?
      invariant ValuesFrom(evaluate, call, map[]) == ValuesFrom(evaluate, current, values)
      decreases current
    {
      var argument := ArgumentValue(evaluate, current);
      if argument.Err? {
        return Err(argument.error);
      }
      values := values[current.methodName := argument.value];
      current := current.objectExpression;
    }
    return Ok(values);
  }

  /** processPlugin: the plugin named by the `id` value at the `version` value (null when absent). */
  function PluginEffect(pp: PluginProcessor, evaluate: Expression -> Option<string>, scannerId: string,
                        call: Expression, software: set<Software>): Result<set<Software>, VisitFailure>
    requires call.MethodCall?
  {
    match ValuesFrom(evaluate, call, map[])
    case Err(f) => Err(f)
    case Ok(values) => Ok(pp.processPlugin(scannerId, Lookup(values, "id"), Lookup(values, "version"), software))
  }

  /** A plugin line whose calls all take one argument is processed with the innermost `id` and
      `version` values, null standing for a name the line does not call. */
  lemma PluginFromLine(pp: PluginProcessor, evaluate: Expression -> Option<string>, scannerId: string,
                       call: Expression, software: set<Software>, idAt: Option<nat>, versionAt: Option<nat>)
    requires call.MethodCall? && OneArgumentEach(CallChain(call))
    requires var chain := CallChain(call);
      && (idAt.None? <==> "id" !in NamesOf(chain))
      && (idAt.Some? ==> idAt.value < |chain| && chain[idAt.value].methodName == "id" && Innermost(chain, idAt.value))
      && (versionAt.None? <==> "version" !in NamesOf(chain))
      && (versionAt.Some? ==> versionAt.value < |chain| && chain[versionAt.value].methodName == "version" && Innermost(chain, versionAt.value))
    ensures var chain := CallChain(call);
      PluginEffect(pp, evaluate, scannerId, call, software) == Ok(pp.processPlugin(scannerId,
        if idAt.Some? then evaluate(chain[idAt.value].arguments[0]) else None,
        if versionAt.Some? then evaluate(chain[versionAt.value].arguments[0]) else None,
        software))
  {
    var chain := CallChain(call);
    ValuesKeys(evaluate, call, map[]);
    if idAt.Some? { ValuesAreInnermost(evaluate, call, map[], idAt.value); }
    if versionAt.Some? { ValuesAreInnermost(evaluate, call, map[], versionAt.value); }
  }

  /** `id 'a' version 'v'` processes plugin a at version v. */
  lemma IdAndVersion(pp: PluginProcessor, evaluate: Expression -> Option<string>, scannerId: string,
                     idArgument: Expression, versionArgument: Expression, left: Expression, software: set<Software>)
    requires left.OtherExpression?
    ensures PluginEffect(pp, evaluate, scannerId,
        MethodCall("version", [versionArgument], MethodCall("id", [idArgument], left)), software)
      == Ok(pp.processPlugin(scannerId, evaluate(idArgument), evaluate(versionArgument), software))
  {
    var call := MethodCall("version", [versionArgument], MethodCall("id", [idArgument], left));
    var chain := CallChain(call);
    assert CallChain(call.objectExpression) == [call.objectExpression];
    assert chain == [call, call.objectExpression];
    assert chain[1].methodName in NamesOf(chain);
    assert chain[0].methodName in NamesOf(chain);
    PluginFromLine(pp, evaluate, scannerId, call, software, Some(1), Some(0));
  }

  const PluginMethods: set<string> := {"id", "version", "apply"}

  /** processMethodCallExpression: the outcome and the software set it leaves behind. */
  function PluginsCallEffect(pp: PluginProcessor, evaluate: Expression -> Option<string>, scannerId: string,
                             call: Expression, software: set<Software>)
    : (r: Result<(ExpressionVisitOutcome, set<Software>), VisitFailure>)
    requires call.MethodCall?
    ensures r.Ok? ==> (r.value.0 == Processed <==> call.methodName in PluginMethods)
    ensures r.Ok? ==> r.value.0 in {Processed, Ignored}
    ensures call.methodName !in PluginMethods ==> r == Ok((Ignored, software))
    ensures r.Err? <==> call.methodName in PluginMethods && !OneArgumentEach(CallChain(call))
  {
    if call.methodName in PluginMethods then
      ValuesFailure(evaluate, call, map[]);
      match PluginEffect(pp, evaluate, scannerId, call, software)
      case Err(f) => Err(f)
      case Ok(s) => Ok((Processed, s))
    else
      Ok((Ignored, software))
  }

  /** processPlugin on the visitor state. */
  method ProcessPlugin(state: VisitorState, pp: PluginProcessor, evaluate: Expression -> Option<string>, call: Expression)
    returns (failure: Option<VisitFailure>)
    requires call.MethodCall?
    modifies state
    ensures var e := PluginEffect(pp, evaluate, state.scannerId, call, old(state.software));
      && (e.Err? ==> failure == Some(e.error) && state.software == old(state.software))
      && (e.Ok? ==> failure == None && state.software == e.value)
  {
    var values := GetValues(evaluate, call);
    if values.Err? {
      return Some(values.error);
    }
    state.software := pp.processPlugin(state.scannerId, Lookup(values.value, "id"), Lookup(values.value, "version"), state.software);
    return None;
  }

  /** processMethodCallExpression on the visitor state. */
  method ProcessMethodCallExpression(state: VisitorState, pp: PluginProcessor, evaluate: Expression -> Option<string>,
                                     call: Expression) returns (r: Result<ExpressionVisitOutcome, VisitFailure>)
    requires call.MethodCall?
    modifies state
    ensures var e := PluginsCallEffect(pp, evaluate, state.scannerId, call, old(state.software));
      && (e.Err? ==> r == Err(e.error) && state.software == old(state.software))
      && (e.Ok? ==> r == Ok(e.value.0) && state.software == e.value.1)
  {
    if call.methodName == "id" || call.methodName == "version" || call.methodName == "apply" {
      var failure := ProcessPlugin(state, pp, evaluate, call);
      if failure.Some? {
        return Err(failure.value);
      }
      return Ok(Processed);
    }
    return Ok(Ignored);
  }
}
