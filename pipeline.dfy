/**
  The chain of request-handling stages `serve` installs on the app: an
  optional delay, the user's middlewares, and the terminal response writer.
 */
module Pipeline {
  import opened JsValues
  import opened Config

  datatype Stage =
    | Delay(ms: int)          // `setTimeout(next, delay)`
    | Custom(m: MiddlewareId) // a middleware from the `use` option
    | Respond                 // the terminal stage that writes the response

  /** The delay stage, installed only when `delay > 0`; an absent delay is not greater than 0. */
  function DelayStages(delay: Option<int>): (s: seq<Stage>)
    ensures |s| <= 1
  {
    if delay.Some? && delay.value > 0 then [Delay(delay.value)] else []
  }

  /** One `Custom` stage per middleware, in the order given. */
  function CustomStages(ms: seq<MiddlewareId>): seq<Stage> {
    if ms == [] then [] else [Custom(ms[0])] + CustomStages(ms[1..])
  }

  /** The middlewares `use` names, in order: an array's elements, or the single function. */
  function UseIds(use: Option<Use>): (ids: seq<MiddlewareId>)
    ensures use.None? ==> ids == []
    ensures use.Some? && use.value.One? ==> ids == [use.value.m]
    ensures use.Some? && use.value.Many? ==> ids == use.value.ms
  {
    match use
    case None => []
    case Some(One(m)) => [m]
    case Some(Many(ms)) => ms
  }

  /** The stages installed for the `use` option. */
  function UseStages(use: Option<Use>): seq<Stage> {
    CustomStages(UseIds(use))
  }

  /** The whole chain `serve` installs, in installation order. */
  function PipelineFor(delay: Option<int>, use: Option<Use>): (p: seq<Stage>)
    ensures |p| == |DelayStages(delay)| + |UseIds(use)| + 1
    ensures p[|p| - 1] == Respond
  {
    CustomStagesLength(UseIds(use));
    DelayStages(delay) + UseStages(use) + [Respond]
  }

  /** The middlewares a chain runs, in order. */
  function CustomIds(stages: seq<Stage>): seq<MiddlewareId> {
    if stages == [] then []
    else (if stages[0].Custom? then [stages[0].m] else []) + CustomIds(stages[1..])
  }

  /** The waits a chain's delay stages impose, in order. */
  function Waits(stages: seq<Stage>): seq<int> {
    if stages == [] then []
    else (if stages[0].Delay? then [stages[0].ms] else []) + Waits(stages[1..])
  }

  /** How many terminal writers a chain has. */
  function RespondCount(stages: seq<Stage>): nat {
    if stages == [] then 0
    else (if stages[0].Respond? then 1 else 0) + RespondCount(stages[1..])
  }

  lemma {:induction false} CustomStagesLength(ms: seq<MiddlewareId>)
    ensures |CustomStages(ms)| == |ms|
  {
    if ms != [] { CustomStagesLength(ms[1..]); }
  }

  /** The `i`-th stage for a list of middlewares is the `i`-th middleware. */
  lemma {:induction false} CustomStagesAt(ms: seq<MiddlewareId>, i: nat)
    requires i < |ms|
    ensures |CustomStages(ms)| == |ms| && CustomStages(ms)[i] == Custom(ms[i])
  {
    CustomStagesLength(ms);
    if i > 0 { CustomStagesAt(ms[1..], i - 1); }
  }

  /** Installing one more middleware appends one stage: what each `forEach` step does. */
  lemma {:induction false} CustomStagesSnoc(ms: seq<MiddlewareId>, m: MiddlewareId)
    ensures CustomStages(ms + [m]) == CustomStages(ms) + [Custom(m)]
  {
    if ms == [] {
      assert ms + [m] == [m];
    } else {
      assert (ms + [m])[1..] == ms[1..] + [m];
      CustomStagesSnoc(ms[1..], m);
    }
  }

  lemma {:induction false} CustomIdsAppend(a: seq<Stage>, b: seq<Stage>)
    ensures CustomIds(a + b) == CustomIds(a) + CustomIds(b)
  {
    if a == [] {
      assert a + b == b;
    } else {
      assert (a + b)[0] == a[0];
      assert (a + b)[1..] == a[1..] + b;
      CustomIdsAppend(a[1..], b);
      var h := if a[0].Custom? then [a[0].m] else [];
      assert CustomIds(a + b) == h + CustomIds(a[1..] + b);
      assert CustomIds(a) == h + CustomIds(a[1..]);
    }
  }

  lemma {:induction false} WaitsAppend(a: seq<Stage>, b: seq<Stage>)
    ensures Waits(a + b) == Waits(a) + Waits(b)
  {
    if a == [] {
      assert a + b == b;
    } else {
      assert (a + b)[0] == a[0];
      assert (a + b)[1..] == a[1..] + b;
      WaitsAppend(a[1..], b);
      var h := if a[0].Delay? then [a[0].ms] else [];
      assert Waits(a + b) == h + Waits(a[1..] + b);
      assert Waits(a) == h + Waits(a[1..]);
    }
  }

  lemma {:induction false} RespondCountAppend(a: seq<Stage>, b: seq<Stage>)
    ensures RespondCount(a + b) == RespondCount(a) + RespondCount(b)
  {
    if a == [] {
      assert a + b == b;
    } else {
      assert (a + b)[1..] == a[1..] + b;
      RespondCountAppend(a[1..], b);
    }
  }

  /** Running one more stage adds its wait, its middleware or its writer. */
  lemma StepAppend(pre: seq<Stage>, st: Stage)
    ensures Waits(pre + [st]) == Waits(pre) + (if st.Delay? then [st.ms] else [])
    ensures CustomIds(pre + [st]) == CustomIds(pre) + (if st.Custom? then [st.m] else [])
    ensures RespondCount(pre + [st]) == RespondCount(pre) + (if st.Respond? then 1 else 0)
  {
    WaitsAppend(pre, [st]);
    CustomIdsAppend(pre, [st]);
    RespondCountAppend(pre, [st]);
  }

  /** In a chain with at most one writer, no writer comes before a writer. */
  lemma NoWriterBeforeWriter(stages: seq<Stage>, i: nat)
    requires RespondCount(stages) <= 1 && i < |stages| && stages[i].Respond?
    ensures RespondCount(stages[..i]) == 0
  {
    assert stages == stages[..i] + stages[i..];
    RespondCountAppend(stages[..i], stages[i..]);
    assert stages[i..][0] == Respond;
  }

  /** Middleware stages run exactly their own middlewares, in order. */
  lemma {:induction false} CustomStagesIds(ms: seq<MiddlewareId>)
    ensures CustomIds(CustomStages(ms)) == ms
    ensures Waits(CustomStages(ms)) == []
    ensures RespondCount(CustomStages(ms)) == 0
  {
    if ms != [] {
      CustomStagesIds(ms[1..]);
      var rest := CustomStages(ms[1..]);
      assert CustomStages(ms) == [Custom(ms[0])] + rest;
      assert ([Custom(ms[0])] + rest)[1..] == rest;
    }
  }

  /**
    The assembled chain runs the `use` middlewares in the order supplied and
    nothing else, waits once for `delay` exactly when `delay > 0`, and has
    exactly one terminal writer, at the end.
   */
  lemma PipelineShape(delay: Option<int>, use: Option<Use>)
    ensures var p := PipelineFor(delay, use);
      && |p| == |DelayStages(delay)| + |UseIds(use)| + 1
      && p[|p| - 1] == Respond
      && RespondCount(p) == 1
      && CustomIds(p) == UseIds(use)
      && Waits(p) == (if delay.Some? && delay.value > 0 then [delay.value] else [])
  {
    var d, u := DelayStages(delay), UseStages(use);
    CustomStagesLength(UseIds(use));
    CustomStagesIds(UseIds(use));
    CustomIdsAppend(d + u, [Respond]);
    CustomIdsAppend(d, u);
    WaitsAppend(d + u, [Respond]);
    WaitsAppend(d, u);
    RespondCountAppend(d + u, [Respond]);
    RespondCountAppend(d, u);
  }

  /** The delay stage is present, and then first, exactly when `delay > 0`. */
  lemma DelayStagePresence(delay: Option<int>, use: Option<Use>)
    ensures var p := PipelineFor(delay, use);
      (exists i :: 0 <= i < |p| && p[i].Delay?) <==> delay.Some? && delay.value > 0
    ensures delay.Some? && delay.value > 0 ==> PipelineFor(delay, use)[0] == Delay(delay.value)
  {
    var p := PipelineFor(delay, use);
    var d := DelayStages(delay);
    CustomStagesLength(UseIds(use));
    if !(delay.Some? && delay.value > 0) {
      forall i | 0 <= i < |p| ensures !p[i].Delay? {
        if i < |p| - 1 { CustomStagesAt(UseIds(use), i); }
      }
    } else {
      assert p[0] == Delay(delay.value);
    }
  }

  /** The `i`-th `use` middleware sits right after the optional delay stage and its predecessors. */
  lemma UseStageAt(delay: Option<int>, use: Option<Use>, i: nat)
    requires i < |UseIds(use)|
    ensures var p := PipelineFor(delay, use); var k := |DelayStages(delay)| + i;
      k < |p| - 1 && p[k] == Custom(UseIds(use)[i])
  {
    CustomStagesAt(UseIds(use), i);
  }

  /** A middleware is installed exactly when the `use` option names it. */
  lemma UseStageMembership(delay: Option<int>, use: Option<Use>, m: MiddlewareId)
    ensures Custom(m) in PipelineFor(delay, use) <==> m in UseIds(use)
  {
    var ms := UseIds(use);
    var p := PipelineFor(delay, use);
    var d := |DelayStages(delay)|;
    CustomStagesLength(ms);
    if m in ms {
      var i :| 0 <= i < |ms| && ms[i] == m;
      UseStageAt(delay, use, i);
    }
    if Custom(m) in p {
      var k :| 0 <= k < |p| && p[k] == Custom(m);
      assert d <= k < |p| - 1;
      CustomStagesAt(ms, k - d);
    }
  }
}
