/**
  The arithmetic of the request budget: saturating sums and the preflight that decides whether a
  provider view fits its window (internal/runtime/request_budget.go:140-263, 930-954).
*/
module RequestBudget {
  import opened ReplayClosure

  const MAX_INT: int := 0x7FFF_FFFF_FFFF_FFFF

  /** The source's signed 64-bit integers. */
  type Int = x: int | -MAX_INT - 1 <= x <= MAX_INT

  const DEFAULT_WINDOW: Int := 200000
  const DEFAULT_FACTOR := 0.85
  const DEFAULT_RESERVE: Int := 8192

  function Min(a: int, b: int): int {
    if a <= b then a else b
  }

  /** The exact sum of the values from `i` on. */
  function Sum(values: seq<Int>, i: nat): int
    requires i <= |values|
    decreases |values| - i
  {
    if i == |values| then 0 else values[i] + Sum(values, i + 1)
  }

  predicate Overflows(total: Int, value: Int) {
    value > 0 && total > MAX_INT - value
  }

  predicate Underflows(total: Int, value: Int) {
    value < 0 && total < -MAX_INT - value
  }

  /** saturatingAdd from value `i` on: it stops at the first overflow. */
  function Saturated(values: seq<Int>, i: nat, total: Int): Int
    requires i <= |values|
    decreases |values| - i
  {
    if i == |values| then total
    else if Overflows(total, values[i]) then MAX_INT
    else if Underflows(total, values[i]) then -MAX_INT
    else Saturated(values, i + 1, total + values[i])
  }

  method SaturatingAdd(values: seq<Int>) returns (total: Int)
    ensures total == Saturated(values, 0, 0)
  {
    total := 0;
    for i := 0 to |values|
      invariant Saturated(values, 0, 0) == Saturated(values, i, total)
    {
      var value := values[i];
      if value > 0 && total > MAX_INT - value {
        return MAX_INT;
      }
      if value < 0 && total < -MAX_INT - value {
        return -MAX_INT;
      }
      total := total + value;
    }
  }

  /** Of values that are not negative it is the exact sum, cut at the largest integer. */
  lemma {:induction false} SaturatedIsSum(values: seq<Int>, i: nat, total: Int)
    requires i <= |values| && 0 <= total
    requires forall k :: i <= k < |values| ==> 0 <= values[k]
    ensures Saturated(values, i, total) == Min(total + Sum(values, i), MAX_INT)
    ensures 0 <= Sum(values, i)
    decreases |values| - i
  {
    if i < |values| {
      if Overflows(total, values[i]) {
        SaturatedIsSum(values, i + 1, 0);
      } else {
        SaturatedIsSum(values, i + 1, total + values[i]);
      }
    }
  }

  function SaturatingSubtract(left: Int, right: Int): Int {
    if right > 0 && left < -MAX_INT + right then -MAX_INT
    else if right < 0 && left > MAX_INT + right then MAX_INT
    else left - right
  }

  // ---------- preflight ----------

  /** What the adapter reports for a view: the size of the serialized body and what it counted. */
  datatype Estimate = Estimate(schemaVersion: Int, wireBytes: Int, inputTokens: Int, counters: seq<Int>) | Unavailable | Failed

  /** What the budget asks of the world: the adapter's estimate of a view, the read-only tools, the
      wording of pointers and the summary rewrites, and the configured limits. */
  datatype Env = Env(
    estimate: seq<Message> -> Estimate,
    readOnly: Call -> bool,
    replayPointer: (string, string) -> string,
    artifactPointer: ToolResult -> string,
    withoutSemantic: string -> Option<string>,
    core: string -> Option<string>,
    window: Int,
    factor: real,
    maxOutput: Int)

  datatype Code = NoCode | Exceeded | Unfit | EstimatorUnavailable | EstimateFailed

  datatype Snapshot = Snapshot(
    wireBytes: Int,
    inputTokens: Int,
    reserve: Int,
    safety: Int,
    window: Int,
    required: Int,
    headroom: Int,
    fit: bool,
    code: Code)

  /** newRequestBudgetPolicy. */
  function Window(env: Env): (w: Int)
    ensures w > 0
  {
    if env.window <= 0 then DEFAULT_WINDOW else env.window
  }

  function Factor(env: Env): (f: real)
    ensures 0.0 < f <= 1.0
  {
    if env.factor <= 0.0 || env.factor > 1.0 then DEFAULT_FACTOR else env.factor
  }

  function Reserve(env: Env): (r: Int)
    ensures r > 0
  {
    if env.maxOutput <= 0 then DEFAULT_RESERVE else env.maxOutput
  }

  function Usable(env: Env): (u: Int)
    ensures 0 <= u <= Window(env)
  {
    var u := (Window(env) as real * Factor(env)).Floor;
    if u < 0 then 0 else if u > Window(env) then Window(env) else u
  }

  function Safety(env: Env): (s: Int)
    ensures 0 <= s <= Window(env)
  {
    Window(env) - Usable(env)
  }

  /** Four bytes to the token, rounded up. */
  function Tokens(bytes: int): int
    requires 0 <= bytes
  {
    if bytes % 4 != 0 then bytes / 4 + 1 else bytes / 4
  }

  predicate Sound(e: Estimate) {
    && e.Estimate? && e.schemaVersion > 0 && e.wireBytes >= 0
    && e.inputTokens == Tokens(e.wireBytes)
    && forall i :: 0 <= i < |e.counters| ==> e.counters[i] >= 0
  }

  /** preflightProviderRequest: code NoCode when the view fits, Exceeded when it does not, and the
      estimator's code when there is no estimate to go by. */
  function Preflight(env: Env, view: seq<Message>): (s: Snapshot)
    ensures s.fit <==> s.code == NoCode
    ensures s.code == NoCode || s.code == Exceeded ==> Sound(env.estimate(view)) && s.wireBytes == env.estimate(view).wireBytes
  {
    var window, reserve, safety := Window(env), Reserve(env), Safety(env);
    var blank := Snapshot(0, 0, reserve, safety, window, 0, 0, false, EstimateFailed);
    match env.estimate(view)
    case Unavailable =>
      blank.(headroom := SaturatingSubtract(window, Saturated([reserve, safety], 0, 0)), code := EstimatorUnavailable)
    case Failed =>
      blank.(headroom := SaturatingSubtract(window, Saturated([reserve, safety], 0, 0)))
    case Estimate(_, bytes, tokens, _) =>
      if !Sound(env.estimate(view)) then blank
      else
        var required := Saturated([tokens, reserve, safety], 0, 0);
        var fit := required <= window;
        Snapshot(bytes, tokens, reserve, safety, window, required, SaturatingSubtract(window, required), fit, if fit then NoCode else Exceeded)
  }

  /** What the request needs, in exact arithmetic. */
  function Required(env: Env, bytes: nat): int {
    Tokens(bytes) + Reserve(env) + Safety(env)
  }

  lemma RequiredIsSaturated(env: Env, bytes: Int)
    requires 0 <= bytes && Tokens(bytes) <= MAX_INT
    ensures Saturated([Tokens(bytes), Reserve(env), Safety(env)], 0, 0) == Min(Required(env, bytes), MAX_INT)
  {
    var values: seq<Int> := [Tokens(bytes), Reserve(env), Safety(env)];
    SaturatedIsSum(values, 0, 0);
    assert Sum(values, 3) == 0;
    assert Sum(values, 2) == values[2];
    assert Sum(values, 1) == values[1] as int + values[2] as int;
  }

  /** The difference, cut at the largest integer, and at its negative when something is taken away. */
  lemma SubtractMeaning(left: Int, right: Int)
    ensures SaturatingSubtract(left, right) ==
              if left - right > MAX_INT then MAX_INT
              else if right > 0 && left - right < -MAX_INT then -MAX_INT else left - right
  {
  }

  /** Four bytes to the token: the fewest tokens that cover the bytes. */
  lemma TokensMeaning(bytes: nat)
    ensures 4 * (Tokens(bytes) - 1) < bytes <= 4 * Tokens(bytes)
  {
  }

  /** The configured limits: a window, or 200,000 tokens; an output reserve, or 8,192; and what the usable
      share of the window, a configured fraction or 0.85, leaves of it, rounded up. */
  lemma PolicyMeaning(env: Env)
    ensures Window(env) == (if env.window > 0 then env.window else 200_000)
    ensures Reserve(env) == (if env.maxOutput > 0 then env.maxOutput else 8192)
    ensures
      var share := if 0.0 < env.factor <= 1.0 then env.factor else 0.85;
      var usable := Window(env) - Safety(env);
      0 <= usable && usable as real <= Window(env) as real * share < usable as real + 1.0
  {
    var exact := Window(env) as real * Factor(env);
    assert 0.0 <= exact <= Window(env) as real;
    assert Usable(env) == exact.Floor;
  }

  /** What a preflight reports: the sum it needs and the room that is left, for a sound estimate; and
      otherwise that there is no estimator, or that its answer cannot be used. */
  lemma PreflightMeaning(env: Env, view: seq<Message>)
    ensures
      var e, s := env.estimate(view), Preflight(env, view);
      && s.reserve == Reserve(env) && s.safety == Safety(env) && s.window == Window(env)
      && (s.code == EstimatorUnavailable <==> e == Unavailable)
      && (s.code == EstimateFailed <==> e != Unavailable && !Sound(e))
      && (Sound(e) ==>
            && s.inputTokens == e.inputTokens && s.wireBytes == e.wireBytes
            && s.required == Min(Required(env, e.wireBytes), MAX_INT)
            && s.headroom == s.window - s.required
            && (s.fit <==> s.headroom >= 0))
  {
    if Sound(env.estimate(view)) {
      RequiredIsSaturated(env, env.estimate(view).wireBytes);
    }
  }

  /** Below the largest integer, a view fits exactly when the rounded-up tokens, the output reserve
      and the safety headroom fit the window. */
  lemma FitMeaning(env: Env, view: seq<Message>)
    requires Sound(env.estimate(view))
    ensures Window(env) < MAX_INT ==>
              (Preflight(env, view).fit <==> Required(env, env.estimate(view).wireBytes) <= Window(env))
    ensures Window(env) == MAX_INT ==> Preflight(env, view).fit
  {
    RequiredIsSaturated(env, env.estimate(view).wireBytes);
  }

  /** With the window at the largest integer saturation hides the excess: this view needs more than
      its window and is still taken to fit. */
  lemma SaturationHidesExcess() returns (env: Env, view: seq<Message>)
    ensures Sound(env.estimate(view)) && Window(env) == MAX_INT
    ensures Required(env, env.estimate(view).wireBytes) > Window(env) && Preflight(env, view).fit
  {
    env := Env(v => Estimate(1, 4, 1, []), c => false, (a, b) => "", r => "", s => None, s => None, MAX_INT, 1.0, MAX_INT);
    view := [];
    assert Tokens(4) == 1;
    FitMeaning(env, view);
  }
}
