/**
 * The client of the ML scoring service. Whatever happens to the remote call, the score it
 * resolves to lies in [0, 1] at scale 4: the clamped probability on success, otherwise the
 * clamped fallback. Scores are integers in units of 1/10000.
 */
module MlInference {
  import opened Wrappers
  import opened Numeric
  import opened Strings

  /** The kinds of exception the client tells apart. */
  datatype ExceptionKind = CallNotPermitted | RestClient | IllegalState | Other

  /**
   * How the resilient call ended: a response with its status and body, where the body may be
   * missing and its probability may be missing, or an exception.
   */
  datatype CallOutcome =
    | Response(status: int, body: Option<Option<real>>)
    | Thrown(kind: ExceptionKind)

  /** `clamp`: a missing value is 0; values outside [0, 1] go to the nearer bound. */
  function Clamp(value: Option<real>): (r: real)
    ensures 0.0 <= r <= 1.0
    ensures value.None? ==> r == 0.0
    ensures value.Some? ==> r == Clamp01(value.value)
  {
    if value.None? then 0.0
    else if value.value < 0.0 then 0.0
    else if value.value > 1.0 then 1.0
    else value.value
  }

  /** A value clamped and rounded half-up to 4 decimals. */
  function ClampedScore(value: Option<real>): (units: int)
    ensures 0 <= units <= SCALE4
  {
    Scale4Between(Clamp(value), 0, SCALE4);
    Scale4(Clamp(value))
  }

  predicate Is2xx(status: int) { 200 <= status <= 299 }

  /**
   * `fetchScoreOrThrow`: the probability of a 2xx response with a probability in its body;
   * otherwise the exception that ends the call.
   */
  function FetchScore(outcome: CallOutcome): (r: Result<real, ExceptionKind>)
    ensures r.Success? <==> outcome.Response? && Is2xx(outcome.status) && outcome.body.Some? && outcome.body.value.Some?
    ensures r.Success? ==> r.value == outcome.body.value.value
    ensures outcome.Thrown? ==> r == Failure(outcome.kind)
  {
    match outcome
    case Thrown(kind) => Failure(kind)
    case Response(status, body) =>
      if !Is2xx(status) then Failure(IllegalState)
      else if body.None? || body.value.None? then Failure(IllegalState)
      else Success(body.value.value)
  }

  /** `predictScore`: the clamped, rounded probability, or on any failure the clamped, rounded fallback. */
  function PredictScore(outcome: CallOutcome, fallbackScore: Option<real>): (units: int)
    ensures 0 <= units <= SCALE4
  {
    match FetchScore(outcome)
    case Success(probability) => ClampedScore(Some(probability))
    case Failure(_) => ClampedScore(fallbackScore)
  }

  /**
   * The score resolves to the service's probability exactly when the call succeeded, and to the
   * fallback otherwise; either way it is within half a unit of the clamped value.
   */
  lemma PredictScoreResolution(outcome: CallOutcome, fallbackScore: Option<real>)
    ensures var units := PredictScore(outcome, fallbackScore);
      match FetchScore(outcome)
      case Success(probability) =>
        units == Scale4(Clamp01(probability)) &&
        -0.5 <= units as real - Clamp01(probability) * SCALE4 as real <= 0.5
      case Failure(_) =>
        units == ClampedScore(fallbackScore) &&
        -0.5 <= units as real - Clamp(fallbackScore) * SCALE4 as real <= 0.5
  {
  }

  /** A score already at scale 4 in [0, 1] comes back unchanged. */
  lemma ClampedScoreOfUnits(units: int)
    requires 0 <= units <= SCALE4
    ensures ClampedScore(Some(Units4(units))) == units
  {
    Scale4OfUnits(units);
  }

  /** The examples: a 2xx probability 0.83 gives 0.8300; a 503 with fallback 0.61 gives 0.6100; a timeout with 0.73 gives 0.7300. */
  lemma PredictScoreExamples(body: Option<Option<real>>)
    ensures PredictScore(Response(200, Some(Some(0.83))), Some(0.5)) == 8300
    ensures PredictScore(Response(503, body), Some(0.61)) == 6100
    ensures PredictScore(Thrown(RestClient), Some(0.73)) == 7300
  {
    ClampedScoreOfUnits(8300);
    ClampedScoreOfUnits(6100);
    ClampedScoreOfUnits(7300);
  }

  /** `resolvePredictUrl`: one trailing "/" is dropped from the base and the path gets a leading "/". */
  function ResolvePredictUrl(baseUrl: string, predictPath: string): (url: string)
    ensures EndsWith(url, predictPath)
  {
    var normalizedBaseUrl := if EndsWith(baseUrl, "/") then baseUrl[..|baseUrl| - 1] else baseUrl;
    var normalizedPredictPath := if StartsWith(predictPath, "/") then predictPath else "/" + predictPath;
    assert normalizedPredictPath[|normalizedPredictPath| - |predictPath|..] == predictPath;
    var url := normalizedBaseUrl + normalizedPredictPath;
    assert url[|url| - |predictPath|..] == normalizedPredictPath[|normalizedPredictPath| - |predictPath|..];
    url
  }

  /**
   * The URL is the base, without one trailing slash, then one slash, then the path without its
   * leading slash; so a trailing slash on the base and a leading slash on the path do not matter.
   */
  lemma ResolvePredictUrlJoins(baseUrl: string, predictPath: string)
    requires !EndsWith(baseUrl, "/") && !StartsWith(predictPath, "/")
    ensures ResolvePredictUrl(baseUrl, predictPath) == baseUrl + "/" + predictPath
    ensures ResolvePredictUrl(baseUrl + "/", predictPath) == baseUrl + "/" + predictPath
    ensures ResolvePredictUrl(baseUrl, "/" + predictPath) == baseUrl + "/" + predictPath
    ensures ResolvePredictUrl(baseUrl + "/", "/" + predictPath) == baseUrl + "/" + predictPath
  {
    assert (baseUrl + "/")[..|baseUrl|] == baseUrl;
    assert EndsWith(baseUrl + "/", "/");
    assert StartsWith("/" + predictPath, "/");
  }

  /** The configured timeout, at least 1 ms. */
  function SafeTimeout(timeoutMillis: int): (t: int)
    ensures t >= 1
    ensures timeoutMillis >= 1 ==> t == timeoutMillis
  {
    Max(1, timeoutMillis)
  }

  predicate IsBreakerOrRest(kind: ExceptionKind)
  {
    kind == CallNotPermitted || kind == RestClient
  }

  /**
   * `unwrap` over a cause chain: `chain[0]` is the exception caught and `chain[i + 1]` the cause
   * of `chain[i]`. The result is the position of the first circuit-breaker or REST exception
   * that has a cause, or else of the deepest cause; `None` for no exception.
   */
  method Unwrap(chain: seq<ExceptionKind>) returns (position: Option<nat>)
    ensures |chain| == 0 <==> position.None?
    ensures position.Some? ==> position.value < |chain|
    ensures position.Some? && position.value < |chain| - 1 ==> IsBreakerOrRest(chain[position.value])
    ensures position.Some? ==> forall j :: 0 <= j < position.value ==> !IsBreakerOrRest(chain[j])
  {
    if |chain| == 0 {
      return None;
    }
    var current := 0;
    while current < |chain| - 1
      invariant 0 <= current < |chain|
      invariant forall j :: 0 <= j < current ==> !IsBreakerOrRest(chain[j])
    {
      if IsBreakerOrRest(chain[current]) {
        return Some(current);
      }
      current := current + 1;
    }
    return Some(current);
  }

  /** The client's settings, fixed at construction. */
  class MlInferenceClient {
    const predictUrl: string
    const timeoutMillis: int

    constructor (baseUrl: string, predictPath: string, timeoutMillis: int)
      ensures predictUrl == ResolvePredictUrl(baseUrl, predictPath)
      ensures this.timeoutMillis == SafeTimeout(timeoutMillis)
    {
      predictUrl := ResolvePredictUrl(baseUrl, predictPath);
      this.timeoutMillis := Max(1, timeoutMillis);
    }
  }
}
