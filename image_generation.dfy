/**
 * Image generation against the image backend, in its two variants:
 * the single attempt of main.py (`create_image`, lines 60-93) and the
 * bounded retry of gagan.py (`create_image`, lines 58-105).
 *
 * A backend invocation is abstracted into a `Response`: either the call raised
 * (with the text of the exception), or it returned a body in which the "images"
 * key may be missing. Base64 decoding is not modelled: each image entry is given
 * as the bytes it decodes to, or as an entry that fails to decode.
 */
module ImageGeneration {
  import opened Wrappers
  import opened Text

  type Bytes = seq<bv8>

  /** The marker whose presence in an exception's text makes it a throttling error. */
  const ThrottleMarker := "ThrottlingException"
  /** `max_retries` in gagan.py. */
  const MaxRetries: nat := 5
  /** `retry_delay` in gagan.py, in seconds. */
  const RetryDelay: nat := 60
  /** The unconditional sleep after a successful call in main.py, in seconds. */
  const PostCallDelay: nat := 60

  datatype Payload = Decodable(data: Bytes) | Undecodable
  datatype Response = Raised(error: string) | Body(images: Option<seq<Payload>>)

  predicate IsThrottling(r: Response) {
    r.Raised? && Contains(r.error, ThrottleMarker)
  }

  /** What the body of one attempt of gagan's loop decides: stop with a result, or back off. */
  datatype Attempt = Stop(image: Option<Bytes>) | Backoff

  /** The image a response carries: the decoding of the first entry of "images", when there is one. */
  predicate CarriesImage(r: Response) {
    r.Body? && r.images.Some? && |r.images.value| > 0 && r.images.value[0].Decodable?
  }

  /**
   * One attempt. Indexing an empty "images" list and decoding a malformed entry both raise
   * inside the `try`; the text of neither exception holds the throttling marker.
   */
  function AttemptOf(r: Response): (a: Attempt)
    ensures a == Backoff <==> IsThrottling(r)
    ensures a.Stop? && a.image.Some? <==> CarriesImage(r)
    ensures CarriesImage(r) ==> a == Stop(Some(r.images.value[0].data))
  {
    match r
    case Raised(error) => if Contains(error, ThrottleMarker) then Backoff else Stop(None)
    case Body(None) => Stop(None)
    case Body(Some(images)) =>
      if |images| == 0 then Stop(None)
      else match images[0]
        case Decodable(data) => Stop(Some(data))
        case Undecodable => Stop(None)
  }

  // ---------------------------------------------------------------------------
  // main.py: a single attempt, no retry, a fixed sleep after every call that returned

  datatype SingleResult = SingleResult(image: Option<Bytes>, slept: nat)

  /**
   * main.py's `create_image`: never raises; any exception, including a throttling one,
   * gives None. It sleeps only when the invocation itself returned.
   */
  function CreateImageOnce(r: Response): (o: SingleResult)
    ensures o.slept == if r.Raised? then 0 else PostCallDelay
    ensures r.Raised? ==> o.image == None
    ensures o.image.Some? <==> CarriesImage(r)
    ensures o.image == (match AttemptOf(r) case Stop(image) => image case Backoff => None)
  {
    match r
    case Raised(_) => SingleResult(None, 0)
    case Body(None) => SingleResult(None, PostCallDelay)
    case Body(Some(images)) =>
      if |images| == 0 then SingleResult(None, PostCallDelay)
      else match images[0]
        case Decodable(data) => SingleResult(Some(data), PostCallDelay)
        case Undecodable => SingleResult(None, PostCallDelay)
  }

  // ---------------------------------------------------------------------------
  // gagan.py: up to MaxRetries attempts, backing off only on throttling

  /** The result of a retrying call, with the invocations it made and the sleeps it took. */
  datatype RetryResult = RetryResult(image: Option<Bytes>, invocations: nat, sleeps: nat)

  /**
   * The loop from attempt `attempt` on, where `responses(k)` is the backend's answer to
   * attempt k (counted from 0). Counts are totals since attempt 0.
   */
  function RetryFrom(responses: nat -> Response, attempt: nat): (o: RetryResult)
    requires attempt <= MaxRetries
    ensures attempt <= o.sleeps <= o.invocations <= MaxRetries
    ensures 0 < o.invocations
    ensures o.sleeps == o.invocations || o.sleeps + 1 == o.invocations
    ensures o.image.Some? ==> o.sleeps + 1 == o.invocations
    decreases MaxRetries - attempt
  {
    if attempt == MaxRetries then RetryResult(None, MaxRetries, MaxRetries)
    else match AttemptOf(responses(attempt))
      case Stop(image) => RetryResult(image, attempt + 1, attempt)
      case Backoff => RetryFrom(responses, attempt + 1)
  }

  function Retry(responses: nat -> Response): RetryResult {
    RetryFrom(responses, 0)
  }

  /** Every attempt before `k` was throttled. */
  predicate ThrottledBefore(responses: nat -> Response, k: nat) {
    forall j :: 0 <= j < k ==> IsThrottling(responses(j))
  }

  lemma {:induction false} RetryFromStopsAt(responses: nat -> Response, attempt: nat, k: nat)
    requires attempt <= k < MaxRetries
    requires ThrottledBefore(responses, k)
    requires !IsThrottling(responses(k))
    ensures RetryFrom(responses, attempt) == RetryResult(AttemptOf(responses(k)).image, k + 1, k)
    decreases k - attempt
  {
    if attempt < k {
      RetryFromStopsAt(responses, attempt + 1, k);
    }
  }

  /**
   * The first attempt that is not throttled decides: a non-throttling error, a body without
   * images or a decoded image ends the loop there, after k + 1 invocations and k sleeps.
   */
  lemma RetryStopsAt(responses: nat -> Response, k: nat)
    requires k < MaxRetries
    requires ThrottledBefore(responses, k)
    requires !IsThrottling(responses(k))
    ensures Retry(responses) == RetryResult(AttemptOf(responses(k)).image, k + 1, k)
  {
    RetryFromStopsAt(responses, 0, k);
  }

  lemma {:induction false} RetryFromExhausted(responses: nat -> Response, attempt: nat)
    requires attempt <= MaxRetries
    requires ThrottledBefore(responses, MaxRetries)
    ensures RetryFrom(responses, attempt) == RetryResult(None, MaxRetries, MaxRetries)
    decreases MaxRetries - attempt
  {
    if attempt < MaxRetries {
      assert IsThrottling(responses(attempt));
      RetryFromExhausted(responses, attempt + 1);
    }
  }

  /** Five throttled attempts: no image, five invocations, five sleeps (300 seconds). */
  lemma RetryExhausted(responses: nat -> Response)
    requires ThrottledBefore(responses, MaxRetries)
    ensures Retry(responses) == RetryResult(None, MaxRetries, MaxRetries)
    ensures Retry(responses).sleeps * RetryDelay == 300
  {
    RetryFromExhausted(responses, 0);
  }

  lemma {:induction false} RetryFromShape(responses: nat -> Response, attempt: nat)
    requires attempt <= MaxRetries
    requires ThrottledBefore(responses, attempt)
    ensures var o := RetryFrom(responses, attempt);
      && ThrottledBefore(responses, o.sleeps)
      && (o.sleeps < o.invocations ==> AttemptOf(responses(o.sleeps)) == Stop(o.image))
      && (o.sleeps == o.invocations ==> o.invocations == MaxRetries && o.image == None)
    decreases MaxRetries - attempt
  {
    if attempt < MaxRetries && IsThrottling(responses(attempt)) {
      RetryFromShape(responses, attempt + 1);
    }
  }

  /**
   * Every result is explained by the responses: all attempts before the last were
   * throttled, and the last either decided the result or was the fifth throttled one.
   */
  lemma RetryShape(responses: nat -> Response)
    ensures var o := Retry(responses);
      && ThrottledBefore(responses, o.sleeps)
      && (o.sleeps < o.invocations ==> AttemptOf(responses(o.sleeps)) == Stop(o.image))
      && (o.sleeps == o.invocations ==> o.invocations == MaxRetries && o.image == None)
  {
    RetryFromShape(responses, 0);
  }

  /**
   * The call yields an image exactly when some attempt k < 5 carries one and every
   * attempt before it was throttled; the image is then that attempt's first entry.
   */
  lemma RetryImageIff(responses: nat -> Response)
    ensures Retry(responses).image.Some? <==>
      exists k :: 0 <= k < MaxRetries && ThrottledBefore(responses, k) && CarriesImage(responses(k))
    ensures Retry(responses).image.Some? ==>
      var k := Retry(responses).sleeps;
      k < MaxRetries && ThrottledBefore(responses, k) && CarriesImage(responses(k)) &&
      Retry(responses).image.value == responses(k).images.value[0].data
  {
    RetryShape(responses);
    if exists k :: 0 <= k < MaxRetries && ThrottledBefore(responses, k) && CarriesImage(responses(k)) {
      var k :| 0 <= k < MaxRetries && ThrottledBefore(responses, k) && CarriesImage(responses(k));
      RetryStopsAt(responses, k);
    }
  }

  /**
   * gagan.py's `create_image`. `responses(k)` is what the backend answers to attempt k;
   * the ghost outputs count the invocations made and the seconds slept.
   */
  method CreateImageWithRetry(responses: nat -> Response)
    returns (image: Option<Bytes>, ghost invocations: nat, ghost slept: nat)
    ensures image == Retry(responses).image
    ensures invocations == Retry(responses).invocations <= MaxRetries
    ensures slept == Retry(responses).sleeps * RetryDelay
  {
    invocations, slept := 0, 0;
    var attempt: nat := 0;
    while attempt < MaxRetries
      invariant attempt <= MaxRetries
      invariant invocations == attempt && slept == attempt * RetryDelay
      invariant Retry(responses) == RetryFrom(responses, attempt)
    {
      var response := responses(attempt);
      invocations := invocations + 1;
      match response {
        case Raised(error) =>
          if Contains(error, ThrottleMarker) {
            slept := slept + RetryDelay;
          } else {
            return None, invocations, slept;
          }
        case Body(None) =>
          return None, invocations, slept;
        case Body(Some(images)) =>
          // images[0] on an empty list, or a failed decode, raises and is caught as a non-throttling error
          if |images| == 0 {
            return None, invocations, slept;
          }
          match images[0] {
            case Decodable(data) => return Some(data), invocations, slept;
            case Undecodable => return None, invocations, slept;
          }
      }
      attempt := attempt + 1;
    }
    image := None;
  }
}
