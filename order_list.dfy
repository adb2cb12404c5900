/** The order history page's own rules: the interval input clamp, the request URL
    with its optional interval, and the Reset button. The interval state is
    `""` (`None`) or a number; the fetch itself is left to the table. */
module OrderList {
  import opened Common

  const MinInterval: int := 1
  const MaxInterval: int := 1000

  /** The input's `onChange`: an empty value stays empty, a number is clamped
      with `Math.min(1000, Math.max(1, v))`. */
  function ClampInterval(input: Option<int>): Option<int> {
    match input
    case None => None
    case Some(v) => Some(if v < MinInterval then MinInterval else if v > MaxInterval then MaxInterval else v)
  }

  /** The clamp keeps emptiness, lands every number in [1, 1000], leaves an
      in-range number alone and is idempotent. */
  lemma ClampRange(input: Option<int>)
    ensures ClampInterval(input).None? <==> input.None?
    ensures ClampInterval(input).Some? ==> MinInterval <= ClampInterval(input).value <= MaxInterval
    ensures input.Some? && MinInterval <= input.value <= MaxInterval ==> ClampInterval(input) == input
    ensures ClampInterval(ClampInterval(input)) == ClampInterval(input)
  {
  }

  /** JavaScript truthiness of the interval: `""` and `0` are falsy. */
  predicate IntervalSet(interval: Option<int>) {
    interval.Some? && interval.value != 0
  }

  /** `${baseURL}/tickers/${id}?skip=${skip}&limit=${limit}`. */
  function BaseUrl(baseURL: string, id: string, skip: int, limit: int): string {
    baseURL + "/tickers/" + id + "?skip=" + DecimalString(skip) + "&limit=" + DecimalString(limit)
  }

  /** `fetchData`'s URL: the base URL, followed by `&interval=<v>` when the
      interval is truthy. */
  function RequestUrl(baseURL: string, id: string, skip: int, limit: int, interval: Option<int>): string {
    var base := BaseUrl(baseURL, id, skip, limit);
    if IntervalSet(interval) then base + "&interval=" + DecimalString(interval.value) else base
  }

  /** The URL carries the interval suffix exactly when the interval is set, and
      otherwise is the base URL; every clamped input that is not empty is set. */
  lemma RequestUrlShape(baseURL: string, id: string, skip: int, limit: int, interval: Option<int>)
    ensures var base := BaseUrl(baseURL, id, skip, limit);
      var url := RequestUrl(baseURL, id, skip, limit, interval);
      && (IntervalSet(interval) ==>
            |url| > |base| && url[..|base|] == base && url[|base|..] == "&interval=" + DecimalString(interval.value))
      && (!IntervalSet(interval) ==> url == base)
    ensures IntervalSet(ClampInterval(interval)) <==> interval.Some?
  {
    var base := BaseUrl(baseURL, id, skip, limit);
    if IntervalSet(interval) {
      var suffix := "&interval=" + DecimalString(interval.value);
      assert RequestUrl(baseURL, id, skip, limit, interval) == base + suffix;
      SplitAt(base, suffix);
    }
  }

  /** A concatenation splits back into its two parts. */
  lemma SplitAt(a: string, b: string)
    requires |b| > 0
    ensures |a + b| > |a| && (a + b)[..|a|] == a && (a + b)[|a|..] == b
  {
  }

  /** Two set intervals that give the same URL are the same interval. */
  lemma RequestUrlDeterminesInterval(baseURL: string, id: string, skip: int, limit: int, a: int, b: int)
    requires a != 0 && b != 0
    requires RequestUrl(baseURL, id, skip, limit, Some(a)) == RequestUrl(baseURL, id, skip, limit, Some(b))
    ensures a == b
  {
    var base := BaseUrl(baseURL, id, skip, limit);
    RequestUrlShape(baseURL, id, skip, limit, Some(a));
    RequestUrlShape(baseURL, id, skip, limit, Some(b));
    var suffix := "&interval=";
    assert suffix + DecimalString(a) == suffix + DecimalString(b);
    assert DecimalString(a) == (suffix + DecimalString(a))[|suffix|..];
    assert DecimalString(b) == (suffix + DecimalString(b))[|suffix|..];
    DecimalStringInjective(a, b);
  }

  /** Reset: the interval state becomes empty, and one fetch of the first ten
      rows is issued by the closure that still sees the old interval. */
  datatype ResetEffect = ResetEffect(interval: Option<int>, url: string)

  function ResetFilter(baseURL: string, id: string, interval: Option<int>): ResetEffect {
    ResetEffect(None, RequestUrl(baseURL, id, 0, 10, interval))
  }

  /** After Reset the interval is empty, the request asks for skip 0 and limit
      10, and a set interval still appears in that request. */
  lemma ResetUsesOldInterval(baseURL: string, id: string, interval: Option<int>)
    ensures ResetFilter(baseURL, id, interval).interval == None
    ensures var url := ResetFilter(baseURL, id, interval).url;
      var base := BaseUrl(baseURL, id, 0, 10);
      url[..|base|] == base
      && (IntervalSet(interval) <==> url != base)
  {
    RequestUrlShape(baseURL, id, 0, 10, interval);
  }
}
