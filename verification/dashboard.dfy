/**
  The data-load effect of src/pages/Dashboard.tsx (`fetchData`): fetch the tweet activity,
  keep every tenth record, stamp each kept record with a display time, and track the
  loading flag and error message around the call. The awaited `fetchApiData` result is an
  input, and so is the locale-dependent time formatting (`Format`).
*/
module Dashboard {

  import opened Wrappers
  import opened Json
  import Api

  /** The endpoint the effect reads. */
  const TweetEndpoint: string := "sample_assignment_api_4"

  /** The message shown when the load throws. */
  const LoadErrorMessage: string := "Failed to load dashboard data. Please try again later."

  /** `new Date(date2).toLocaleTimeString(…)` applied to a record's `date2` field (the
      argument is None when the field is missing). The result is None when the expression
      throws: `new Date(x)` throws a TypeError when converting `x` to a primitive fails, as
      for `{"toString": 0}`. */
  type Format = Option<Value> -> Option<string>

  /** The component state the effect writes. */
  datatype DashboardState = DashboardState(loading: bool, error: string, tweetActivity: seq<Value>)

  /* ---------------- Downsampling ---------------- */

  /** `xs.filter((_, index) => index % 10 === 0)` run over the first `n` elements. */
  function KeepEveryTenth<T>(xs: seq<T>, n: nat): (ys: seq<T>)
    requires n <= |xs|
    ensures |ys| == (n + 9) / 10
    ensures forall i :: 0 <= i < |ys| ==> ys[i] == xs[10 * i]
  {
    if n == 0 then []
    else KeepEveryTenth(xs, n - 1) + (if (n - 1) % 10 == 0 then [xs[n - 1]] else [])
  }

  /** The records that survive downsampling. */
  function Downsample<T>(xs: seq<T>): (ys: seq<T>)
    ensures |ys| == (|xs| + 9) / 10
    ensures forall i :: 0 <= i < |ys| ==> ys[i] == xs[10 * i]
  {
    KeepEveryTenth(xs, |xs|)
  }

  /** `x` sits in `xs` at an index divisible by 10. */
  ghost predicate AtMultipleOfTen<T>(xs: seq<T>, x: T)
  {
    exists j :: 0 <= j < |xs| && j % 10 == 0 && xs[j] == x
  }

  /** Downsampling keeps exactly the elements at indices divisible by 10: every such element
      appears at position index / 10, and every kept element is one of them. */
  lemma DownsampleKeepsMultiplesOfTen<T>(xs: seq<T>)
    ensures forall j :: 0 <= j < |xs| && j % 10 == 0 ==> j / 10 < |Downsample(xs)| && Downsample(xs)[j / 10] == xs[j]
    ensures forall i :: 0 <= i < |Downsample(xs)| ==> AtMultipleOfTen(xs, Downsample(xs)[i])
  {
    var ys := Downsample(xs);
    forall i | 0 <= i < |ys|
      ensures AtMultipleOfTen(xs, ys[i])
    {
      var j := 10 * i;
      assert j < |xs| by { assert i < (|xs| + 9) / 10; }
      assert j % 10 == 0 && xs[j] == ys[i];
    }
  }

  /* ---------------- Stamping records ---------------- */

  /** `{ ...item, date }`: every field of the record, with `date` added (or replaced).
      Spreading a non-object contributes no fields here (see the README). */
  function WithDate(item: Value, date: string): (r: Value)
    ensures r.Obj?
    ensures r.fields.Keys == (if item.Obj? then item.fields.Keys else {}) + {"date"}
    ensures r.fields["date"] == Str(date)
    ensures item.Obj? ==> forall k :: k in item.fields && k != "date" ==> r.fields[k] == item.fields[k]
  {
    var base := if item.Obj? then item.fields else map[];
    Obj(base["date" := Str(date)])
  }

  /** Stamping this record throws: it is `null` (reading `null.date2` throws), or formatting
      its `date2` throws. */
  predicate StampThrows(item: Value, format: Format)
  {
    item == Null || format(Field(item, "date2")).None?
  }

  /** The `.map` step: stamp each record, or None when stamping some record throws. */
  function StampAll(items: seq<Value>, format: Format): (r: Option<seq<Value>>)
    ensures r.Some? <==> forall i :: 0 <= i < |items| ==> !StampThrows(items[i], format)
    ensures r.Some? ==> |r.value| == |items|
    ensures r.Some? ==> forall i :: 0 <= i < |items| ==>
              r.value[i] == WithDate(items[i], format(Field(items[i], "date2")).value)
  {
    if items == [] then Some([])
    else if StampThrows(items[0], format) then None
    else
      match StampAll(items[1..], format)
      case None => None
      case Some(rest) => Some([WithDate(items[0], format(Field(items[0], "date2")).value)] + rest)
  }

  /* ---------------- The effect ---------------- */

  /** Entering the `try`: loading on, error cleared. */
  function BeginLoad(s: DashboardState): (t: DashboardState)
    ensures t.loading && t.error == ""
    ensures t.tweetActivity == s.tweetActivity
  {
    DashboardState(true, "", s.tweetActivity)
  }

  /** When the load throws: the call was rejected, a truthy payload is not an array, or
      stamping a kept record throws. A rejected call always throws; a falsy payload never
      does. */
  function Throws(fetched: Result<Value, Api.ApiError>, format: Format): (r: bool)
    ensures fetched.Err? ==> r
    ensures fetched.Ok? && !Truthy(fetched.value) ==> !r
    ensures fetched.Ok? && fetched.value.Arr? && |fetched.value.items| > 0 && StampThrows(fetched.value.items[0], format) ==> r
  {
    || fetched.Err?
    || (Truthy(fetched.value) && !fetched.value.Arr?)
    || (fetched.value.Arr? && exists i :: 0 <= i < |fetched.value.items| && i % 10 == 0 && StampThrows(fetched.value.items[i], format))
  }

  /** How the `try` body after the await ends. */
  datatype TryEnd =
    | Threw                            // the body threw: the `catch` runs
    | Skipped                          // a falsy payload: `tweetActivity` is not set
    | Stored(records: seq<Value>)      // `setTweetActivity(records)`

  /** The body of the `try` after the await, given what the call settled with. */
  function Process(fetched: Result<Value, Api.ApiError>, format: Format): (r: TryEnd)
    ensures r.Threw? <==> Throws(fetched, format)
    ensures r.Skipped? <==> fetched.Ok? && !Truthy(fetched.value)
    ensures r.Stored? ==>
              fetched.Ok? && fetched.value.Arr? && StampAll(Downsample(fetched.value.items), format) == Some(r.records)
  {
    match fetched
    case Err(_) => Threw
    case Ok(data) =>
      if !Truthy(data) then Skipped
      else if !data.Arr? then Threw   // `.filter` is not a function
      else
        StampFailsAtMultipleOfTen(data.items, format);
        match StampAll(Downsample(data.items), format)
        case None => Threw
        case Some(processed) => Stored(processed)
  }

  /** The `try` / `catch` / `finally` after the await: `loading` always ends false; a throw
      sets the fixed message and keeps the records; otherwise the error is left as it was and
      the records change only for an array payload. */
  function FinishLoad(s: DashboardState, fetched: Result<Value, Api.ApiError>, format: Format): (t: DashboardState)
    ensures !t.loading
    ensures Throws(fetched, format) ==> t.error == LoadErrorMessage && t.tweetActivity == s.tweetActivity
    ensures !Throws(fetched, format) ==> t.error == s.error
    ensures fetched.Ok? && !Truthy(fetched.value) ==> t == s.(loading := false)
  {
    match Process(fetched, format)
    case Threw => DashboardState(false, LoadErrorMessage, s.tweetActivity)
    case Skipped => s.(loading := false)
    case Stored(processed) => s.(loading := false, tweetActivity := processed)
  }

  /** One run of `fetchData`. */
  function LoadDashboard(s: DashboardState, fetched: Result<Value, Api.ApiError>, format: Format): (t: DashboardState)
    ensures !t.loading
    ensures t.error == (if Throws(fetched, format) then LoadErrorMessage else "")
    ensures Throws(fetched, format) || !Truthy(fetched.value) ==> t.tweetActivity == s.tweetActivity
    ensures !Throws(fetched, format) && fetched.value.Arr? ==>
              var items := fetched.value.items;
              && |t.tweetActivity| == (|items| + 9) / 10
              && forall i :: 0 <= i < |t.tweetActivity| ==>
                   t.tweetActivity[i] == WithDate(items[10 * i], format(Field(items[10 * i], "date2")).value)
  {
    FinishLoad(BeginLoad(s), fetched, format)
  }

  /** Stamping the downsampled records fails exactly when stamping a record at an index
      divisible by 10 throws. */
  lemma StampFailsAtMultipleOfTen(items: seq<Value>, format: Format)
    ensures StampAll(Downsample(items), format).None?
            <==> exists i :: 0 <= i < |items| && i % 10 == 0 && StampThrows(items[i], format)
  {
    DownsampleKeepsMultiplesOfTen(items);
    if exists i :: 0 <= i < |items| && i % 10 == 0 && StampThrows(items[i], format) {
      var i :| 0 <= i < |items| && i % 10 == 0 && StampThrows(items[i], format);
      assert Downsample(items)[i / 10] == items[i];
    }
  }

  /** A record whose `date2` cannot be turned into a date fails the whole load: the records
      are kept and the fixed message is shown. */
  lemma FormatFailureFailsLoad(s: DashboardState, items: seq<Value>, format: Format)
    requires |items| > 0 && format(Field(items[0], "date2")).None?
    ensures LoadDashboard(s, Ok(Arr(items)), format).error == LoadErrorMessage
    ensures LoadDashboard(s, Ok(Arr(items)), format).tweetActivity == s.tweetActivity
  {
  }

  /** The effect fetches with a body-less GET of the tweet endpoint. */
  lemma LoadRequest(data: Option<Value>)
    ensures Api.Route(TweetEndpoint, data) == Api.Request(Api.Get, "/api/v1/sample_assignment_api_4", None)
  {
  }
}
