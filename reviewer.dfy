/** One reviewer task and the panel of three (`process_unit`,
    `create_image_modality_messages` and `async_run_with_reviewers` in
    tool/vlm_curation_deprecated/async_vlm.py). The model call is an abstract
    `Invoker`; the delay between attempts is counted, not waited. */
module Reviewer {
  import opened Wrappers
  import opened Text
  import opened Messages
  import opened Aggregation

  /** What one attempt of the model call gives: a structured answer, or an
      exception. */
  datatype Outcome = Answer(response: SpikeClassification) | Failure

  /** The model: the outcome of the call with these messages, made by this
      reviewer, on this attempt (counted from 0). */
  type Invoker = (seq<Message>, nat, nat) -> Outcome

  const MaxRetries: nat := 10

  /** The keyword arguments every reviewer task of a run shares. */
  datatype Context = Context(system: seq<Message>, fewshot: seq<Message>, metrics: Option<MetricsTable>)

  const UnitCaption: string := "These are the images of unit for you to determine:"
  const MetricsCaption: string := "These are the quality metrics of this unit - "

  /** `f"{k}: {v}"` with the value already rendered. */
  function MetricText(m: Metric): string
  {
    m.name + ": " + m.value
  }

  function MetricsText(ms: seq<Metric>): string
  {
    Join(",", seq(|ms|, i requires 0 <= i < |ms| => MetricText(ms[i])))
  }

  /** `create_image_modality_messages`: the unit's images as one strip, then
      its metrics when a metrics table is given. A unit missing from that
      table raises `KeyError`. */
  function ImageMessages(unitId: int, images: seq<Image>, metrics: Option<MetricsTable>): (r: Result<seq<Message>>)
    ensures r.Err? <==> metrics.Some? && Lookup(metrics.value, unitId).None?
    ensures r.Err? ==> r.error == KeyError(unitId)
    ensures r.Ok? ==> |r.value| == (if metrics.Some? then 2 else 1)
    ensures r.Ok? ==> r.value[0] == Human([Text(UnitCaption), ImageUrl(images)])
    ensures r.Ok? && metrics.Some? ==>
      r.value[1] == Human([Text(MetricsCaption + MetricsText(Lookup(metrics.value, unitId).value))])
  {
    var imageMessage := Human([Text(UnitCaption), ImageUrl(images)]);
    match metrics
    case None => Ok([imageMessage])
    case Some(table) =>
      match Lookup(table, unitId)
      case None => Err(KeyError(unitId))
      case Some(ms) => Ok([imageMessage, Human([Text(MetricsCaption + MetricsText(ms))])])
  }

  /** The metrics text lists the row's metrics in order, one "name: value"
      per comma-separated part, as long as no name or value contains a
      comma. */
  lemma MetricsTextParts(ms: seq<Metric>)
    requires |ms| > 0
    requires forall i :: 0 <= i < |ms| ==> ',' !in ms[i].name && ',' !in ms[i].value
    ensures var parts := Split(MetricsText(ms), ',');
      && |parts| == |ms|
      && forall i :: 0 <= i < |ms| ==> parts[i] == ms[i].name + ": " + ms[i].value
  {
    var parts := seq(|ms|, i requires 0 <= i < |ms| => MetricText(ms[i]));
    forall i | 0 <= i < |parts| ensures ',' !in parts[i] {
      assert parts[i] == ms[i].name + ": " + ms[i].value;
      assert ',' !in ": ";
    }
    assert Join(",", parts) == Join([','], parts);
    SplitJoin(parts, ',');
  }

  /** A reviewer task's run: model calls made, delays taken, review returned. */
  datatype Trace = Trace(calls: nat, sleeps: nat, review: Review)

  /** The retry loop from attempt `attempt` on: the first answer is returned;
      after the last failed attempt the Error sentinel is. */
  function RetryFrom(invoke: Invoker, input: seq<Message>, reviewerId: nat, attempt: nat): (t: Trace)
    requires attempt < MaxRetries
    ensures attempt < t.calls <= MaxRetries
    ensures t.sleeps == t.calls - 1
    ensures t.review.reviewerId == reviewerId
    ensures forall j :: attempt <= j < t.calls - 1 ==> invoke(input, reviewerId, j).Failure?
    ensures invoke(input, reviewerId, t.calls - 1).Answer? ==>
      t.review.response == invoke(input, reviewerId, t.calls - 1).response
    ensures invoke(input, reviewerId, t.calls - 1).Failure? ==>
      t.calls == MaxRetries && t.review.response == ErrorSentinel
    decreases MaxRetries - attempt
  {
    match invoke(input, reviewerId, attempt)
    case Answer(c) => Trace(attempt + 1, attempt, Review(reviewerId, c))
    case Failure =>
      if attempt + 1 == MaxRetries then Trace(MaxRetries, MaxRetries - 1, Review(reviewerId, ErrorSentinel))
      else RetryFrom(invoke, input, reviewerId, attempt + 1)
  }

  function Retry(invoke: Invoker, input: seq<Message>, reviewerId: nat): Trace
  {
    RetryFrom(invoke, input, reviewerId, 0)
  }

  /** The first answer within ten attempts is returned, tagged with the
      reviewer id, after one delay per failed attempt before it. */
  lemma RetryReturnsFirstAnswer(invoke: Invoker, input: seq<Message>, reviewerId: nat, k: nat)
    requires k < MaxRetries && invoke(input, reviewerId, k).Answer?
    requires forall j :: 0 <= j < k ==> invoke(input, reviewerId, j).Failure?
    ensures Retry(invoke, input, reviewerId) == Trace(k + 1, k, Review(reviewerId, invoke(input, reviewerId, k).response))
  {
  }

  /** Ten failed attempts give the Error sentinel after nine delays; the
      task never raises. */
  lemma RetryExhausted(invoke: Invoker, input: seq<Message>, reviewerId: nat)
    requires forall j :: 0 <= j < MaxRetries ==> invoke(input, reviewerId, j).Failure?
    ensures Retry(invoke, input, reviewerId) == Trace(10, 9, Review(reviewerId, SpikeClassification(Error, 0.0, "")))
  {
    var t := Retry(invoke, input, reviewerId);
    assert invoke(input, reviewerId, t.calls - 1).Failure?;
  }

  /** The messages a reviewer sends: system prompt, the unit's own messages,
      then the few-shot examples. */
  function InputMessages(ctx: Context, imageMessages: seq<Message>): seq<Message>
  {
    ctx.system + imageMessages + ctx.fewshot
  }

  /** What `process_unit` returns, or the exception it raises. */
  function ReviewerTask(ctx: Context, invoke: Invoker, unitId: int, images: seq<Image>, reviewerId: nat): Result<Trace>
  {
    match ImageMessages(unitId, images, ctx.metrics)
    case Err(e) => Err(e)
    case Ok(im) => Ok(Retry(invoke, InputMessages(ctx, im), reviewerId))
  }

  /** `process_unit`: builds the input, then calls the model until it
      answers or ten attempts have failed. */
  method ProcessUnit(ctx: Context, invoke: Invoker, unitId: int, images: seq<Image>, reviewerId: nat)
    returns (r: Result<Trace>)
    ensures r == ReviewerTask(ctx, invoke, unitId, images, reviewerId)
  {
    var imageMessages := ImageMessages(unitId, images, ctx.metrics);
    if imageMessages.Err? {
      return Err(imageMessages.error);
    }
    var input := ctx.system + imageMessages.value + ctx.fewshot;
    ghost var spec := Retry(invoke, input, reviewerId);
    var attempt: nat := 0;
    var sleeps: nat := 0;
    while attempt < MaxRetries
      invariant attempt <= MaxRetries
      invariant sleeps == if attempt < MaxRetries then attempt else MaxRetries - 1
      invariant attempt < MaxRetries ==> spec == RetryFrom(invoke, input, reviewerId, attempt)
      invariant attempt == MaxRetries ==> spec == Trace(MaxRetries, MaxRetries - 1, Review(reviewerId, ErrorSentinel))
    {
      var outcome := invoke(input, reviewerId, attempt);
      if outcome.Answer? {
        return Ok(Trace(attempt + 1, sleeps, Review(reviewerId, outcome.response)));
      }
      attempt := attempt + 1;
      if attempt < MaxRetries {
        sleeps := sleeps + 1;  // the delay before the next attempt
      }
    }
    r := Ok(Trace(attempt, sleeps, Review(reviewerId, ErrorSentinel)));
  }

  // ------------------------------------------------------------- the panel

  /** The reviewer identities every unit is sent to. */
  const Panel: seq<nat> := [1, 2, 3]

  /** The aggregated record of a unit and the model calls it took. */
  datatype UnitRun = UnitRun(record: Record, calls: nat)

  function ReviewerStep(ctx: Context, invoke: Invoker, unitId: int, images: seq<Image>): nat -> Result<Trace>
  {
    (id: nat) => ReviewerTask(ctx, invoke, unitId, images, id)
  }

  function ReviewsOf(traces: seq<Trace>): (rs: seq<Review>)
    ensures |rs| == |traces|
    ensures forall i :: 0 <= i < |traces| ==> rs[i] == traces[i].review
  {
    seq(|traces|, i requires 0 <= i < |traces| => traces[i].review)
  }

  function CallsOf(traces: seq<Trace>): nat
  {
    if traces == [] then 0 else traces[0].calls + CallsOf(traces[1..])
  }

  /** What `async_run_with_reviewers` returns, or the exception it raises. */
  function EnsembleRun(ctx: Context, invoke: Invoker, unitId: int, images: seq<Image>): Result<UnitRun>
  {
    match Traverse(Panel, ReviewerStep(ctx, invoke, unitId, images))
    case Err(e) => Err(e)
    case Ok(traces) => Ok(UnitRun(Aggregate(ReviewsOf(traces), unitId).value, CallsOf(traces)))
  }

  /** `async_run_with_reviewers`: one reviewer task per panel member, then
      the aggregate of their reviews. */
  method RunWithReviewers(ctx: Context, invoke: Invoker, unitId: int, images: seq<Image>)
    returns (r: Result<UnitRun>)
    ensures r == EnsembleRun(ctx, invoke, unitId, images)
  {
    ghost var f := ReviewerStep(ctx, invoke, unitId, images);
    var traces: seq<Trace> := [];
    var i := 0;
    assert Panel[i..] == Panel;
    ConsUnit(traces, Traverse(Panel, f));
    while i < |Panel|
      invariant 0 <= i <= |Panel|
      invariant Traverse(Panel, f) == Cons(traces, Traverse(Panel[i..], f))
    {
      var review := ProcessUnit(ctx, invoke, unitId, images, Panel[i]);
      TraverseStep(Panel, f, i, traces);
      if review.Err? {
        return Err(review.error);
      }
      traces := traces + [review.value];
      i := i + 1;
    }
    assert Panel[i..] == [];
    ConsUnit(traces, Traverse(Panel, f));
    var aggregated := Aggregate(ReviewsOf(traces), unitId);
    r := Ok(UnitRun(aggregated.value, CallsOf(traces)));
  }

  lemma {:induction false} CallsBounds(traces: seq<Trace>)
    requires forall i :: 0 <= i < |traces| ==> 1 <= traces[i].calls <= MaxRetries
    ensures |traces| <= CallsOf(traces) <= MaxRetries * |traces|
  {
    if traces != [] {
      assert forall i :: 0 <= i < |traces| - 1 ==> traces[1..][i] == traces[i + 1];
      CallsBounds(traces[1..]);
    }
  }

  /** A unit's ensemble: it raises only when its metrics row is missing;
      otherwise its record carries the unit id and aggregates exactly the
      three reviewers' retry results, in panel order, after 3 to 30 model
      calls. */
  lemma EnsembleOutcome(ctx: Context, invoke: Invoker, unitId: int, images: seq<Image>)
    ensures EnsembleRun(ctx, invoke, unitId, images).Err?
        <==> ctx.metrics.Some? && Lookup(ctx.metrics.value, unitId).None?
    ensures EnsembleRun(ctx, invoke, unitId, images).Err? ==>
      EnsembleRun(ctx, invoke, unitId, images).error == KeyError(unitId)
    ensures EnsembleRun(ctx, invoke, unitId, images).Ok? ==>
      var run := EnsembleRun(ctx, invoke, unitId, images).value;
      var input := InputMessages(ctx, ImageMessages(unitId, images, ctx.metrics).value);
      && run.record == Aggregate([Retry(invoke, input, 1).review, Retry(invoke, input, 2).review,
                                  Retry(invoke, input, 3).review], unitId).value
      && run.record.unitId == unitId
      && 3 <= run.calls <= 3 * MaxRetries
  {
    var f := ReviewerStep(ctx, invoke, unitId, images);
    TraverseOk(Panel, f);
    var im := ImageMessages(unitId, images, ctx.metrics);
    if im.Err? {
      TraverseFirstErr(Panel, f, 0);
    } else {
      var traces := Traverse(Panel, f).value;
      var input := InputMessages(ctx, im.value);
      assert traces == [Retry(invoke, input, 1), Retry(invoke, input, 2), Retry(invoke, input, 3)];
      assert ReviewsOf(traces) == [traces[0].review, traces[1].review, traces[2].review];
      CallsBounds(traces);
    }
  }
}
