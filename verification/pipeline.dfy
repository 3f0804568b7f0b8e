/**
 * The run over all images: each image is analysed or recorded as failed,
 * leak and normal counts are added to run totals from successful images
 * only, and the integration summary is built from those totals.
 *
 * The remote prediction call is not modelled: each input carries the
 * predictions list it returned, or the text of the error it raised.
 */
module Pipeline {
  import opened Common
  import opened Text
  import opened Detections
  import Alerts
  import Aggregate

  /** One image to analyse, with what the prediction call gave back for it. */
  datatype ImageInput = ImageInput(path: string, response: Result<seq<Prediction>, string>)

  /** The record stored for one image: its counts and details, or its error. */
  datatype ImageOutcome =
    | Analyzed(image: string, leakedPumps: nat, normalPumps: nat, totalDetections: nat, detections: seq<Detail>)
    | Failed(image: string, error: string)

  /** `o` is the record the run stores for `input`. */
  predicate Reports(o: ImageOutcome, input: ImageInput) {
    && o.image == ImageName(input.path)
    && match input.response
       case Failure(e) => o.Failed? && o.error == e
       case Success(preds) =>
         && o.Analyzed?
         && o.leakedPumps == CountKind(preds, Leak)
         && o.normalPumps == CountKind(preds, Normal)
         && o.totalDetections == |preds|
         && |o.detections| == |preds|
         && forall i :: 0 <= i < |preds| ==> o.detections[i] == DetailOf(preds[i])
  }

  /** Analyses one image: a failed prediction is recorded with its error and nothing else. */
  method AnalyzeImage(input: ImageInput) returns (o: ImageOutcome)
    ensures Reports(o, input)
    ensures o.Analyzed? ==> o.leakedPumps + o.normalPumps <= o.totalDetections
    ensures o.Analyzed? ==> o.totalDetections == |o.detections|
  {
    var name := ImageName(input.path);
    match input.response {
      case Failure(e) =>
        o := Failed(name, e);
      case Success(preds) =>
        var t := TallyDetections(preds);
        o := Analyzed(name, t.leaked, t.normal, |preds|, t.details);
    }
  }

  function LeaksIn(o: ImageOutcome): nat {
    if o.Analyzed? then o.leakedPumps else 0
  }

  function NormalIn(o: ImageOutcome): nat {
    if o.Analyzed? then o.normalPumps else 0
  }

  function DetectionsIn(o: ImageOutcome): nat {
    if o.Analyzed? then o.totalDetections else 0
  }

  function SucceededIn(o: ImageOutcome): nat {
    if o.Analyzed? then 1 else 0
  }

  function TotalLeaks(results: seq<ImageOutcome>): nat {
    Sum(results, LeaksIn)
  }

  function TotalNormal(results: seq<ImageOutcome>): nat {
    Sum(results, NormalIn)
  }

  function TotalDetections(results: seq<ImageOutcome>): nat {
    Sum(results, DetectionsIn)
  }

  /** The number of images analysed without error. */
  function SuccessCount(results: seq<ImageOutcome>): nat {
    Sum(results, SucceededIn)
  }

  /** Everything one run produces. */
  datatype RunReport = RunReport(
    results: seq<ImageOutcome>,
    totalLeaks: nat,
    totalNormal: nat,
    imagesAnalyzed: nat,
    equipmentMonitored: nat,
    summary: Option<Aggregate.Summary>)

  /** Each stored record is the record of the input at the same position. */
  predicate AllReport(results: seq<ImageOutcome>, inputs: seq<ImageInput>) {
    Pairwise(results, inputs, Reports)
  }

  /**
   * The image loop: one stored record per input, in order, with the run
   * totals accumulated from successful images only.
   */
  method AnalyzeAll(inputs: seq<ImageInput>) returns (results: seq<ImageOutcome>, totalLeaks: nat, totalNormal: nat)
    ensures |results| == |inputs| && AllReport(results, inputs)
    ensures totalLeaks == TotalLeaks(results)
    ensures totalNormal == TotalNormal(results)
  {
    results := [];
    totalLeaks, totalNormal := 0, 0;
    for i := 0 to |inputs|
      invariant |results| == i && AllReport(results, inputs)
      invariant totalLeaks == TotalLeaks(results)
      invariant totalNormal == TotalNormal(results)
    {
      var o := AnalyzeImage(inputs[i]);
      if o.Analyzed? {
        totalLeaks := totalLeaks + o.leakedPumps;
        totalNormal := totalNormal + o.normalPumps;
      }
      TotalsStep(results, o);
      PairwiseAppend(results, inputs, Reports, o);
      results := results + [o];
    }
  }

  /**
   * The whole run: the image loop, the count of images analysed without
   * error, and the summary built from the run totals.
   */
  method RunAll(inputs: seq<ImageInput>) returns (r: RunReport)
    ensures |r.results| == |inputs|
    ensures forall j :: 0 <= j < |inputs| ==> Reports(r.results[j], inputs[j])
    ensures r.totalLeaks == TotalLeaks(r.results)
    ensures r.totalNormal == TotalNormal(r.results)
    ensures r.imagesAnalyzed == SuccessCount(r.results) <= |inputs|
    ensures r.equipmentMonitored == r.totalLeaks + r.totalNormal <= TotalDetections(r.results)
    ensures r.summary.Some? <==> r.totalLeaks > 0 || r.totalNormal > 0
    ensures r.summary == Aggregate.Summarize(r.imagesAnalyzed, r.totalLeaks, r.totalNormal)
  {
    var results, totalLeaks, totalNormal := AnalyzeAll(inputs);
    var analyzed := SuccessCount(results);
    SuccessCountAtMostImages(results);
    forall j | 0 <= j < |results|
      ensures LeaksIn(results[j]) + NormalIn(results[j]) <= DetectionsIn(results[j])
    {
      RecordMatchesInput(results[j], inputs[j]);
    }
    EquipmentAtMostDetections(results);
    r := RunReport(results, totalLeaks, totalNormal, analyzed, totalLeaks + totalNormal,
                   Aggregate.Summarize(analyzed, totalLeaks, totalNormal));
  }

  /** Appending one record adds exactly its own counts to the totals. */
  lemma TotalsStep(results: seq<ImageOutcome>, o: ImageOutcome)
    ensures TotalLeaks(results + [o]) == TotalLeaks(results) + LeaksIn(o)
    ensures TotalNormal(results + [o]) == TotalNormal(results) + NormalIn(o)
  {
    assert (results + [o])[..|results|] == results;
  }

  /** At most one success per image. */
  lemma SuccessCountAtMostImages(results: seq<ImageOutcome>)
    ensures SuccessCount(results) <= |results|
  {
    SumBounded(results, SucceededIn, 1);
  }

  /**
   * One stored record contributes what its input calls for: the counts of a
   * successful response, nothing for a failure; and never more counted pumps
   * than detections.
   */
  lemma RecordMatchesInput(o: ImageOutcome, input: ImageInput)
    requires Reports(o, input)
    ensures LeaksIn(o) == ResponseCount(Leak)(input)
    ensures NormalIn(o) == ResponseCount(Normal)(input)
    ensures SucceededIn(o) == ResponseSucceeded(input)
    ensures LeaksIn(o) + NormalIn(o) <= DetectionsIn(o)
  {
    if input.response.Success? {
      CountsPartition(input.response.value);
    }
  }

  /** Counted pumps never outnumber detections when no record counts more than it detected. */
  lemma {:induction false} EquipmentAtMostDetections(results: seq<ImageOutcome>)
    requires forall j :: 0 <= j < |results| ==> LeaksIn(results[j]) + NormalIn(results[j]) <= DetectionsIn(results[j])
    ensures TotalLeaks(results) + TotalNormal(results) <= TotalDetections(results)
  {
    if |results| > 0 {
      EquipmentAtMostDetections(results[..|results| - 1]);
    }
  }

  /** A failed image adds a record but changes no total and no success count. */
  lemma FailureContributesNothing(results: seq<ImageOutcome>, image: string, error: string)
    ensures |results + [Failed(image, error)]| == |results| + 1
    ensures TotalLeaks(results + [Failed(image, error)]) == TotalLeaks(results)
    ensures TotalNormal(results + [Failed(image, error)]) == TotalNormal(results)
    ensures SuccessCount(results + [Failed(image, error)]) == SuccessCount(results)
  {
    assert (results + [Failed(image, error)])[..|results|] == results;
  }

  /** Run totals of consecutive batches add up. */
  lemma TotalsAppend(a: seq<ImageOutcome>, b: seq<ImageOutcome>)
    ensures TotalLeaks(a + b) == TotalLeaks(a) + TotalLeaks(b)
    ensures TotalNormal(a + b) == TotalNormal(a) + TotalNormal(b)
    ensures SuccessCount(a + b) == SuccessCount(a) + SuccessCount(b)
  {
    SumAppend(a, b, LeaksIn);
    SumAppend(a, b, NormalIn);
    SumAppend(a, b, SucceededIn);
  }

  /** What one response contributes to the count of kind `k`: its detections of that kind, or 0 on failure. */
  function ResponseCount(k: Kind): ImageInput -> nat {
    (input: ImageInput) => match input.response
             case Success(preds) => CountKind(preds, k)
             case Failure(_) => 0
  }

  function ResponseSucceeded(input: ImageInput): nat {
    if input.response.Success? then 1 else 0
  }

  /** Independent reference: the detections of kind `k` over the successful responses. */
  function InputCount(inputs: seq<ImageInput>, k: Kind): nat {
    Sum(inputs, ResponseCount(k))
  }

  /** Independent reference: how many prediction calls succeeded. */
  function InputSuccesses(inputs: seq<ImageInput>): nat {
    Sum(inputs, ResponseSucceeded)
  }

  /**
   * The stored records determine the totals the inputs call for: leaks and
   * normal pumps of successful responses only, and one success per
   * successful call.
   */
  lemma TotalsFollowInputs(results: seq<ImageOutcome>, inputs: seq<ImageInput>)
    requires |results| == |inputs| && AllReport(results, inputs)
    ensures TotalLeaks(results) == InputCount(inputs, Leak)
    ensures TotalNormal(results) == InputCount(inputs, Normal)
    ensures SuccessCount(results) == InputSuccesses(inputs)
  {
    forall j | 0 <= j < |results|
      ensures LeaksIn(results[j]) == ResponseCount(Leak)(inputs[j])
      ensures NormalIn(results[j]) == ResponseCount(Normal)(inputs[j])
      ensures SucceededIn(results[j]) == ResponseSucceeded(inputs[j])
    {
      RecordMatchesInput(results[j], inputs[j]);
    }
    SumPointwise(results, LeaksIn, inputs, ResponseCount(Leak));
    SumPointwise(results, NormalIn, inputs, ResponseCount(Normal));
    SumPointwise(results, SucceededIn, inputs, ResponseSucceeded);
  }

  /** Images with no counted detection produce no summary. */
  lemma NoCountsNoSummary(results: seq<ImageOutcome>, inputs: seq<ImageInput>, imagesAnalyzed: nat)
    requires |results| == |inputs| && AllReport(results, inputs)
    requires InputCount(inputs, Leak) == 0 && InputCount(inputs, Normal) == 0
    ensures Aggregate.Summarize(imagesAnalyzed, TotalLeaks(results), TotalNormal(results)).None?
  {
    TotalsFollowInputs(results, inputs);
  }

  /** A response with no predictions counts nothing. */
  lemma {:induction false} EmptyResponsesCountNothing(inputs: seq<ImageInput>, k: Kind)
    requires forall j :: 0 <= j < |inputs| ==> inputs[j].response.Success? ==> inputs[j].response.value == []
    ensures InputCount(inputs, k) == 0
  {
    if |inputs| > 0 {
      EmptyResponsesCountNothing(inputs[..|inputs| - 1], k);
    }
  }

  /**
   * The alert raised for an analysed image follows its stored record: it
   * names the image, exists iff the response held a leak, and is HIGH iff
   * it held more than one.
   */
  lemma AlertOfRecord(o: ImageOutcome, input: ImageInput)
    requires Reports(o, input) && input.response.Success?
    ensures o.Analyzed? && o.image == ImageName(input.path)
    ensures Alerts.ImageAlert(o.image, o.leakedPumps).Some? <==> CountKind(input.response.value, Leak) > 0
    ensures Alerts.ImageAlert(o.image, o.leakedPumps).Some? ==>
              (Alerts.ImageAlert(o.image, o.leakedPumps).value.severity == Alerts.High <==> CountKind(input.response.value, Leak) > 1)
  {
  }

  /** Two "Leaking_Pump" detections: two leaks, a HIGH alert with risk 9. */
  lemma TwoLeakingPumpsExample(image: string)
    ensures var p := Prediction(Some("Leaking_Pump"), Some(0.85), None, None, None, None);
      && CountKind([p, p], Leak) == 2
      && Alerts.ImageAlert(image, 2).Some?
      && Alerts.ImageAlert(image, 2).value.severity == Alerts.High
      && Alerts.ImageAlert(image, 2).value.riskScore == 9
  {
    var p := Prediction(Some("Leaking_Pump"), Some(0.85), None, None, None, None);
    LeakingPumpIsLeak();
    assert KindOf(p) == Leak;
    assert Indicator(Leak)(p) == 1;
    assert [p][..0] == [];
    assert Sum([p], Indicator(Leak)) == 1;
    assert [p, p][..1] == [p];
  }
}
