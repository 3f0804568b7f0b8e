/**
 * The per-image detection pass: every entry of the inference response's
 * `predictions` list becomes one detail record, and its class name decides
 * whether it counts as a leaked pump, a normal pump, or neither.
 */
module Detections {
  import opened Common
  import opened Text

  /** One entry of the response's `predictions` list; any key may be missing. */
  datatype Prediction = Prediction(
    cls: Option<string>,
    confidence: Option<real>,
    x: Option<real>,
    y: Option<real>,
    width: Option<real>,
    height: Option<real>)

  /** Bounding box of a detection; carried along, never inspected. */
  datatype Box = Box(x: real, y: real, width: real, height: real)

  /** The record kept for each detection in the image result. */
  datatype Detail = Detail(className: string, confidence: real, bbox: Box)

  /** What a class name is counted as. */
  datatype Kind = Leak | Normal | Unmatched

  /** Class name used when a prediction carries none. */
  const DefaultClass: string := "unknown"

  function OrZero(v: Option<real>): real {
    match v
    case Some(r) => r
    case None => 0.0
  }

  function ClassName(p: Prediction): string {
    match p.cls
    case Some(name) => name
    case None => DefaultClass
  }

  /** `r` is what an optional number reads as: its value when present, zero when missing. */
  predicate ReadsAs(v: Option<real>, r: real) {
    match v
    case Some(x) => r == x
    case None => r == 0.0
  }

  /**
   * The detail record of one prediction: a missing class reads as "unknown"
   * and every missing number as zero; present values are kept as they are.
   */
  function DetailOf(p: Prediction): (d: Detail)
    ensures p.cls.Some? ==> d.className == p.cls.value
    ensures p.cls.None? ==> d.className == DefaultClass
    ensures ReadsAs(p.confidence, d.confidence)
    ensures ReadsAs(p.x, d.bbox.x) && ReadsAs(p.y, d.bbox.y)
    ensures ReadsAs(p.width, d.bbox.width) && ReadsAs(p.height, d.bbox.height)
  {
    Detail(ClassName(p), OrZero(p.confidence),
           Box(OrZero(p.x), OrZero(p.y), OrZero(p.width), OrZero(p.height)))
  }

  /**
   * Case-insensitive substring classification. "leak" is tested first, so a
   * name holding both words is a leak; a name holding neither counts nowhere.
   */
  function Classify(name: string): (k: Kind)
    ensures k == Leak <==> Contains(Lower(name), "leak")
    ensures k == Normal <==> !Contains(Lower(name), "leak") && Contains(Lower(name), "normal")
    ensures k == Unmatched <==> !Contains(Lower(name), "leak") && !Contains(Lower(name), "normal")
  {
    var lower := Lower(name);
    if HasSubstring(lower, "leak") then Leak
    else if HasSubstring(lower, "normal") then Normal
    else Unmatched
  }

  function KindOf(p: Prediction): Kind {
    Classify(ClassName(p))
  }

  /** Letter case never changes how a name is counted. */
  lemma ClassifyIgnoresCase(a: string, b: string)
    requires Lower(a) == Lower(b)
    ensures Classify(a) == Classify(b)
  {
  }

  /** Classifying the already lower-cased name gives the same kind. */
  lemma ClassifyLowered(name: string)
    ensures Classify(Lower(name)) == Classify(name)
  {
    LowerIdempotent(name);
    ClassifyIgnoresCase(Lower(name), name);
  }

  /** 1 for a prediction of kind `k`, else 0. */
  function Indicator(k: Kind): Prediction -> nat {
    p => if KindOf(p) == k then 1 else 0
  }

  /** Reference count: how many predictions are of kind `k`. */
  function CountKind(preds: seq<Prediction>, k: Kind): nat {
    Sum(preds, Indicator(k))
  }

  /** Every prediction is of exactly one kind. */
  lemma {:induction false} CountsPartition(preds: seq<Prediction>)
    ensures CountKind(preds, Leak) + CountKind(preds, Normal) + CountKind(preds, Unmatched) == |preds|
  {
    if |preds| > 0 {
      CountsPartition(preds[..|preds| - 1]);
    }
  }

  /** Extending a prefix by one prediction adds 1 to the count of its own kind only. */
  lemma CountStep(preds: seq<Prediction>, i: nat, k: Kind)
    requires i < |preds|
    ensures CountKind(preds[..i + 1], k) == CountKind(preds[..i], k) + if KindOf(preds[i]) == k then 1 else 0
  {
    assert preds[..i + 1][..i] == preds[..i];
  }

  /** The counters and detail list built for one image. */
  datatype Tally = Tally(leaked: nat, normal: nat, details: seq<Detail>)

  /**
   * The detection loop: one detail per prediction, in order, and the leak and
   * normal counters agree with the reference count.
   */
  method TallyDetections(preds: seq<Prediction>) returns (t: Tally)
    ensures t.leaked == CountKind(preds, Leak)
    ensures t.normal == CountKind(preds, Normal)
    ensures t.leaked + t.normal <= |preds|
    ensures |t.details| == |preds|
    ensures forall i :: 0 <= i < |preds| ==> t.details[i] == DetailOf(preds[i])
  {
    var leaked, normal := 0, 0;
    var details: seq<Detail> := [];
    for i := 0 to |preds|
      invariant leaked == CountKind(preds[..i], Leak)
      invariant normal == CountKind(preds[..i], Normal)
      invariant |details| == i
      invariant forall j :: 0 <= j < i ==> details[j] == DetailOf(preds[j])
    {
      var d := DetailOf(preds[i]);
      details := details + [d];
      var kind := Classify(d.className);
      if kind == Leak {
        leaked := leaked + 1;
      } else if kind == Normal {
        normal := normal + 1;
      }
      CountStep(preds, i, Leak);
      CountStep(preds, i, Normal);
    }
    assert preds[..|preds|] == preds;
    CountsPartition(preds);
    t := Tally(leaked, normal, details);
  }

  /** Tallying the same predictions twice gives identical counters and details. */
  method TallyIsRepeatable(preds: seq<Prediction>) returns (first: Tally, second: Tally)
    ensures first == second
  {
    first := TallyDetections(preds);
    second := TallyDetections(preds);
    assert first.details == second.details;
  }

  /** A class name such as "Leaking_Pump" counts as a leak. */
  lemma LeakingPumpIsLeak()
    ensures Classify("Leaking_Pump") == Leak
  {
    var a := Lower("Leaking_Pump");
    assert a[0] == 'l' && a[1] == 'e' && a[2] == 'a' && a[3] == 'k';
    assert a[0..4] == "leak";
    assert OccursAt("leak", a, 0);
  }

  /** Upper-case "NORMAL" is still a normal pump. */
  lemma UpperNormalIsNormal()
    ensures Classify("NORMAL pump") == Normal
  {
    var b := Lower("NORMAL pump");
    assert b[0] == 'n' && b[1] == 'o' && b[2] == 'r' && b[3] == 'm' && b[4] == 'a' && b[5] == 'l';
    assert b[0..6] == "normal";
    assert OccursAt("normal", b, 0);
    assert forall i :: 0 <= i < |b| ==> b[i] != 'e';
    MissingCharNotContained(b, "leak", 1);
  }

  /** Every name holding both words counts as a leak: the leak test comes first. */
  lemma LeakTakesPrecedence(name: string)
    requires Contains(Lower(name), "leak") && Contains(Lower(name), "normal")
    ensures Classify(name) == Leak
  {
  }

  /** "normal_with_leak" holds both words and counts as a leak. */
  lemma NormalWithLeakIsLeak()
    ensures Classify("normal_with_leak") == Leak
  {
    var c := Lower("normal_with_leak");
    assert c[12] == 'l' && c[13] == 'e' && c[14] == 'a' && c[15] == 'k';
    assert c[12..16] == "leak";
    assert OccursAt("leak", c, 12);
  }

  /** A prediction without a class name counts as neither kind. */
  lemma DefaultClassIsUnmatched()
    ensures Classify(DefaultClass) == Unmatched
  {
    var u := Lower(DefaultClass);
    assert forall i :: 0 <= i < |u| ==> u[i] == DefaultClass[i];
    assert u == DefaultClass;
    assert 'l' !in u;
    assert 'r' !in u;
    MissingCharNotContained(u, "leak", 0);
    MissingCharNotContained(u, "normal", 2);
  }
}
