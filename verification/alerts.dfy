/**
 * The simulated per-image alert raised when an image shows at least one
 * leaked pump: a severity, a risk score out of 10 and a message.
 */
module Alerts {
  import opened Common
  import Decimal

  datatype Severity = Medium | High

  /** The severity as the alert prints it; each label reads back as its own severity. */
  function SeverityLabel(s: Severity): (t: string)
    ensures SeverityOf(t) == Some(s)
  {
    match s
    case Medium => "MEDIUM"
    case High => "HIGH"
  }

  /** The severity a printed label names, if any. */
  function SeverityOf(t: string): Option<Severity> {
    if t == "MEDIUM" then Some(Medium)
    else if t == "HIGH" then Some(High)
    else None
  }

  datatype Alert = Alert(severity: Severity, riskScore: int, message: string)

  /**
   * The per-image risk score out of 10: 7 for one leak, 9 for two, and the
   * cap of 10 from three leaks on.
   */
  function ImageRisk(leaked: nat): (r: int)
    ensures leaked < 3 ==> r == 5 + 2 * leaked
    ensures r == 10 <==> leaked >= 3
    ensures r <= 10
  {
    Min(10, 5 + 2 * leaked)
  }

  /**
   * The alert for an image with `leaked` leaked pumps: none without leaks;
   * HIGH for more than one leak, MEDIUM for exactly one.
   */
  function ImageAlert(image: string, leaked: nat): (a: Option<Alert>)
    ensures a.Some? <==> leaked > 0
    ensures a.Some? ==> (a.value.severity == High <==> leaked > 1)
    ensures a.Some? ==> a.value.riskScore == ImageRisk(leaked)
    ensures a.Some? ==> 7 <= a.value.riskScore <= 10
  {
    if leaked > 0 then
      var severity := if leaked > 1 then High else Medium;
      var message := Decimal.Show(leaked) + " pump leak(s) detected in " + image;
      Some(Alert(severity, ImageRisk(leaked), message))
    else
      None
  }

  /** More leaks never lower the per-image risk score. */
  lemma ImageRiskMonotone(a: nat, b: nat)
    requires a <= b
    ensures ImageRisk(a) <= ImageRisk(b)
  {
  }

  /** The alert message starts with the leak count, read back exactly. */
  lemma AlertMessageCount(image: string, leaked: nat)
    requires leaked > 0
    ensures ImageAlert(image, leaked).Some?
    ensures Decimal.ParseFramed("", " pump leak(s) detected in " + image,
                                ImageAlert(image, leaked).value.message) == Some(leaked)
  {
    var suffix := " pump leak(s) detected in " + image;
    assert ImageAlert(image, leaked).value.message == "" + Decimal.Show(leaked) + suffix;
    Decimal.FramedRoundTrip("", leaked, suffix);
  }
}
