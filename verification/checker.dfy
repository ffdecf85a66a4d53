/**
  The URL checker's classification (`checkURL` in main.go). The HTTP GET
  itself is not modelled: its result arrives as an `Outcome`, either the
  status code of the response that came back or the description of the
  transport failure (DNS, refused connection, TLS, the 800 ms timeout).
 */
module Checker {
  import opened Wrappers
  import opened Decimal

  datatype Outcome = Response(code: int) | TransportError(msg: string)

  /** The codes the checker reports as healthy: 2xx and 3xx. */
  predicate IsHealthyCode(code: int) {
    200 <= code < 400
  }

  /**
    The display string for an outcome: "OK", "HTTP <code>" or "ERROR: <message>".
    Each of the three shapes is produced exactly for its kind of outcome, and
    the code or message can be read back from the string.
   */
  function Classify(o: Outcome): (status: string)
    ensures status == "OK" <==> o.Response? && IsHealthyCode(o.code)
    ensures "HTTP " <= status <==> o.Response? && !IsHealthyCode(o.code)
    ensures "ERROR: " <= status <==> o.TransportError?
    ensures o.Response? && !IsHealthyCode(o.code) ==>
              |status| > 5 && ParseInt(status[5..]) == Some(o.code)
    ensures o.TransportError? ==> |status| >= 7 && status[7..] == o.msg
  {
    match o
    case TransportError(msg) =>
      var s := "ERROR: " + msg;
      assert s[7..] == msg && s[0] == 'E';
      s
    case Response(code) =>
      if IsHealthyCode(code) then "OK"
      else
        var s := "HTTP " + IntToDecimal(code);
        assert s[5..] == IntToDecimal(code) && s[0] == 'H';
        s
  }

  /** What an outcome means to a user of the checker, as a tagged value. */
  datatype Health = Healthy | HttpFailure(code: int) | Unreachable(reason: string)

  function Meaning(o: Outcome): Health {
    match o
    case Response(code) => if IsHealthyCode(code) then Healthy else HttpFailure(code)
    case TransportError(msg) => Unreachable(msg)
  }

  /** Reads a display string back as a tagged value; `None` for a string of no known shape. */
  function ReadStatus(s: string): Option<Health> {
    if s == "OK" then Some(Healthy)
    else if "HTTP " <= s then
      match ParseInt(s[5..])
      case Some(code) => Some(HttpFailure(code))
      case None => None
    else if "ERROR: " <= s then Some(Unreachable(s[7..]))
    else None
  }

  /** Reading a classification back gives the meaning of the outcome: nothing is lost. */
  lemma ReadClassify(o: Outcome)
    ensures ReadStatus(Classify(o)) == Some(Meaning(o))
  {
  }

  /** Two outcomes with the same display string mean the same thing. */
  lemma ClassifyDistinguishes(o1: Outcome, o2: Outcome)
    requires Classify(o1) == Classify(o2)
    ensures Meaning(o1) == Meaning(o2)
  {
    ReadClassify(o1);
    ReadClassify(o2);
  }

  /** A non-healthy code is written as "HTTP " followed by exactly its `%d` rendering. */
  lemma ClassifyHttpText(code: int)
    requires !IsHealthyCode(code)
    ensures Classify(Response(code)) == "HTTP " + IntToDecimal(code)
  {
    var s := Classify(Response(code));
    ParseIntExact(s[5..], code);
    assert s == s[..5] + s[5..];
  }
}
