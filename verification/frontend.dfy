/**
  The status colouring of the browser page (`getStatusColor`, JavaScript
  embedded in the HTML that main.go serves), and how it composes with the
  checker's classification.
 */
module Frontend {
  import opened Decimal
  import opened Checker

  /** The CSS colours the page paints a status cell with. */
  datatype Colour = Green | Orange | Red | Gray | Black {
    function CssName(): string {
      match this
      case Green => "green"
      case Orange => "orange"
      case Red => "red"
      case Gray => "gray"
      case Black => "black"
    }
  }

  /**
    First-match prefix classification of a status string. The patterns
    exclude one another, so each colour is given exactly when its own pattern
    matches, whatever the order of the tests.
   */
  function StatusColour(status: string): (c: Colour)
    ensures c == Green <==> status == "OK"
    ensures c == Orange <==> "HTTP 4" <= status
    ensures c == Red <==> "HTTP 5" <= status
    ensures c == Gray <==> "ERROR" <= status
  {
    if status == "OK" then Green
    else if "HTTP 4" <= status then
      assert status[0] == 'H' && status[5] == '4';
      Orange
    else if "HTTP 5" <= status then
      assert status[0] == 'H';
      Red
    else if "ERROR" <= status then Gray
    else Black
  }

  /** A healthy response is painted green. */
  lemma HealthyIsGreen(code: int)
    requires IsHealthyCode(code)
    ensures StatusColour(Classify(Response(code))) == Green
  {
  }

  /** A transport failure is painted gray, whatever its message. */
  lemma TransportErrorIsGray(msg: string)
    ensures StatusColour(Classify(TransportError(msg))) == Gray
  {
  }

  /**
    The colour of any other response depends on the first character of the
    decimal code: '4' gives orange, '5' red, anything else (including the
    minus sign of a negative code) black.
   */
  lemma ResponseColour(code: int)
    ensures StatusColour(Classify(Response(code))) ==
              if IsHealthyCode(code) then Green
              else if code >= 0 && LeadingDigit(code) == 4 then Orange
              else if code >= 0 && LeadingDigit(code) == 5 then Red
              else Black
  {
    if !IsHealthyCode(code) {
      var digits := IntToDecimal(code);
      var s := Classify(Response(code));
      ClassifyHttpText(code);
      assert s == "HTTP " + digits;
      assert "HTTP 4" <= s <==> digits[0] == '4';
      assert "HTTP 5" <= s <==> digits[0] == '5';
      assert s[0] == 'H';
      if code >= 0 {
        RenderingStartsWithLeadingDigit(code);
        assert digits[0] == DigitChar(LeadingDigit(code));
      } else {
        assert digits[0] == '-';
      }
    }
  }

  /**
    For the three-digit codes an HTTP server sends: 200-399 green, 400-499
    orange, 500-599 red, and every other code (1xx, 6xx-9xx) black.
   */
  lemma ThreeDigitColour(code: int)
    requires 100 <= code <= 999
    ensures StatusColour(Classify(Response(code))) ==
              if 200 <= code < 400 then Green
              else if 400 <= code < 500 then Orange
              else if 500 <= code < 600 then Red
              else Black
  {
    ResponseColour(code);
    ThreeDigitLeadingDigit(code);
  }
}
