/**
 * Classification of an HTTP response by its status code. The response
 * handler tests the code, rendered as text, against the pattern
 * `^[45]\d{2}$`; a match is a failed segment (the 4xx and 5xx classes of
 * sections 15.5 and 15.6 of RFC 9110), and the progress line then says
 * "not found" for 404, "expired" for 403 and a generic error otherwise.
 * Every other code, 3xx included, takes the success path.
 */
module Status {
  import opened Text

  datatype Outcome = Success | NotFound | Expired | HttpError

  /** The response-status pattern `^[45]\d{2}$` applied to a whole string. */
  predicate MatchesErrorPattern(s: string) {
    |s| == 3 && (s[0] == '4' || s[0] == '5') && IsDigit(s[1]) && IsDigit(s[2])
  }

  /** The textual pattern picks out exactly the numeric range 400..599. */
  lemma StatusPatternIff(code: nat)
    ensures MatchesErrorPattern(DecimalString(code)) <==> 400 <= code <= 599
  {
    DecimalLength(code);
    if 100 <= code < 1000 {
      HundredsDigit(code);
      assert DecimalString(code)[0] == '4' <==> code / 100 == 4;
      assert DecimalString(code)[0] == '5' <==> code / 100 == 5;
    }
  }

  /** The branch the response handler takes for a status code. */
  function Classify(code: nat): (o: Outcome)
    ensures o != Success <==> 400 <= code <= 599
    ensures o == NotFound <==> code == 404
    ensures o == Expired <==> code == 403
  {
    StatusPatternIff(code);
    if !MatchesErrorPattern(DecimalString(code)) then Success
    else if code == 404 then NotFound
    else if code == 403 then Expired
    else HttpError
  }
}
