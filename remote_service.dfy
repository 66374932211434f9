/**
 * The Retry-After hint carried by `ServiceUnavailableException`: the
 * header text is read with Java's `Integer.parseInt`, and any text that
 * does not parse (including a missing header) stands for 0 seconds.
 */
module RemoteService {
  import opened Wrappers
  import opened JavaInt

  predicate IsDigit(c: char) { '0' <= c <= '9' }

  predicate AllDigits(s: string) {
    forall i :: 0 <= i < |s| ==> IsDigit(s[i])
  }

  /** The number a non-empty run of decimal digits denotes, most significant first. */
  function DigitsValue(s: string): (v: nat)
    requires AllDigits(s)
  {
    if s == [] then 0
    else DigitsValue(s[..|s| - 1]) * 10 + (s[|s| - 1] as int - '0' as int)
  }

  /**
   * `Integer.parseInt`: an optional `+` or `-`, then at least one decimal
   * digit, and a value that fits in an `int`.  A null string, like every
   * other text, gives None when it is not such a numeral.
   */
  function ParseInt(text: Option<string>): (r: Option<int>)
    ensures text.None? ==> r.None?
    ensures r.Some? ==> IsInt(r.value)
    ensures text == Some([]) ==> r.None?
  {
    match text
    case None => None
    case Some(s) =>
      var negative := |s| > 0 && s[0] == '-';
      var digits := if |s| > 0 && (s[0] == '-' || s[0] == '+') then s[1..] else s;
      if digits == [] || !AllDigits(digits) then None
      else
        var magnitude: int := DigitsValue(digits);
        var v := if negative then -magnitude else magnitude;
        if IsInt(v) then Some(v) else None
  }

  /** The decimal numeral of a natural number, without sign or leading zeros. */
  function ShowNat(n: nat): (s: string)
    ensures |s| > 0 && AllDigits(s)
  {
    if n < 10 then ['0' + n as char]
    else ShowNat(n / 10) + ['0' + (n % 10) as char]
  }

  /** `Integer.toString`: the decimal numeral of an integer, `-` before a negative one. */
  function ShowInt(n: int): string {
    if n < 0 then "-" + ShowNat(-n) else ShowNat(n)
  }

  lemma {:induction false} DigitsOfShowNat(n: nat)
    ensures DigitsValue(ShowNat(n)) == n
  {
    if n >= 10 {
      DigitsOfShowNat(n / 10);
      var s := ShowNat(n);
      assert s[..|s| - 1] == ShowNat(n / 10);
    }
  }

  /** `parseInt` reads back every `int` that `toString` writes. */
  lemma ParseShowInt(n: int)
    requires IsInt(n)
    ensures ParseInt(Some(ShowInt(n))) == Some(n)
  {
    var m := if n < 0 then -n else n;
    DigitsOfShowNat(m);
    var s := ShowInt(n);
    if n < 0 {
      assert s[1..] == ShowNat(m);
    } else {
      assert s[0] != '-' && s[0] != '+';
    }
  }

  /** `parseInt` rejects the numeral of every number outside the `int` range. */
  lemma ParseShowOutOfRange(n: int)
    requires !IsInt(n)
    ensures ParseInt(Some(ShowInt(n))) == None
  {
    var m := if n < 0 then -n else n;
    DigitsOfShowNat(m);
    var s := ShowInt(n);
    if n < 0 {
      assert s[1..] == ShowNat(m);
    } else {
      assert s[0] != '-' && s[0] != '+';
    }
  }

  /** A character that is neither a digit nor a leading sign makes the text unparsable. */
  lemma ParseRejectsNonDigit(s: string, i: nat)
    requires i < |s| && !IsDigit(s[i])
    requires i > 0 || (s[i] != '+' && s[i] != '-')
    ensures ParseInt(Some(s)) == None
  {
    var signed := |s| > 0 && (s[0] == '-' || s[0] == '+');
    if signed {
      assert i > 0 && s[1..][i - 1] == s[i];
    }
  }

  /** Seconds of Retry-After fixed when the exception is built: the parsed hint, else 0. */
  function RetryAfterSeconds(header: Option<string>): (seconds: int)
    ensures IsInt(seconds)
    ensures ParseInt(header).Some? ==> seconds == ParseInt(header).value
    ensures ParseInt(header).None? ==> seconds == 0
  {
    ParseInt(header).GetOr(0)
  }

  /** A Retry-After header that is a numeral in `int` range gives that many seconds. */
  lemma RetryAfterOfNumeral(n: int)
    requires IsInt(n)
    ensures RetryAfterSeconds(Some(ShowInt(n))) == n
  {
    ParseShowInt(n);
  }

  /** A Retry-After header that is a numeral outside `int` range gives 0. */
  lemma RetryAfterOfHugeNumeral(n: int)
    requires !IsInt(n)
    ensures RetryAfterSeconds(Some(ShowInt(n))) == 0
  {
    ParseShowOutOfRange(n);
  }

  /** A missing or non-numeric Retry-After header gives 0. */
  lemma RetryAfterOfGarbage(header: Option<string>, i: nat)
    requires header.Some? ==> i < |header.value| && !IsDigit(header.value[i])
                              && (i > 0 || (header.value[i] != '+' && header.value[i] != '-'))
    ensures RetryAfterSeconds(header) == 0
  {
    if header.Some? {
      ParseRejectsNonDigit(header.value, i);
    }
  }

  /** The exception the poster raises for HTTP 503 responses. */
  class ServiceUnavailable {
    const message: string
    const retryAfter: int

    constructor (message: string, retryAfterHeader: Option<string>)
      ensures this.message == message
      ensures retryAfter == RetryAfterSeconds(retryAfterHeader)
    {
      this.message := message;
      retryAfter := RetryAfterSeconds(retryAfterHeader);
    }

    /** The hint fixed at construction; the field is immutable. */
    function GetRetryAfter(): (seconds: int)
    {
      retryAfter
    }
  }
}
