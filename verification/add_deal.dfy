/** The "Add Deal" form: ticker validation, the error messages recorded per
    field, and the deal record built from a valid submission. */
module AddDeal {
  import opened Wrappers
  import opened Text

  const RequiredAcquirer := "Acquirer ticker is required"
  const RequiredTarget := "Target ticker is required"
  const InvalidFormat := "Invalid ticker format (1-5 uppercase letters)"

  /** `/^[A-Z]{1,5}$/`, matched left to right: `atLeast` more letters are
      required and `atMost` more are allowed. */
  predicate MatchesUpperRun(t: string, atLeast: nat, atMost: nat)
  {
    if t == [] then atLeast == 0
    else atMost > 0 && IsUpperAscii(t[0]) && MatchesUpperRun(t[1..], if atLeast > 0 then atLeast - 1 else 0, atMost - 1)
  }

  lemma {:induction false} MatchesUpperRunMeaning(t: string, atLeast: nat, atMost: nat)
    ensures MatchesUpperRun(t, atLeast, atMost) <==>
      atLeast <= |t| <= atMost && forall i :: 0 <= i < |t| ==> IsUpperAscii(t[i])
  {
    if t != [] && atMost > 0 {
      MatchesUpperRunMeaning(t[1..], if atLeast > 0 then atLeast - 1 else 0, atMost - 1);
      assert forall i :: 1 <= i < |t| ==> t[i] == t[1..][i - 1];
    }
  }

  /** `validateTicker`: one to five letters A to Z and nothing else. */
  predicate ValidateTicker(t: string)
    ensures ValidateTicker(t) <==> 1 <= |t| <= 5 && forall i :: 0 <= i < |t| ==> IsUpperAscii(t[i])
  {
    MatchesUpperRunMeaning(t, 1, 5);
    MatchesUpperRun(t, 1, 5)
  }

  /** The error recorded for one ticker field, if any: blank after trimming
      is "required"; otherwise the upper-cased, untrimmed text must be a
      valid ticker. */
  function TickerError(ticker: string, required: string): (r: Option<string>)
    ensures Trim(ticker) == [] ==> r == Some(required)
    ensures Trim(ticker) != [] ==> (r.None? <==> ValidateTicker(Upper(ticker)))
    ensures r.Some? ==> r.value == required || r.value == InvalidFormat
    ensures Trim(ticker) != [] && r.Some? ==> r.value == InvalidFormat
  {
    if Trim(ticker) == [] then Some(required)
    else if !ValidateTicker(Upper(ticker)) then Some(InvalidFormat)
    else None
  }

  /** The clock readings a submission uses: `Date.now()` as decimal text,
      and today's date and the dates 180 and 365 days ahead, as ISO dates. */
  datatype Clock = Clock(nowMillis: string, today: string, in180Days: string, in365Days: string)

  datatype Deal = Deal(
    id: string,
    symbol: string,
    acquirerSymbol: string,
    companyName: string,
    acquirerName: string,
    announcementDate: string,
    acquisitionDate: string,
    outsideDate: string,
    reportedEquityTakeoverValue: real,
    considerationType: string,
    pCloseBase: real,
    spreadEntryThreshold: real,
    currentSpread: real,
    ev: real,
    status: string,
    regulatoryFlags: seq<string>,
    litigationCount: int)

  /** The record built for a valid submission. */
  function NewDeal(acquirerTicker: string, targetTicker: string, dealName: string, clock: Clock): (d: Deal)
    ensures d.symbol == Upper(targetTicker) && d.acquirerSymbol == Upper(acquirerTicker)
    ensures d.acquirerName == Upper(acquirerTicker) + " Corp."
    ensures Trim(dealName) != [] ==> d.companyName == Trim(dealName)
    ensures Trim(dealName) == [] ==> d.companyName == Upper(targetTicker) + " Inc."
    ensures d.id == "deal-" + clock.nowMillis
    ensures d.announcementDate == clock.today && d.acquisitionDate == clock.in180Days && d.outsideDate == clock.in365Days
    ensures d.pCloseBase == 50.0 && d.spreadEntryThreshold == 3.0
    ensures d.status == "ANNOUNCED" && d.considerationType == "CASH" && d.litigationCount == 0
    ensures d.regulatoryFlags == [] && d.currentSpread == 0.0 && d.ev == 0.0 && d.reportedEquityTakeoverValue == 0.0
  {
    var companyName := if Trim(dealName) != [] then Trim(dealName) else Upper(targetTicker) + " Inc.";
    Deal("deal-" + clock.nowMillis, Upper(targetTicker), Upper(acquirerTicker), companyName,
      Upper(acquirerTicker) + " Corp.", clock.today, clock.in180Days, clock.in365Days,
      0.0, "CASH", 50.0, 3.0, 0.0, 0.0, "ANNOUNCED", [], 0)
  }

  /** `handleSubmit`: record an error per field; if any was recorded, return
      them and build nothing; otherwise build the deal. */
  method HandleSubmit(acquirerTicker: string, targetTicker: string, dealName: string, clock: Clock)
    returns (r: Result<Deal, map<string, string>>)
    ensures r.Failure? <==> TickerError(acquirerTicker, RequiredAcquirer).Some? || TickerError(targetTicker, RequiredTarget).Some?
    ensures r.Failure? ==>
      && r.error.Keys <= {"acquirer", "target"}
      && ("acquirer" in r.error <==> TickerError(acquirerTicker, RequiredAcquirer).Some?)
      && ("acquirer" in r.error ==> r.error["acquirer"] == TickerError(acquirerTicker, RequiredAcquirer).value)
      && ("target" in r.error <==> TickerError(targetTicker, RequiredTarget).Some?)
      && ("target" in r.error ==> r.error["target"] == TickerError(targetTicker, RequiredTarget).value)
    ensures r.Success? ==> r.value == NewDeal(acquirerTicker, targetTicker, dealName, clock)
  {
    var errors: map<string, string> := map[];
    var acquirerError := TickerError(acquirerTicker, RequiredAcquirer);
    if acquirerError.Some? {
      errors := errors["acquirer" := acquirerError.value];
    }
    var targetError := TickerError(targetTicker, RequiredTarget);
    if targetError.Some? {
      errors := errors["target" := targetError.value];
    }
    assert errors == map[] <==> acquirerError.None? && targetError.None? by {
      if acquirerError.Some? {
        assert "acquirer" in errors && errors != map[];
      } else if targetError.Some? {
        assert "target" in errors && errors != map[];
      }
    }
    if errors != map[] {
      return Failure(errors);
    }
    return Success(NewDeal(acquirerTicker, targetTicker, dealName, clock));
  }

  /** A deal is built only from two tickers that are valid once upper-cased,
      so its two symbols are valid tickers. */
  lemma ProducedSymbolsValid(acquirerTicker: string, targetTicker: string, dealName: string, clock: Clock)
    ensures TickerError(acquirerTicker, RequiredAcquirer).None? && TickerError(targetTicker, RequiredTarget).None? ==>
      && ValidateTicker(NewDeal(acquirerTicker, targetTicker, dealName, clock).symbol)
      && ValidateTicker(NewDeal(acquirerTicker, targetTicker, dealName, clock).acquirerSymbol)
  {
  }

  /** Upper-casing is not trimming: " MSFT" is not blank, and its upper-cased
      form starts with a space, so it is reported as a format error. */
  lemma LeadingSpaceRejected()
    ensures TickerError(" MSFT", RequiredAcquirer) == Some(InvalidFormat)
  {
    assert !IsJsWhitespace('M');
    assert Trim(" MSFT") != [] by {
      assert !IsJsWhitespace(" MSFT"[1]);
    }
    assert Upper(" MSFT")[0] == ' ';
  }
}
