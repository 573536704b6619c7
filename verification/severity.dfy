/** The severity scorer, a near-copy of the materiality scorer: the spread
    move is measured in basis points, feedback reads "critical" or
    "not_critical", and the three levels are critical, warning and info. */
module Severity {
  import opened Wrappers
  import opened EventTypes
  import opened Glyphs

  /** `analystFeedback`: "critical" or "not_critical". */
  datatype Feedback = MarkedCritical | MarkedNotCritical

  datatype Level = Critical | Warning | Info

  /** The scorer's input; every field but the type may be undefined. */
  datatype EventContext = EventContext(
    eventType: EventType,
    subtype: Option<string>,
    daysToOutsideDate: Option<real>,
    pClose: Option<real>,
    litigationCount: Option<real>,
    spreadMoveBps: Option<real>,
    analystFeedback: Option<Feedback>)

  datatype Scored = Scored(score: int, level: Level, badge: Badge)

  /** `BASE_SCORES["<type>:<subtype>"]`, or None when the key is absent. */
  function TableScore(t: EventType, subtype: string): (r: Option<int>)
    ensures r.Some? ==> 10 <= r.value <= 95
    ensures t.Other? ==> r.None?
  {
    match t
    case Agency =>
      if subtype == "FTC_COMPLAINT" then Some(95)
      else if subtype == "FTC_SECOND_REQUEST" then Some(85)
      else if subtype == "DOJ_PRESS_RELEASE" then Some(80)
      else if subtype == "REGULATORY_APPROVAL" then Some(60)
      else if subtype == "POLICY_STATEMENT" then Some(40)
      else if subtype == "DEFAULT" then Some(70)
      else None
    case Court =>
      if subtype == "INJUNCTION_GRANTED" then Some(90)
      else if subtype == "MOTION_DENIED_TRO" then Some(75)
      else if subtype == "MOTION_GRANTED" then Some(70)
      else if subtype == "DOCKET_ENTRY" then Some(50)
      else if subtype == "DEFAULT" then Some(60)
      else None
    case Filing =>
      if subtype == "S4_DEFM14A" then Some(80)
      else if subtype == "8K_AMENDMENT" then Some(60)
      else if subtype == "10K_10Q" then Some(50)
      else if subtype == "ROUTINE_UPDATE" then Some(40)
      else if subtype == "DEFAULT" then Some(50)
      else None
    case SpreadMove =>
      if subtype == ">500" then Some(70)
      else if subtype == ">200" then Some(40)
      else if subtype == ">50" then Some(20)
      else if subtype == "DEFAULT" then Some(10)
      else None
    case News =>
      if subtype == "LAW_FIRM_ALERT" then Some(40)
      else if subtype == "GENERIC" then Some(10)
      else if subtype == "DEFAULT" then Some(20)
      else None
    case Other(_) => None
  }

  /** `BASE_SCORES["<type>:DEFAULT"] || 50` */
  function DefaultScore(t: EventType): (r: int)
    ensures 10 <= r <= 95
    ensures t.Other? ==> r == 50
    ensures !t.Other? ==> Some(r) == TableScore(t, "DEFAULT")
  {
    match TableScore(t, "DEFAULT")
    case Some(v) => if v != 0 then v else 50
    case None => 50
  }

  /** The step function used for a spread move with a defined movement,
      in basis points. */
  function SpreadStep(bps: real): int
  {
    var m := Abs(bps);
    if m > 500.0 then 70
    else if m > 200.0 then 40
    else if m > 50.0 then 20
    else 10
  }

  /** `getBaseScore` */
  function BaseScore(c: EventContext): (r: int)
    ensures 10 <= r <= 95
  {
    if c.eventType == SpreadMove && c.spreadMoveBps.Some? then
      SpreadStep(c.spreadMoveBps.value)
    else if c.subtype.Some? && c.subtype.value != "" && TableScore(c.eventType, c.subtype.value).Some? then
      TableScore(c.eventType, c.subtype.value).value
    else
      DefaultScore(c.eventType)
  }

  /** +20 exactly when the outside date is known and under 30 days away. */
  function UrgencyAdjustment(daysToOutsideDate: Option<real>): (r: int)
    ensures r == 0 || r == 20
    ensures r == 20 <==> daysToOutsideDate.Some? && daysToOutsideDate.value < 30.0
  {
    if daysToOutsideDate.None? then 0
    else if daysToOutsideDate.value < 30.0 then 20 else 0
  }

  /** +15 exactly when the closing probability is known and under 40. */
  function RiskAdjustment(pClose: Option<real>): (r: int)
    ensures r == 0 || r == 15
    ensures r == 15 <==> pClose.Some? && pClose.value < 40.0
  {
    if pClose.None? then 0
    else if pClose.value < 40.0 then 15 else 0
  }

  /** +10 exactly when the litigation count is known and above 3. */
  function LitigationAdjustment(litigationCount: Option<real>): (r: int)
    ensures r == 0 || r == 10
    ensures r == 10 <==> litigationCount.Some? && litigationCount.value > 3.0
  {
    if litigationCount.None? then 0
    else if litigationCount.value > 3.0 then 10 else 0
  }

  /** -25 exactly when an analyst has overridden the event downwards. */
  function FeedbackAdjustment(feedback: Option<Feedback>): (r: int)
    ensures r == 0 || r == -25
    ensures r == -25 <==> feedback == Some(MarkedNotCritical)
  {
    if feedback == Some(MarkedNotCritical) then -25 else 0
  }

  /** The sum before the clamp. */
  function RawScore(c: EventContext): (r: int)
    ensures BaseScore(c) - 25 <= r <= BaseScore(c) + 45
    ensures c.analystFeedback.None? ==> r >= BaseScore(c)
  {
    BaseScore(c) + UrgencyAdjustment(c.daysToOutsideDate) + RiskAdjustment(c.pClose)
    + LitigationAdjustment(c.litigationCount) + FeedbackAdjustment(c.analystFeedback)
  }

  /** `Math.max(0, Math.min(100, x))` */
  function Clamp(x: int): (r: int)
    ensures 0 <= r <= 100
    ensures 0 <= x <= 100 ==> r == x
    ensures x > 100 ==> r == 100
    ensures x < 0 ==> r == 0
  {
    if x > 100 then 100 else if x < 0 then 0 else x
  }

  /** `calculateSeverityScore` */
  function Score(c: EventContext): (r: int)
    ensures 0 <= r <= 100
    ensures 0 <= RawScore(c) <= 100 ==> r == RawScore(c)
    ensures RawScore(c) > 100 ==> r == 100
    ensures RawScore(c) < 0 ==> r == 0
  {
    Clamp(RawScore(c))
  }

  /** `getSeverityLevel`: `> 70` is critical, `>= 50` a warning, so both 70
      and 50 are warnings. */
  function LevelOf(score: int): (r: Level)
    ensures r == Critical <==> score > 70
    ensures r == Warning <==> 50 <= score <= 70
    ensures r == Info <==> score < 50
  {
    if score > 70 then Critical
    else if score >= 50 then Warning
    else Info
  }

  /** `getSeverityBadgeColor`, with the glyphs the source evidently intends
      (see BadgeTextAsWritten). */
  function BadgeColor(l: Level): (r: Badge)
    ensures r != OrangeCircle
    ensures r == RedCircle <==> l == Critical
  {
    match l
    case Critical => RedCircle
    case Warning => YellowCircle
    case Info => GreenCircle
  }

  /** `getSeverityBadgeColor` as the file stores it: each emoji appears as
      the four characters its UTF-8 bytes read as in Windows-1252. */
  function BadgeTextAsWritten(l: Level): (r: string)
    ensures |r| == 4 && r != Glyph(BadgeColor(l))
  {
    match l
    case Critical => "\U{F0}\U{178}\U{201D}\U{B4}"
    case Warning => "\U{F0}\U{178}\U{178}\U{A1}"
    case Info => "\U{F0}\U{178}\U{178}\U{A2}"
  }

  /** `calculateSeverityWithLevel` */
  function ScoreWithLevel(c: EventContext): (r: Scored)
    ensures r.score == Score(c) && 0 <= r.score <= 100
    ensures r.level == LevelOf(r.score) && r.badge == BadgeColor(r.level)
  {
    var score := Score(c);
    var level := LevelOf(score);
    Scored(score, level, BadgeColor(level))
  }

  // ---------------------------------------------------------------------
  // Properties of the scorer

  /** Each adjustment depends on its own field alone and has a fixed size;
      only "not_critical" feedback subtracts. */
  lemma AdjustmentsAreIndependent(c: EventContext)
    ensures RawScore(c) == BaseScore(c)
      + (if c.daysToOutsideDate.Some? && c.daysToOutsideDate.value < 30.0 then 20 else 0)
      + (if c.pClose.Some? && c.pClose.value < 40.0 then 15 else 0)
      + (if c.litigationCount.Some? && c.litigationCount.value > 3.0 then 10 else 0)
      - (if c.analystFeedback == Some(MarkedNotCritical) then 25 else 0)
  {
  }

  /** For a spread move with a defined size the base score depends only on
      the magnitude in basis points, with each threshold value dropping to
      the lower bucket. */
  lemma SpreadMoveBuckets(c: EventContext, subtype: Option<string>)
    requires c.eventType == SpreadMove && c.spreadMoveBps.Some?
    ensures BaseScore(c) == BaseScore(c.(subtype := subtype))
    ensures var m := Abs(c.spreadMoveBps.value);
      && (BaseScore(c) == 70 <==> m > 500.0)
      && (BaseScore(c) == 40 <==> 200.0 < m <= 500.0)
      && (BaseScore(c) == 20 <==> 50.0 < m <= 200.0)
      && (BaseScore(c) == 10 <==> m <= 50.0)
  {
  }

  /** The level and the badge are functions of the score alone. */
  lemma DeterminedByScore(c1: EventContext, c2: EventContext)
    requires Score(c1) == Score(c2)
    ensures ScoreWithLevel(c1) == ScoreWithLevel(c2)
  {
  }

  /** As written, every badge is the Windows-1252 reading of its emoji's
      UTF-8 bytes. */
  lemma BadgeTextMisencoded(l: Level)
    ensures BadgeTextAsWritten(l) == Misdecoded(Glyph(BadgeColor(l)))
    ensures BadgeTextAsWritten(l) != Glyph(BadgeColor(l))
  {
    MisdecodedGlyph(BadgeColor(l));
  }
}
