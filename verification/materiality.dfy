/** The materiality scorer: a base score from a table keyed by event type and
    subtype (or, for a spread move, a step function of the move in percentage
    points), four fixed adjustments, a clamp to [0, 100], a three-way tier
    and a badge per tier. */
module Materiality {
  import opened Wrappers
  import opened EventTypes
  import opened Glyphs

  /** `analystFeedback`: "material" or "not_material". */
  datatype Feedback = Material | NotMaterial

  datatype Tier = High | Medium | Low

  /** The scorer's input; every field but the type may be undefined. */
  datatype EventContext = EventContext(
    eventType: EventType,
    subtype: Option<string>,
    daysToOutsideDate: Option<real>,
    pClose: Option<real>,
    litigationCount: Option<real>,
    spreadMovement: Option<real>,
    analystFeedback: Option<Feedback>)

  datatype Scored = Scored(score: int, tier: Tier, badge: Badge)

  /** `BASE_SCORES["<type>:<subtype>"]`, or None when the key is absent. */
  function TableScore(t: EventType, subtype: string): (r: Option<int>)
    ensures r.Some? ==> 10 <= r.value <= 95
    ensures t.Other? ==> r.None?
  {
    match t
    case Agency =>
      if subtype == "FTC_COMPLAINT" then Some(95)
      else if subtype == "FTC_SECOND_REQUEST" then Some(85)
      else if subtype == "DOJ_PRESS_RELEASE" then Some(80)
      else if subtype == "REGULATORY_APPROVAL" then Some(60)
      else if subtype == "POLICY_STATEMENT" then Some(40)
      else if subtype == "DEFAULT" then Some(70)
      else None
    case Court =>
      if subtype == "INJUNCTION_GRANTED" then Some(90)
      else if subtype == "MOTION_DENIED_TRO" then Some(75)
      else if subtype == "MOTION_GRANTED" then Some(70)
      else if subtype == "DOCKET_ENTRY" then Some(50)
      else if subtype == "DEFAULT" then Some(60)
      else None
    case Filing =>
      if subtype == "S4_DEFM14A" then Some(80)
      else if subtype == "8K_AMENDMENT" then Some(60)
      else if subtype == "10K_10Q" then Some(50)
      else if subtype == "ROUTINE_UPDATE" then Some(40)
      else if subtype == "DEFAULT" then Some(50)
      else None
    case SpreadMove =>
      if subtype == ">5%" then Some(70)
      else if subtype == ">2%" then Some(40)
      else if subtype == ">0.5%" then Some(20)
      else if subtype == "DEFAULT" then Some(10)
      else None
    case News =>
      if subtype == "LAW_FIRM_ALERT" then Some(40)
      else if subtype == "GENERIC" then Some(10)
      else if subtype == "DEFAULT" then Some(20)
      else None
    case Other(_) => None
  }

  /** `BASE_SCORES["<type>:DEFAULT"] || 50` */
  function DefaultScore(t: EventType): (r: int)
    ensures 10 <= r <= 95
    ensures t.Other? ==> r == 50
    ensures !t.Other? ==> Some(r) == TableScore(t, "DEFAULT")
  {
    match TableScore(t, "DEFAULT")
    case Some(v) => if v != 0 then v else 50
    case None => 50
  }

  /** The step function used for a spread move with a defined movement. */
  function SpreadStep(movement: real): int
  {
    var m := Abs(movement);
    if m > 5.0 then 70
    else if m > 2.0 then 40
    else if m > 0.5 then 20
    else 10
  }

  /** `getBaseScore` */
  function BaseScore(c: EventContext): (r: int)
    ensures 10 <= r <= 95
  {
    if c.eventType == SpreadMove && c.spreadMovement.Some? then
      SpreadStep(c.spreadMovement.value)
    else if c.subtype.Some? && c.subtype.value != "" && TableScore(c.eventType, c.subtype.value).Some? then
      TableScore(c.eventType, c.subtype.value).value
    else
      DefaultScore(c.eventType)
  }

  /** +20 exactly when the outside date is known and under 30 days away. */
  function UrgencyAdjustment(daysToOutsideDate: Option<real>): (r: int)
    ensures r == 0 || r == 20
    ensures r == 20 <==> daysToOutsideDate.Some? && daysToOutsideDate.value < 30.0
  {
    if daysToOutsideDate.None? then 0
    else if daysToOutsideDate.value < 30.0 then 20 else 0
  }

  /** +15 exactly when the closing probability is known and under 40. */
  function RiskAdjustment(pClose: Option<real>): (r: int)
    ensures r == 0 || r == 15
    ensures r == 15 <==> pClose.Some? && pClose.value < 40.0
  {
    if pClose.None? then 0
    else if pClose.value < 40.0 then 15 else 0
  }

  /** +10 exactly when the litigation count is known and above 3. */
  function LitigationAdjustment(litigationCount: Option<real>): (r: int)
    ensures r == 0 || r == 10
    ensures r == 10 <==> litigationCount.Some? && litigationCount.value > 3.0
  {
    if litigationCount.None? then 0
    else if litigationCount.value > 3.0 then 10 else 0
  }

  /** -25 exactly when an analyst has overridden the event downwards. */
  function FeedbackAdjustment(feedback: Option<Feedback>): (r: int)
    ensures r == 0 || r == -25
    ensures r == -25 <==> feedback == Some(NotMaterial)
  {
    if feedback == Some(NotMaterial) then -25 else 0
  }

  /** The sum before the clamp. */
  function RawScore(c: EventContext): (r: int)
    ensures BaseScore(c) - 25 <= r <= BaseScore(c) + 45
    ensures c.analystFeedback.None? ==> r >= BaseScore(c)
  {
    BaseScore(c) + UrgencyAdjustment(c.daysToOutsideDate) + RiskAdjustment(c.pClose)
    + LitigationAdjustment(c.litigationCount) + FeedbackAdjustment(c.analystFeedback)
  }

  /** `Math.max(0, Math.min(100, x))` */
  function Clamp(x: int): (r: int)
    ensures 0 <= r <= 100
    ensures 0 <= x <= 100 ==> r == x
    ensures x > 100 ==> r == 100
    ensures x < 0 ==> r == 0
  {
    if x > 100 then 100 else if x < 0 then 0 else x
  }

  /** `calculateMaterialityScore` */
  function Score(c: EventContext): (r: int)
    ensures 0 <= r <= 100
    ensures 0 <= RawScore(c) <= 100 ==> r == RawScore(c)
    ensures RawScore(c) > 100 ==> r == 100
    ensures RawScore(c) < 0 ==> r == 0
  {
    Clamp(RawScore(c))
  }

  /** `getMaterialityTier`: `> 70` is high, `>= 50` medium, so both 70 and 50
      are medium. */
  function TierOf(score: int): (r: Tier)
    ensures r == High <==> score > 70
    ensures r == Medium <==> 50 <= score <= 70
    ensures r == Low <==> score < 50
  {
    if score > 70 then High
    else if score >= 50 then Medium
    else Low
  }

  /** The enumeration's string value, as filters compare it. */
  function TierName(t: Tier): string
  {
    match t
    case High => "HIGH"
    case Medium => "MEDIUM"
    case Low => "LOW"
  }

  /** `getMaterialityBadgeColor`, with the glyphs the source evidently
      intends (see BadgeTextAsWritten). */
  function BadgeColor(t: Tier): (r: Badge)
    ensures r != GreenCircle
    ensures r == RedCircle <==> t == High
  {
    match t
    case High => RedCircle
    case Medium => OrangeCircle
    case Low => YellowCircle
  }

  /** `getMaterialityBadgeColor` as the file stores it: each emoji appears as
      the four characters its UTF-8 bytes read as in Windows-1252. */
  function BadgeTextAsWritten(t: Tier): (r: string)
    ensures |r| == 4 && r != Glyph(BadgeColor(t))
  {
    match t
    case High => "\U{F0}\U{178}\U{201D}\U{B4}"
    case Medium => "\U{F0}\U{178}\U{178}\U{A0}"
    case Low => "\U{F0}\U{178}\U{178}\U{A1}"
  }

  /** `calculateMaterialityWithTier` */
  function ScoreWithTier(c: EventContext): (r: Scored)
    ensures r.score == Score(c) && 0 <= r.score <= 100
    ensures r.tier == TierOf(r.score) && r.badge == BadgeColor(r.tier)
  {
    var score := Score(c);
    var tier := TierOf(score);
    Scored(score, tier, BadgeColor(tier))
  }

  // ---------------------------------------------------------------------
  // Properties of the scorer

  /** The clamp only bites on sums outside [0, 100]: the sum ranges over
      [-15, 140], so both ends are reachable. */
  lemma RawScoreRange(c: EventContext)
    ensures -15 <= RawScore(c) <= 140
  {
  }

  /** Each adjustment depends on its own field alone and has a fixed size. */
  lemma AdjustmentsAreIndependent(c: EventContext)
    ensures RawScore(c) == BaseScore(c)
      + (if c.daysToOutsideDate.Some? && c.daysToOutsideDate.value < 30.0 then 20 else 0)
      + (if c.pClose.Some? && c.pClose.value < 40.0 then 15 else 0)
      + (if c.litigationCount.Some? && c.litigationCount.value > 3.0 then 10 else 0)
      - (if c.analystFeedback == Some(NotMaterial) then 25 else 0)
  {
  }

  /** 29 days to the outside date scores exactly 20 more, before the clamp,
      than 30 days; 30 days scores the same as an undefined date. */
  lemma UrgencyBoundary(c: EventContext)
    ensures RawScore(c.(daysToOutsideDate := Some(29.0)))
         == RawScore(c.(daysToOutsideDate := Some(30.0))) + 20
    ensures RawScore(c.(daysToOutsideDate := Some(30.0)))
         == RawScore(c.(daysToOutsideDate := None))
  {
  }

  /** "not_material" feedback subtracts exactly 25 before the clamp;
      "material" feedback is the same as none. */
  lemma FeedbackOverride(c: EventContext)
    ensures RawScore(c.(analystFeedback := Some(NotMaterial)))
         == RawScore(c.(analystFeedback := None)) - 25
    ensures RawScore(c.(analystFeedback := Some(Material)))
         == RawScore(c.(analystFeedback := None))
  {
  }

  /** For a spread move with a defined movement the base score depends only
      on the movement's magnitude, never on the subtype or the sign, and a
      value exactly on a threshold drops to the lower bucket. */
  lemma SpreadMoveBuckets(c: EventContext, subtype: Option<string>)
    requires c.eventType == SpreadMove && c.spreadMovement.Some?
    ensures BaseScore(c) == BaseScore(c.(subtype := subtype))
    ensures BaseScore(c) == BaseScore(c.(spreadMovement := Some(-c.spreadMovement.value)))
    ensures var m := Abs(c.spreadMovement.value);
      && (BaseScore(c) == 70 <==> m > 5.0)
      && (BaseScore(c) == 40 <==> 2.0 < m <= 5.0)
      && (BaseScore(c) == 20 <==> 0.5 < m <= 2.0)
      && (BaseScore(c) == 10 <==> m <= 0.5)
  {
  }

  /** Outside the spread-move case, a known `type:subtype` key gives its
      table value and an absent, empty or unknown subtype gives the type's
      default. */
  lemma SubtypeLookup(c: EventContext)
    requires !(c.eventType == SpreadMove && c.spreadMovement.Some?)
    ensures c.subtype.Some? && c.subtype.value != "" && TableScore(c.eventType, c.subtype.value).Some?
      ==> BaseScore(c) == TableScore(c.eventType, c.subtype.value).value
    ensures c.subtype.None? || TableScore(c.eventType, c.subtype.value).None?
      ==> BaseScore(c) == DefaultScore(c.eventType)
  {
  }

  /** With no movement, a spread move whose subtype is the table key ">5%"
      scores that key's 70, not the spread-move default 10. */
  lemma SpreadKeyQuirk(c: EventContext)
    requires c.eventType == SpreadMove && c.spreadMovement.None? && c.subtype == Some(">5%")
    ensures BaseScore(c) == 70
    ensures BaseScore(c.(subtype := None)) == 10
  {
  }

  /** A higher score never gives a lower tier, so ordering by score also
      orders by tier. */
  lemma TierMonotone(a: int, b: int)
    requires a <= b
    ensures TierOf(a) == High ==> TierOf(b) == High
    ensures TierOf(b) == Low ==> TierOf(a) == Low
  {
  }

  /** The tier and the badge are functions of the score alone. */
  lemma DeterminedByScore(c1: EventContext, c2: EventContext)
    requires Score(c1) == Score(c2)
    ensures ScoreWithTier(c1) == ScoreWithTier(c2)
  {
  }

  /** Distinct tiers get distinct badges. */
  lemma BadgeDistinguishesTiers(s: Tier, t: Tier)
    ensures BadgeColor(s) == BadgeColor(t) ==> s == t
  {
  }

  /** Worked examples: the formal complaint, the complaint marked not
      material (exactly on the medium boundary), the same event clamped at
      100, a routine filing near its outside date, a docket entry on a
      risky, crowded deal, and undefined-subtype news. */
  lemma WorkedExamples()
    ensures var ftc := EventContext(Agency, Some("FTC_COMPLAINT"), None, None, None, None, None);
      && ScoreWithTier(ftc) == Scored(95, High, RedCircle)
      && ScoreWithTier(ftc.(analystFeedback := Some(NotMaterial))) == Scored(70, Medium, OrangeCircle)
      && Score(ftc.(daysToOutsideDate := Some(10.0), pClose := Some(30.0))) == 100
    ensures Score(EventContext(Filing, Some("ROUTINE_UPDATE"), Some(10.0), None, None, None, None)) == 60
    ensures ScoreWithTier(EventContext(Court, Some("DOCKET_ENTRY"), None, Some(35.0), Some(5.0), None, None)).tier == High
    ensures ScoreWithTier(EventContext(News, None, None, None, None, None, None)) == Scored(20, Low, YellowCircle)
  {
  }

  /** As written, every badge is the Windows-1252 reading of its emoji's
      UTF-8 bytes: four characters instead of the one glyph. */
  lemma BadgeTextMisencoded(t: Tier)
    ensures BadgeTextAsWritten(t) == Misdecoded(Glyph(BadgeColor(t)))
    ensures BadgeTextAsWritten(t) != Glyph(BadgeColor(t))
  {
    MisdecodedGlyph(BadgeColor(t));
  }
}
