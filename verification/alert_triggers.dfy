/** Alert routing: which external channels a score triggers and what delivery
    deadline applies, under a configurable pair of thresholds, and the
    subject line of an alert. The configuration, which the source loads from
    browser storage, is a parameter here. */
module AlertTriggers {
  import opened Wrappers
  import opened Glyphs
  import M = Materiality

  datatype AlertConfig = AlertConfig(
    highThreshold: int,
    mediumThreshold: int,
    emailEnabled: bool,
    slackEnabled: bool,
    webhookEnabled: bool,
    webhookUrl: Option<string>)

  datatype AlertChannels = AlertChannels(email: bool, slack: bool, webhook: bool)

  const NoChannels := AlertChannels(false, false, false)

  datatype AlertPayload = AlertPayload(
    eventId: string,
    eventTitle: string,
    eventType: string,
    materialityScore: int,
    materialityTier: M.Tier,
    dealId: string,
    dealName: Option<string>,
    timestamp: string,
    inboxLink: string)

  /** `getDefaultAlertConfig`: thresholds 70 and 50, e-mail and Slack on,
      webhook off. */
  function DefaultAlertConfig(): (r: AlertConfig)
    ensures r.highThreshold == 70 && r.mediumThreshold == 50
    ensures r.emailEnabled && r.slackEnabled && !r.webhookEnabled
  {
    AlertConfig(70, 50, true, true, false, None)
  }

  /** `determineAlertChannels`: above the high threshold every channel
      follows its switch; from the medium threshold up to the high one e-mail
      is off and the others follow their switches; below, nothing. */
  function DetermineAlertChannels(score: int, config: AlertConfig): (r: AlertChannels)
    ensures score > config.highThreshold
      ==> r == AlertChannels(config.emailEnabled, config.slackEnabled, config.webhookEnabled)
    ensures config.mediumThreshold <= score <= config.highThreshold
      ==> r == AlertChannels(false, config.slackEnabled, config.webhookEnabled)
    ensures score < config.mediumThreshold && score <= config.highThreshold ==> r == NoChannels
    ensures r.email ==> score > config.highThreshold
  {
    if score > config.highThreshold then
      AlertChannels(config.emailEnabled, config.slackEnabled, config.webhookEnabled)
    else if score >= config.mediumThreshold then
      AlertChannels(false, config.slackEnabled, config.webhookEnabled)
    else
      NoChannels
  }

  /** `getAlertSLA`, in seconds: 60 above the high threshold, 300 from the
      medium threshold up, 0 (no alert) below. */
  function AlertSLA(score: int, config: AlertConfig): (r: int)
    ensures score > config.highThreshold ==> r == 60
    ensures config.mediumThreshold <= score <= config.highThreshold ==> r == 300
    ensures r != 0 <==> score > config.highThreshold || score >= config.mediumThreshold
  {
    if score > config.highThreshold then 60
    else if score >= config.mediumThreshold then 300
    else 0
  }

  /** A score that gets no delivery deadline triggers no channel, whatever
      the switches say. */
  lemma NoSLANoChannels(score: int, config: AlertConfig)
    ensures AlertSLA(score, config) == 0 ==> DetermineAlertChannels(score, config) == NoChannels
  {
  }

  /** Under the default configuration, routing follows the materiality tier:
      e-mail exactly for high, Slack for high and medium, webhook never, and
      the deadline is 60 s, 300 s or none by tier. */
  lemma DefaultRoutingFollowsTier(score: int)
    ensures var ch := DetermineAlertChannels(score, DefaultAlertConfig());
      && (ch.email <==> M.TierOf(score) == M.High)
      && (ch.slack <==> M.TierOf(score) != M.Low)
      && !ch.webhook
    ensures AlertSLA(score, DefaultAlertConfig())
      == (match M.TierOf(score) case High => 60 case Medium => 300 case Low => 0)
  {
  }

  /** The glyph `formatAlertPayload` puts in front of the subject. */
  function SubjectGlyph(tier: M.Tier): string
  {
    if tier == M.High then "\U{1F534}"
    else if tier == M.Medium then "\U{1F7E0}"
    else "\U{1F7E1}"
  }

  /** The subject line of `formatAlertPayload`: the tier's glyph (the same
      one the materiality scorer means for that tier), the tier name, and
      the event title at the end. */
  function Subject(p: AlertPayload): (r: string)
    ensures |r| > |p.eventTitle|
    ensures r[..1] == Glyph(M.BadgeColor(p.materialityTier))
    ensures r[|r| - |p.eventTitle|..] == p.eventTitle
    ensures r == Glyph(M.BadgeColor(p.materialityTier)) + " " + M.TierName(p.materialityTier) + " Alert: " + p.eventTitle
  {
    SubjectGlyph(p.materialityTier) + " " + M.TierName(p.materialityTier) + " Alert: " + p.eventTitle
  }

  /** Subjects of two alerts differ whenever their tiers do. */
  lemma SubjectShowsTier(p: AlertPayload, q: AlertPayload)
    requires p.materialityTier != q.materialityTier
    ensures Subject(p) != Subject(q)
  {
    M.BadgeDistinguishesTiers(p.materialityTier, q.materialityTier);
    GlyphInjective(M.BadgeColor(p.materialityTier), M.BadgeColor(q.materialityTier));
    assert Subject(p)[..1] != Subject(q)[..1];
  }
}
