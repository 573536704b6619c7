/** How the two near-duplicate scorers relate: with the spread move given in
    basis points as 100 times its percentage and "not_critical" standing for
    "not_material", they compute the same score, and the levels match the
    tiers one for one. */
module ScoringAgreement {
  import opened Wrappers
  import opened EventTypes
  import M = Materiality
  import S = Severity

  function SeverityFeedback(f: Option<M.Feedback>): Option<S.Feedback>
  {
    if f.None? then None
    else if f.value == M.NotMaterial then Some(S.MarkedNotCritical)
    else Some(S.MarkedCritical)
  }

  function LevelOfTier(t: M.Tier): S.Level
  {
    if t == M.High then S.Critical
    else if t == M.Medium then S.Warning
    else S.Info
  }

  /** The severity context describing the same event as a materiality one. */
  predicate Corresponds(m: M.EventContext, s: S.EventContext)
  {
    && s.eventType == m.eventType
    && s.subtype == m.subtype
    && s.daysToOutsideDate == m.daysToOutsideDate
    && s.pClose == m.pClose
    && s.litigationCount == m.litigationCount
    && (if m.spreadMovement.None? then s.spreadMoveBps.None?
        else s.spreadMoveBps == Some(100.0 * m.spreadMovement.value))
    && s.analystFeedback == SeverityFeedback(m.analystFeedback)
  }

  /** A spread move without a movement whose subtype names one of the
      threshold keys: the only inputs on which the two tables differ. */
  predicate SpreadKeyWithoutMovement(m: M.EventContext)
  {
    && m.eventType == SpreadMove
    && m.spreadMovement.None?
    && m.subtype.Some?
    && m.subtype.value in {">5%", ">2%", ">0.5%", ">500", ">200", ">50"}
  }

  lemma LevelsMatchTiers(score: int)
    ensures S.LevelOf(score) == LevelOfTier(M.TierOf(score))
  {
  }

  lemma BaseScoresAgree(m: M.EventContext, s: S.EventContext)
    requires Corresponds(m, s) && !SpreadKeyWithoutMovement(m)
    ensures S.BaseScore(s) == M.BaseScore(m)
  {
    if m.eventType == SpreadMove && m.spreadMovement.Some? {
      var p := m.spreadMovement.value;
      assert Abs(100.0 * p) == 100.0 * Abs(p);
    } else if m.subtype.Some? && m.subtype.value != "" {
      assert S.TableScore(s.eventType, m.subtype.value) == M.TableScore(m.eventType, m.subtype.value);
    }
  }

  /** The cross-file equivalence: same score, and the level corresponding to
      the tier. */
  lemma ScoresAgree(m: M.EventContext, s: S.EventContext)
    requires Corresponds(m, s) && !SpreadKeyWithoutMovement(m)
    ensures S.Score(s) == M.Score(m)
    ensures S.ScoreWithLevel(s).level == LevelOfTier(M.ScoreWithTier(m).tier)
  {
    BaseScoresAgree(m, s);
    LevelsMatchTiers(M.Score(m));
  }

  /** The excluded inputs do differ: with no movement, subtype ">5%" scores
      70 as materiality and 10 as severity. */
  lemma SpreadKeysDiverge()
    ensures var m := M.EventContext(SpreadMove, Some(">5%"), None, None, None, None, None);
      var s := S.EventContext(SpreadMove, Some(">5%"), None, None, None, None, None);
      Corresponds(m, s) && M.Score(m) == 70 && S.Score(s) == 10
  {
  }

  /** The badges do not follow the correspondence: a medium tier is orange
      but a warning is yellow, a low tier yellow but info green. */
  lemma BadgesDiffer()
    ensures M.BadgeColor(M.Medium) != S.BadgeColor(LevelOfTier(M.Medium))
    ensures M.BadgeColor(M.Low) != S.BadgeColor(LevelOfTier(M.Low))
    ensures M.BadgeColor(M.High) == S.BadgeColor(LevelOfTier(M.High))
  {
  }
}
