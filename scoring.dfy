// The "Analyser ML" page: the anomaly score returned by the Isolation
// Forest is turned into a risk tier and into the ordered list of recommended
// actions.  The page does this with two separate if/elif/else chains on the
// same score, one for the verdict card and one for the actions panel.

module Scoring {

  import opened Common

  /** The three risk levels shown on the verdict card. */
  datatype Tier = Critique | Eleve | Faible

  /** The recommended actions, in the wording of the actions panel. */
  datatype Action =
    | Escalate | Isolate | Forensics | AlertRssi
    | ReinforceMonitoring | TrackEvolution | CheckCorrelations
    | Approve | LogForAudit | ContinueMonitoring

  /** The six features of a network session fed to the classifier. */
  datatype SessionFeatures = SessionFeatures(
    packetSize: int,
    loginAttempts: int,
    failedLogins: int,
    sessionDurationSeconds: int,
    ipReputationScore: real,
    unusualTimeAccess: bool)

  datatype Assessment = Assessment(score: real, tier: Tier, actions: seq<Action>)

  datatype Verdict = ModelUnavailable(message: string) | Assessed(assessment: Assessment)

  const CriticalThreshold: real := -0.10

  /** The verdict chain: `< -0.10` is CRITIQUE, else `< 0` is ÉLEVÉ, else FAIBLE. */
  function TierOf(score: real): (t: Tier)
    ensures t == Critique <==> score < -0.10
    ensures t == Eleve <==> -0.10 <= score < 0.0
    ensures t == Faible <==> 0.0 <= score
  {
    if score < CriticalThreshold then Critique
    else if score < 0.0 then Eleve
    else Faible
  }

  /** The fixed action list attached to each tier. */
  function ActionsOf(t: Tier): seq<Action>
  {
    match t
    case Critique => [Escalate, Isolate, Forensics, AlertRssi]
    case Eleve => [ReinforceMonitoring, TrackEvolution, CheckCorrelations]
    case Faible => [Approve, LogForAudit, ContinueMonitoring]
  }

  /** The actions chain, written on the score independently of `TierOf`. */
  function RecommendedActions(score: real): (acts: seq<Action>)
    ensures score < -0.10 ==> acts == [Escalate, Isolate, Forensics, AlertRssi]
    ensures -0.10 <= score < 0.0 ==> acts == [ReinforceMonitoring, TrackEvolution, CheckCorrelations]
    ensures 0.0 <= score ==> acts == [Approve, LogForAudit, ContinueMonitoring]
  {
    if score < CriticalThreshold then [Escalate, Isolate, Forensics, AlertRssi]
    else if score < 0.0 then [ReinforceMonitoring, TrackEvolution, CheckCorrelations]
    else [Approve, LogForAudit, ContinueMonitoring]
  }

  /** The two chains agree: the actions shown are always those of the tier shown. */
  lemma ActionsAgreeWithTier(score: real)
    ensures RecommendedActions(score) == ActionsOf(TierOf(score))
    ensures |RecommendedActions(score)| == if TierOf(score) == Critique then 4 else 3
  {
  }

  /** No action is recommended by two tiers, so the list identifies the tier. */
  lemma ActionsIdentifyTier(s1: real, s2: real)
    ensures RecommendedActions(s1) == RecommendedActions(s2) <==> TierOf(s1) == TierOf(s2)
  {
    var a1, a2 := RecommendedActions(s1), RecommendedActions(s2);
    if TierOf(s1) != TierOf(s2) {
      assert a1[0] != a2[0];
    }
  }

  /** Scores are ordered the same way as risk: a lower score never gives a lower risk. */
  lemma TierMonotone(s1: real, s2: real)
    requires s1 <= s2
    ensures TierOf(s2) == Critique ==> TierOf(s1) == Critique
    ensures TierOf(s1) == Faible ==> TierOf(s2) == Faible
  {
  }

  /** The text of each action as the panel prints it. */
  function ActionText(a: Action): string
  {
    match a
    case Escalate => "🚨 **ESCALADE IMMÉDIATE** niveau 3"
    case Isolate => "🔒 **ISOLER** session/IP"
    case Forensics => "📊 **FORENSICS** complet"
    case AlertRssi => "📞 **ALERTER** RSSI"
    case ReinforceMonitoring => "⚠️ **SURVEILLANCE** renforcée"
    case TrackEvolution => "📈 **MONITORER** évolution"
    case CheckCorrelations => "🔎 **VÉRIFIER** corrélations"
    case Approve => "✅ **APPROUVER** session"
    case LogForAudit => "📊 **LOGGER** pour audit"
    case ContinueMonitoring => "🔄 **CONTINUER** surveillance"
  }

  /** The label printed on the verdict card. */
  function TierLabel(t: Tier): string
  {
    match t
    case Critique => "CRITIQUE"
    case Eleve => "ÉLEVÉ"
    case Faible => "FAIBLE"
  }

  /** Two tiers never share a card label: the label tells the tier. */
  lemma TierLabelIdentifies(t1: Tier, t2: Tier)
    ensures TierLabel(t1) == TierLabel(t2) <==> t1 == t2
  {
    if t1 != t2 {
      assert TierLabel(t1)[0] != TierLabel(t2)[0] || |TierLabel(t1)| != |TierLabel(t2)|;
    }
  }

  /** The actions panel's markdown: one `"• "` bullet per action, joined by newlines. */
  function Panel(acts: seq<Action>): string
  {
    if acts == [] then ""
    else if |acts| == 1 then "• " + ActionText(acts[0])
    else "• " + ActionText(acts[0]) + "\n" + Panel(acts[1..])
  }

  /** A panel of several actions is the first bullet, a newline and the panel of the rest. */
  lemma PanelCons(a: Action, rest: seq<Action>)
    requires rest != []
    ensures Panel([a] + rest) == "• " + ActionText(a) + "\n" + Panel(rest)
  {
    assert ([a] + rest)[1..] == rest;
  }

  /** The markdown of the CRITIQUE panel. */
  lemma PanelCritique()
    ensures Panel(ActionsOf(Critique)) ==
      "• " + "🚨 **ESCALADE IMMÉDIATE** niveau 3" + "\n" +
      "• " + "🔒 **ISOLER** session/IP" + "\n" +
      "• " + "📊 **FORENSICS** complet" + "\n" +
      "• " + "📞 **ALERTER** RSSI"
  {
    PanelCons(Forensics, [AlertRssi]);
    PanelCons(Isolate, [Forensics, AlertRssi]);
    PanelCons(Escalate, [Isolate, Forensics, AlertRssi]);
  }

  /** The markdown of the ÉLEVÉ panel. */
  lemma PanelEleve()
    ensures Panel(ActionsOf(Eleve)) ==
      "• " + "⚠️ **SURVEILLANCE** renforcée" + "\n" +
      "• " + "📈 **MONITORER** évolution" + "\n" +
      "• " + "🔎 **VÉRIFIER** corrélations"
  {
    PanelCons(TrackEvolution, [CheckCorrelations]);
    PanelCons(ReinforceMonitoring, [TrackEvolution, CheckCorrelations]);
  }

  /** The markdown of the FAIBLE panel. */
  lemma PanelFaible()
    ensures Panel(ActionsOf(Faible)) ==
      "• " + "✅ **APPROUVER** session" + "\n" +
      "• " + "📊 **LOGGER** pour audit" + "\n" +
      "• " + "🔄 **CONTINUER** surveillance"
  {
    PanelCons(LogForAudit, [ContinueMonitoring]);
    PanelCons(Approve, [LogForAudit, ContinueMonitoring]);
  }

  /** The panel printed for a score is, range by range, the source's literal markdown. */
  lemma PanelOfScore(score: real)
    ensures score < -0.10 ==> (Panel(RecommendedActions(score)) ==
      "• " + "🚨 **ESCALADE IMMÉDIATE** niveau 3" + "\n" +
      "• " + "🔒 **ISOLER** session/IP" + "\n" +
      "• " + "📊 **FORENSICS** complet" + "\n" +
      "• " + "📞 **ALERTER** RSSI")
    ensures -0.10 <= score < 0.0 ==> (Panel(RecommendedActions(score)) ==
      "• " + "⚠️ **SURVEILLANCE** renforcée" + "\n" +
      "• " + "📈 **MONITORER** évolution" + "\n" +
      "• " + "🔎 **VÉRIFIER** corrélations")
    ensures 0.0 <= score ==> (Panel(RecommendedActions(score)) ==
      "• " + "✅ **APPROUVER** session" + "\n" +
      "• " + "📊 **LOGGER** pour audit" + "\n" +
      "• " + "🔄 **CONTINUER** surveillance")
  {
    ActionsAgreeWithTier(score);
    PanelCritique();
    PanelEleve();
    PanelFaible();
  }

  /**
   * The page as a whole: with no model loaded it stops with an error and
   * never scores; otherwise the classifier (a parameter standing for the
   * loaded artifact) scores the features once and both chains are applied.
   */
  function Analyze(model: Option<SessionFeatures -> real>, f: SessionFeatures): (v: Verdict)
    ensures model.None? <==> v.ModelUnavailable?
    ensures model.None? ==> v.message == "❌ Modèle ML non disponible"
    ensures model.Some? ==>
      var s := model.value(f);
      v.assessment.score == s &&
      v.assessment.tier == TierOf(s) &&
      v.assessment.actions == ActionsOf(TierOf(s))
  {
    match model
    case None => ModelUnavailable("❌ Modèle ML non disponible")
    case Some(decision) =>
      var s := decision(f);
      ActionsAgreeWithTier(s);
      Assessed(Assessment(s, TierOf(s), RecommendedActions(s)))
  }
}
