// The assistant's request: the context brief built from the last fourteen
// rows of the frame, the user message that appends the question to it, and
// the gate that answers without calling the service when no client exists.
// Turning numbers and dates into text is left to a `Formats` value supplied
// by the caller, so the model fixes the structure of the text and not the
// digits.

module Narrative {

  import opened Common
  import opened Metrics
  import opened Trends

  /** A number as it appears on a line of the brief. */
  datatype Figure =
    | Count(n: int)                              // `{int(...)}`
    | Decimal(x: real, places: nat, unit: string) // `{x:.2f} jours`, `{x:.1f}%`, ...

  /** One line of the context text. */
  datatype Line =
    | Text(s: string)              // fixed text: headers, rules, blank lines
    | Period(from: int, to: int)   // `📅 Période: <from> - <to>`
    | Item(caption: string, figure: Figure) // `• <caption>: <figure>`

  /** The renderers of the host language: `strftime('%d/%m/%Y')`, `str(int)`, `:.Nf`. */
  datatype Formats = Formats(date: int -> string, integer: int -> string, decimal: (real, nat) -> string)

  const NoDataText: string := "Aucune donnée SOC disponible pour l'analyse."
  const UnavailableText: string := "❌ Service Groq non disponible. Vérifiez votre clé API."
  const QuestionSeparator: string := "\n\n❓ QUESTION SOC:\n"

  /** The five labelled metric lines, in order. */
  function MetricLines(s: TrendSummary): seq<Line>
  {
    [ Item("Anomalies détectées", Count(s.totalAnomalies)),
      Item("Sessions haut risque", Count(s.totalHighRisk)),
      Item("Incidents critiques", Count(s.totalCritical)),
      Item("MTTR moyen", Decimal(s.meanDurationDays, 2, " jours")),
      Item("Réputation IP moyenne", Decimal(s.meanIpReputation, 2, "")) ]
  }

  /** The two labelled trend lines, in order. */
  function TrendLines(s: TrendSummary): seq<Line>
  {
    [ Item("Évolution anomalies", Decimal(s.anomalyDeltaPct, 1, "%")),
      Item("Évolution risque", Decimal(s.riskDeltaPct, 1, "%")) ]
  }

  /** The banner and period lines that open the brief. */
  function BriefHeader(s: TrendSummary): seq<Line>
  {
    [ Text(""),
      Text("🔐 CONTEXTE SOC - SECUREOPS PLATFORM"),
      Text("================================================"),
      Period(s.periodStart, s.periodEnd),
      Text(""),
      Text("📊 MÉTRIQUES CLÉS:") ]
  }

  /** The brief: banner, period, metric block, trend block, trailing blank line. */
  function Brief(s: TrendSummary): seq<Line>
  {
    BriefHeader(s) + MetricLines(s) + [ Text(""), Text("📈 TENDANCES:") ] + TrendLines(s) + [ Text("") ]
  }

  /** The labelled lines of a text, in order: what a reader of the brief can read off it. */
  function Items(lines: seq<Line>): (items: seq<Line>)
    ensures |items| <= |lines|
    ensures forall i :: 0 <= i < |items| ==> items[i].Item?
  {
    if lines == [] then []
    else (if lines[0].Item? then [lines[0]] else []) + Items(lines[1..])
  }

  lemma {:induction false} ItemsAppend(a: seq<Line>, b: seq<Line>)
    ensures Items(a + b) == Items(a) + Items(b)
  {
    if a == [] {
      assert a + b == b;
    } else {
      assert (a + b)[1..] == a[1..] + b;
      ItemsAppend(a[1..], b);
    }
  }

  lemma {:induction false} ItemsOfItems(a: seq<Line>)
    requires forall i :: 0 <= i < |a| ==> a[i].Item?
    ensures Items(a) == a
  {
    if a != [] {
      ItemsOfItems(a[1..]);
    }
  }

  lemma {:induction false} ItemsOfTexts(a: seq<Line>)
    requires forall i :: 0 <= i < |a| ==> a[i].Text? || a[i].Period?
    ensures Items(a) == []
  {
    if a != [] {
      ItemsOfTexts(a[1..]);
    }
  }

  /**
   * The brief has sixteen lines of which exactly seven are labelled: the
   * five metric lines and then the two trend lines, which report the
   * summary's totals, means and deltas in this order.
   */
  lemma BriefReportsSummary(s: TrendSummary)
    ensures |Brief(s)| == 16
    ensures Items(Brief(s)) == MetricLines(s) + TrendLines(s)
    ensures |Items(Brief(s))| == 7
  {
    var head, metrics, trends := BriefHeader(s), MetricLines(s), TrendLines(s);
    var mid: seq<Line> := [ Text(""), Text("📈 TENDANCES:") ];
    var last: seq<Line> := [ Text("") ];
    assert Brief(s) == head + metrics + mid + trends + last;
    ItemsOfTexts(head);
    ItemsOfTexts(mid);
    ItemsOfTexts(last);
    ItemsOfItems(metrics);
    ItemsOfItems(trends);
    ItemsAppend(head, metrics);
    assert Items(head + metrics) == metrics;
    ItemsAppend(head + metrics, mid);
    assert Items(head + metrics + mid) == metrics;
    ItemsAppend(head + metrics + mid, trends);
    assert Items(head + metrics + mid + trends) == metrics + trends;
    ItemsAppend(head + metrics + mid + trends, last);
  }

  /**
   * The context of `groq_soc_analysis`: the no-data line when the frame is
   * missing or empty, otherwise the brief of its last fourteen rows.
   */
  function Context(frame: Option<seq<DailyMetric>>): (lines: seq<Line>)
    ensures frame.None? || frame.value == [] ==> lines == [Text(NoDataText)]
    ensures frame.Some? && frame.value != [] ==>
      var s := Summarize(frame.value, ContextWindow);
      s.Some? && lines == Brief(s.value)
  {
    if frame.None? || frame.value == [] then [Text(NoDataText)]
    else Brief(Summarize(frame.value, ContextWindow).value)
  }

  /** The no-data context has no metric and no trend line. */
  lemma NoDataHasNoItems(frame: Option<seq<DailyMetric>>)
    requires frame.None? || frame.value == []
    ensures Items(Context(frame)) == []
  {
    ItemsOfTexts(Context(frame));
  }

  function RenderFigure(f: Figure, fmt: Formats): string
  {
    match f
    case Count(n) => fmt.integer(n)
    case Decimal(x, places, unit) => fmt.decimal(x, places) + unit
  }

  function RenderLine(l: Line, fmt: Formats): string
  {
    match l
    case Text(s) => s
    case Period(from, to) => "📅 Période: " + fmt.date(from) + " - " + fmt.date(to)
    case Item(caption, f) => "• " + caption + ": " + RenderFigure(f, fmt)
  }

  /** The lines joined by newlines, as the triple-quoted f-string lays them out. */
  function Render(lines: seq<Line>, fmt: Formats): string
  {
    if lines == [] then ""
    else if |lines| == 1 then RenderLine(lines[0], fmt)
    else RenderLine(lines[0], fmt) + "\n" + Render(lines[1..], fmt)
  }

  /** Without data the context text is exactly the no-data sentence. */
  lemma NoDataRendering(frame: Option<seq<DailyMetric>>, fmt: Formats)
    requires frame.None? || frame.value == []
    ensures Render(Context(frame), fmt) == NoDataText
  {
  }

  /** The brief's text opens and closes with a newline, like the f-string. */
  lemma BriefFraming(s: TrendSummary, fmt: Formats)
    ensures var t := Render(Brief(s), fmt); |t| >= 2 && t[0] == '\n' && t[|t| - 1] == '\n'
  {
    var b := Brief(s);
    RenderEndsWithEmpty(b, fmt);
  }

  lemma {:induction false} RenderEndsWithEmpty(lines: seq<Line>, fmt: Formats)
    requires |lines| >= 2 && lines[|lines| - 1] == Text("")
    ensures var t := Render(lines, fmt); |t| >= 1 && t[|t| - 1] == '\n'
  {
    assert Render(lines, fmt) == RenderLine(lines[0], fmt) + "\n" + Render(lines[1..], fmt);
    if |lines| > 2 {
      RenderEndsWithEmpty(lines[1..], fmt);
    } else {
      assert lines[1..] == [Text("")];
      assert Render(lines[1..], fmt) == "";
    }
  }

  /** `f"{context}\n\n❓ QUESTION SOC:\n{question}"`. */
  function UserMessage(context: string, question: string): (m: string)
    ensures |m| == |context| + |QuestionSeparator| + |question|
    ensures m[..|context|] == context
    ensures m[|context|..|context| + |QuestionSeparator|] == QuestionSeparator
    ensures m[|context| + |QuestionSeparator|..] == question
  {
    context + QuestionSeparator + question
  }

  /** The question is recovered from the message verbatim: composing loses nothing. */
  function QuestionOf(context: string, m: string): string
    requires |context| + |QuestionSeparator| <= |m|
  {
    m[|context| + |QuestionSeparator|..]
  }

  lemma QuestionRoundTrip(context: string, question: string)
    ensures QuestionOf(context, UserMessage(context, question)) == question
  {
  }

  /** Two different questions under the same context give two different messages. */
  lemma UserMessageInjective(context: string, q1: string, q2: string)
    requires UserMessage(context, q1) == UserMessage(context, q2)
    ensures q1 == q2
  {
    QuestionRoundTrip(context, q1);
    QuestionRoundTrip(context, q2);
  }

  /** What `groq_soc_analysis` does before the network: stop early, or ask. */
  datatype Request = NoService | Ask(userMessage: string)

  function Prepare(hasClient: bool, question: string, frame: Option<seq<DailyMetric>>, fmt: Formats): (req: Request)
    ensures req.NoService? <==> !hasClient
    ensures hasClient ==>
      req.userMessage == UserMessage(Render(Context(frame), fmt), question) &&
      QuestionOf(Render(Context(frame), fmt), req.userMessage) == question
  {
    if !hasClient then NoService
    else Ask(UserMessage(Render(Context(frame), fmt), question))
  }

  /**
   * The text `groq_soc_analysis` returns: the unavailable message when there
   * is no client, otherwise the service's reply (a parameter: the service is
   * outside the model), passed through unchanged.
   */
  function Answer(req: Request, reply: string): (text: string)
    ensures req.NoService? ==> text == UnavailableText
    ensures req.Ask? ==> text == reply
  {
    match req
    case NoService => UnavailableText
    case Ask(_) => reply
  }

  /** Without a client the reply is never consulted: every reply gives the same text. */
  lemma NoClientIgnoresService(question: string, frame: Option<seq<DailyMetric>>, fmt: Formats, r1: string, r2: string)
    ensures Answer(Prepare(false, question, frame, fmt), r1) == Answer(Prepare(false, question, frame, fmt), r2) == UnavailableText
  {
  }
}
