/**
 * The prompt builders of `OpenAi/prompt.py`. Each builder appends one piece per
 * `prompt +=` statement; an optional clause is added only for a non-empty
 * argument, and an empty argument is otherwise replaced by a fixed default phrase
 * (Python's `x if x else 'default'`). Bodies below group the concatenation by
 * those statements.
 */
module OpenAiPrompt {

  /** Python's `s if s else default` for a string `s`. */
  function OrDefault(s: string, default: string): string {
    if s != [] then s else default
  }

  /** A clause `opening + s + closing` that is left out altogether when `s` is empty. */
  function OptionalClause(opening: string, s: string, closing: string): string {
    if s != [] then opening + s + closing else ""
  }

  predicate StartsWith(s: string, prefix: string) {
    |prefix| <= |s| && s[..|prefix|] == prefix
  }

  predicate EndsWith(s: string, suffix: string) {
    |suffix| <= |s| && s[|s| - |suffix|..] == suffix
  }

  /** Equal concatenations around two middles force the middles to be equal. */
  lemma MiddleDetermined(pre: string, x: string, y: string, post: string)
    requires pre + x + post == pre + y + post
    ensures x == y
  {
    var s := pre + x + post;
    assert |x| == |y|;
    assert x == s[|pre|..|pre| + |x|];
    assert y == (pre + y + post)[|pre|..|pre| + |y|];
  }

  lemma FirstDetermined(x: string, y: string, post: string)
    requires x + post == y + post
    ensures x == y
  {
    assert x == (x + post)[..|x|];
    assert y == (y + post)[..|y|];
  }

  lemma LastDetermined(pre: string, x: string, y: string)
    requires pre + x == pre + y
    ensures x == y
  {
    assert x == (pre + x)[|pre|..];
    assert y == (pre + y)[|pre|..];
  }

  lemma Regroup(a: string, b: string, c: string)
    ensures a + b + c == a + (b + c)
  {
  }

  lemma Regroup3(p: string, a: string, b: string, c: string)
    ensures p + a + b + c == p + (a + b + c)
  {
  }

  lemma Regroup5(p: string, a: string, b: string, c: string, d: string, e: string)
    ensures p + a + b + c + d + e == p + (a + b + c + d + e)
  {
  }

  /** Two equal concatenations whose first parts have equal lengths agree part by part. */
  lemma SplitEqual(a: string, b: string, c: string, d: string)
    requires a + b == c + d && |a| == |c|
    ensures a == c && b == d
  {
    assert a == (a + b)[..|a|] && c == (c + d)[..|c|];
    assert b == (a + b)[|a|..] && d == (c + d)[|c|..];
  }

  /** `a` is a prefix and `b` a suffix of `a + b`. */
  lemma Appended(a: string, b: string)
    ensures StartsWith(a + b, a) && EndsWith(a + b, b) && (a + b)[|a|..] == b
  {
    assert (a + b)[..|a|] == a;
  }

  /**
   * After `opening`, the optional clause is present exactly when its argument is non-empty,
   * provided what follows it does not itself start like the clause.
   */
  lemma ClauseAfter(opening: string, clauseOpening: string, s: string, closing: string, rest: string)
    requires clauseOpening != [] && (rest == [] || rest[0] != clauseOpening[0])
    ensures var p := opening + OptionalClause(clauseOpening, s, closing) + rest;
      && StartsWith(p, opening)
      && (s != [] <==> StartsWith(p[|opening|..], clauseOpening))
      && (s != [] ==> StartsWith(p[|opening|..], clauseOpening + s + closing))
  {
    var c := OptionalClause(clauseOpening, s, closing);
    var p := opening + c + rest;
    assert p == opening + (c + rest);
    Appended(opening, c + rest);
    if s != [] {
      Appended(clauseOpening + s + closing, rest);
      assert (clauseOpening + s + closing)[..|clauseOpening|] == clauseOpening;
    } else {
      assert c + rest == rest;
      if |clauseOpening| <= |rest| {
        assert rest[..|clauseOpening|][0] != clauseOpening[0];
      }
    }
  }

  lemma OptionalClauseDetermines(opening: string, s: string, t: string, closing: string)
    requires OptionalClause(opening, s, closing) == OptionalClause(opening, t, closing)
    ensures s == t
  {
    if s != [] && t != [] {
      MiddleDetermined(opening, s, t, closing);
    }
  }

  // ---------------------------------------------------------------------------
  // industry_and_sector_analysis

  const IndustryOpening: string := "What are the current trends and most promising sectors for investment, "
  const IndustryFocusOpening: string := "focusing on "

  function IndustryAndSectorAnalysis(riskTolerance: string := "", investmentFocus: string := "",
                                     investmentTimeframe: string := ""): (prompt: string)
    ensures StartsWith(prompt, IndustryOpening)
    ensures investmentFocus != [] <==> StartsWith(prompt[|IndustryOpening|..], IndustryFocusOpening)
    ensures investmentFocus != [] ==>
              StartsWith(prompt[|IndustryOpening|..], IndustryFocusOpening + investmentFocus + ", ")
    ensures EndsWith(prompt, " and a " + OrDefault(investmentTimeframe, "long-term") + " investment horizon?")
  {
    var clause := OptionalClause(IndustryFocusOpening, investmentFocus, ", ");
    var risk := "suitable for an investor with " + OrDefault(riskTolerance, "a balanced") + " risk tolerance";
    var horizon := " and a " + OrDefault(investmentTimeframe, "long-term") + " investment horizon?";
    ClauseAfter(IndustryOpening, IndustryFocusOpening, investmentFocus, ", ", risk + horizon);
    Appended(IndustryOpening + clause + risk, horizon);
    Regroup(IndustryOpening + clause, risk, horizon);
    IndustryOpening + clause + risk + horizon
  }

  /** An empty risk tolerance reads as "a balanced", an empty timeframe as "long-term". */
  lemma IndustryAndSectorAnalysisDefaults(risk: string, focus: string, timeframe: string)
    ensures IndustryAndSectorAnalysis("", focus, timeframe) == IndustryAndSectorAnalysis("a balanced", focus, timeframe)
    ensures IndustryAndSectorAnalysis(risk, focus, "") == IndustryAndSectorAnalysis(risk, focus, "long-term")
  {
  }

  /** Each argument is embedded verbatim: changing one argument alone changes the prompt. */
  lemma IndustryAndSectorAnalysisInjective(risk: string, focus: string, timeframe: string, other: string)
    ensures (IndustryAndSectorAnalysis(risk, focus, timeframe) == IndustryAndSectorAnalysis(other, focus, timeframe))
              ==> OrDefault(risk, "a balanced") == OrDefault(other, "a balanced")
    ensures (IndustryAndSectorAnalysis(risk, focus, timeframe) == IndustryAndSectorAnalysis(risk, other, timeframe))
              ==> focus == other
    ensures (IndustryAndSectorAnalysis(risk, focus, timeframe) == IndustryAndSectorAnalysis(risk, focus, other))
              ==> OrDefault(timeframe, "long-term") == OrDefault(other, "long-term")
  {
    var c := OptionalClause(IndustryFocusOpening, focus, ", ");
    var r := "suitable for an investor with " + OrDefault(risk, "a balanced") + " risk tolerance";
    var h := " and a " + OrDefault(timeframe, "long-term") + " investment horizon?";
    if IndustryAndSectorAnalysis(risk, focus, timeframe) == IndustryAndSectorAnalysis(other, focus, timeframe) {
      var r' := "suitable for an investor with " + OrDefault(other, "a balanced") + " risk tolerance";
      MiddleDetermined(IndustryOpening + c, r, r', h);
      MiddleDetermined("suitable for an investor with ", OrDefault(risk, "a balanced"), OrDefault(other, "a balanced"), " risk tolerance");
    }
    if IndustryAndSectorAnalysis(risk, focus, timeframe) == IndustryAndSectorAnalysis(risk, other, timeframe) {
      var c' := OptionalClause(IndustryFocusOpening, other, ", ");
      Regroup(IndustryOpening + c, r, h);
      Regroup(IndustryOpening + c', r, h);
      MiddleDetermined(IndustryOpening, c, c', r + h);
      OptionalClauseDetermines(IndustryFocusOpening, focus, other, ", ");
    }
    if IndustryAndSectorAnalysis(risk, focus, timeframe) == IndustryAndSectorAnalysis(risk, focus, other) {
      var h' := " and a " + OrDefault(other, "long-term") + " investment horizon?";
      LastDetermined(IndustryOpening + c + r, h, h');
      MiddleDetermined(" and a ", OrDefault(timeframe, "long-term"), OrDefault(other, "long-term"), " investment horizon?");
    }
  }

  // ---------------------------------------------------------------------------
  // financial_news_summary

  const NewsOpening: string := "Summarize the latest financial news and reports highlighting significant developments "
  const NewsSectorOpening: string := "in "

  function FinancialNewsSummary(sectorFocus: string := "", riskTolerance: string := "",
                                investmentTimeframe: string := ""): (prompt: string)
    ensures StartsWith(prompt, NewsOpening)
    ensures sectorFocus != [] <==> StartsWith(prompt[|NewsOpening|..], NewsSectorOpening)
    ensures sectorFocus != [] ==> StartsWith(prompt[|NewsOpening|..], NewsSectorOpening + sectorFocus + " sectors ")
    ensures EndsWith(prompt, "focusing on " + OrDefault(investmentTimeframe, "long-term growth") + ".")
  {
    var clause := OptionalClause(NewsSectorOpening, sectorFocus, " sectors ");
    var risk := "that are relevant for a " + OrDefault(riskTolerance, "moderate-risk") + " investor ";
    var horizon := "focusing on " + OrDefault(investmentTimeframe, "long-term growth") + ".";
    ClauseAfter(NewsOpening, NewsSectorOpening, sectorFocus, " sectors ", risk + horizon);
    Appended(NewsOpening + clause + risk, horizon);
    Regroup(NewsOpening + clause, risk, horizon);
    NewsOpening + clause + risk + horizon
  }

  /** An empty risk tolerance reads as "moderate-risk", an empty timeframe as "long-term growth". */
  lemma FinancialNewsSummaryDefaults(sector: string, risk: string, timeframe: string)
    ensures FinancialNewsSummary(sector, "", timeframe) == FinancialNewsSummary(sector, "moderate-risk", timeframe)
    ensures FinancialNewsSummary(sector, risk, "") == FinancialNewsSummary(sector, risk, "long-term growth")
  {
  }

  /** Each argument is embedded verbatim: changing one argument alone changes the prompt. */
  lemma FinancialNewsSummaryInjective(sector: string, risk: string, timeframe: string, other: string)
    ensures (FinancialNewsSummary(sector, risk, timeframe) == FinancialNewsSummary(other, risk, timeframe))
              ==> sector == other
    ensures (FinancialNewsSummary(sector, risk, timeframe) == FinancialNewsSummary(sector, other, timeframe))
              ==> OrDefault(risk, "moderate-risk") == OrDefault(other, "moderate-risk")
    ensures (FinancialNewsSummary(sector, risk, timeframe) == FinancialNewsSummary(sector, risk, other))
              ==> OrDefault(timeframe, "long-term growth") == OrDefault(other, "long-term growth")
  {
    var c := OptionalClause(NewsSectorOpening, sector, " sectors ");
    var r := "that are relevant for a " + OrDefault(risk, "moderate-risk") + " investor ";
    var h := "focusing on " + OrDefault(timeframe, "long-term growth") + ".";
    if FinancialNewsSummary(sector, risk, timeframe) == FinancialNewsSummary(other, risk, timeframe) {
      var c' := OptionalClause(NewsSectorOpening, other, " sectors ");
      Regroup(NewsOpening + c, r, h);
      Regroup(NewsOpening + c', r, h);
      MiddleDetermined(NewsOpening, c, c', r + h);
      OptionalClauseDetermines(NewsSectorOpening, sector, other, " sectors ");
    }
    if FinancialNewsSummary(sector, risk, timeframe) == FinancialNewsSummary(sector, other, timeframe) {
      var r' := "that are relevant for a " + OrDefault(other, "moderate-risk") + " investor ";
      MiddleDetermined(NewsOpening + c, r, r', h);
      MiddleDetermined("that are relevant for a ", OrDefault(risk, "moderate-risk"), OrDefault(other, "moderate-risk"), " investor ");
    }
    if FinancialNewsSummary(sector, risk, timeframe) == FinancialNewsSummary(sector, risk, other) {
      var h' := "focusing on " + OrDefault(other, "long-term growth") + ".";
      LastDetermined(NewsOpening + c + r, h, h');
      MiddleDetermined("focusing on ", OrDefault(timeframe, "long-term growth"), OrDefault(other, "long-term growth"), ".");
    }
  }

  // ---------------------------------------------------------------------------
  // analyst_reports_summary

  const AnalystOpening: string := "Provide a summary of recent analyst reports and stock recommendations for companies "
  const AnalystSectorOpening: string := "in the "

  function AnalystReportsSummary(sectorFocus: string := "", riskTolerance: string := "",
                                 investmentTimeframe: string := ""): (prompt: string)
    ensures StartsWith(prompt, AnalystOpening)
    ensures sectorFocus != [] <==> StartsWith(prompt[|AnalystOpening|..], AnalystSectorOpening)
    ensures sectorFocus != [] ==> StartsWith(prompt[|AnalystOpening|..], AnalystSectorOpening + sectorFocus + " sectors, ")
    ensures EndsWith(prompt, "with " + OrDefault(riskTolerance, "moderate") + " risk tolerance.")
  {
    var clause := OptionalClause(AnalystSectorOpening, sectorFocus, " sectors, ");
    var horizon := "suitable for an investor focusing on " + OrDefault(investmentTimeframe, "long-term growth") + " ";
    var risk := "with " + OrDefault(riskTolerance, "moderate") + " risk tolerance.";
    ClauseAfter(AnalystOpening, AnalystSectorOpening, sectorFocus, " sectors, ", horizon + risk);
    Appended(AnalystOpening + clause + horizon, risk);
    Regroup(AnalystOpening + clause, horizon, risk);
    AnalystOpening + clause + horizon + risk
  }

  /** An empty timeframe reads as "long-term growth", an empty risk tolerance as "moderate". */
  lemma AnalystReportsSummaryDefaults(sector: string, risk: string, timeframe: string)
    ensures AnalystReportsSummary(sector, "", timeframe) == AnalystReportsSummary(sector, "moderate", timeframe)
    ensures AnalystReportsSummary(sector, risk, "") == AnalystReportsSummary(sector, risk, "long-term growth")
  {
  }

  /** Each argument is embedded verbatim: changing one argument alone changes the prompt. */
  lemma AnalystReportsSummaryInjective(sector: string, risk: string, timeframe: string, other: string)
    ensures (AnalystReportsSummary(sector, risk, timeframe) == AnalystReportsSummary(other, risk, timeframe))
              ==> sector == other
    ensures (AnalystReportsSummary(sector, risk, timeframe) == AnalystReportsSummary(sector, other, timeframe))
              ==> OrDefault(risk, "moderate") == OrDefault(other, "moderate")
    ensures (AnalystReportsSummary(sector, risk, timeframe) == AnalystReportsSummary(sector, risk, other))
              ==> OrDefault(timeframe, "long-term growth") == OrDefault(other, "long-term growth")
  {
    var c := OptionalClause(AnalystSectorOpening, sector, " sectors, ");
    var h := "suitable for an investor focusing on " + OrDefault(timeframe, "long-term growth") + " ";
    var r := "with " + OrDefault(risk, "moderate") + " risk tolerance.";
    if AnalystReportsSummary(sector, risk, timeframe) == AnalystReportsSummary(other, risk, timeframe) {
      var c' := OptionalClause(AnalystSectorOpening, other, " sectors, ");
      Regroup(AnalystOpening + c, h, r);
      Regroup(AnalystOpening + c', h, r);
      MiddleDetermined(AnalystOpening, c, c', h + r);
      OptionalClauseDetermines(AnalystSectorOpening, sector, other, " sectors, ");
    }
    if AnalystReportsSummary(sector, risk, timeframe) == AnalystReportsSummary(sector, other, timeframe) {
      var r' := "with " + OrDefault(other, "moderate") + " risk tolerance.";
      LastDetermined(AnalystOpening + c + h, r, r');
      MiddleDetermined("with ", OrDefault(risk, "moderate"), OrDefault(other, "moderate"), " risk tolerance.");
    }
    if AnalystReportsSummary(sector, risk, timeframe) == AnalystReportsSummary(sector, risk, other) {
      var h' := "suitable for an investor focusing on " + OrDefault(other, "long-term growth") + " ";
      MiddleDetermined(AnalystOpening + c, h, h', r);
      MiddleDetermined("suitable for an investor focusing on ", OrDefault(timeframe, "long-term growth"), OrDefault(other, "long-term growth"), " ");
    }
  }

  // ---------------------------------------------------------------------------
  // esg_factor_analysis

  const EsgOpening: string := "List companies in "
  const EsgMiddle: string := "with strong ESG ratings and practices, suitable for an investor who "

  function EsgFactorAnalysis(sectorFocus: string := "", investmentValues: string := ""): (prompt: string)
    ensures StartsWith(prompt, EsgOpening + (OrDefault(sectorFocus, "various") + " sectors "))
    ensures EndsWith(prompt, "prioritizes " + OrDefault(investmentValues, "ethical and sustainable investing") + ".")
  {
    var sectors := OrDefault(sectorFocus, "various") + " sectors ";
    var values := "prioritizes " + OrDefault(investmentValues, "ethical and sustainable investing") + ".";
    Regroup(EsgOpening + sectors, EsgMiddle, values);
    Regroup(EsgOpening, sectors, EsgMiddle + values);
    Appended(EsgOpening + sectors, EsgMiddle + values);
    Appended(EsgOpening + sectors + EsgMiddle, values);
    EsgOpening + sectors + EsgMiddle + values
  }

  /** An empty sector reads as "various", empty values as "ethical and sustainable investing". */
  lemma EsgFactorAnalysisDefaults(sector: string, values: string)
    ensures EsgFactorAnalysis("", values) == EsgFactorAnalysis("various", values)
    ensures EsgFactorAnalysis(sector, "") == EsgFactorAnalysis(sector, "ethical and sustainable investing")
  {
  }

  /** Each argument is embedded verbatim: changing one argument alone changes the prompt. */
  lemma EsgFactorAnalysisInjective(sector: string, values: string, other: string)
    ensures (EsgFactorAnalysis(sector, values) == EsgFactorAnalysis(other, values))
              ==> OrDefault(sector, "various") == OrDefault(other, "various")
    ensures (EsgFactorAnalysis(sector, values) == EsgFactorAnalysis(sector, other))
              ==> OrDefault(values, "ethical and sustainable investing") == OrDefault(other, "ethical and sustainable investing")
  {
    var s := OrDefault(sector, "various") + " sectors ";
    var v := "prioritizes " + OrDefault(values, "ethical and sustainable investing") + ".";
    if EsgFactorAnalysis(sector, values) == EsgFactorAnalysis(other, values) {
      var s' := OrDefault(other, "various") + " sectors ";
      Regroup(EsgOpening + s, EsgMiddle, v);
      Regroup(EsgOpening + s', EsgMiddle, v);
      MiddleDetermined(EsgOpening, s, s', EsgMiddle + v);
      FirstDetermined(OrDefault(sector, "various"), OrDefault(other, "various"), " sectors ");
    }
    if EsgFactorAnalysis(sector, values) == EsgFactorAnalysis(sector, other) {
      var v' := "prioritizes " + OrDefault(other, "ethical and sustainable investing") + ".";
      LastDetermined(EsgOpening + s + EsgMiddle, v, v');
      MiddleDetermined("prioritizes ", OrDefault(values, "ethical and sustainable investing"),
                       OrDefault(other, "ethical and sustainable investing"), ".");
    }
  }

  // ---------------------------------------------------------------------------
  // regulatory_developments_summary

  const RegulatoryOpening: string := "Summarize any recent regulatory or political developments affecting "
  const RegulatoryMiddle: string := "globally, and how they might impact investments in these areas. "

  function RegulatoryDevelopmentsSummary(sectorFocus: string := "", globalFocus: string := ""): (prompt: string)
    ensures StartsWith(prompt, RegulatoryOpening + (OrDefault(sectorFocus, "various") + " sectors "))
    ensures EndsWith(prompt, "Focus on " + OrDefault(globalFocus, "key markets globally") + ".")
  {
    var sectors := OrDefault(sectorFocus, "various") + " sectors ";
    var focus := "Focus on " + OrDefault(globalFocus, "key markets globally") + ".";
    Regroup(RegulatoryOpening + sectors, RegulatoryMiddle, focus);
    Regroup(RegulatoryOpening, sectors, RegulatoryMiddle + focus);
    Appended(RegulatoryOpening + sectors, RegulatoryMiddle + focus);
    Appended(RegulatoryOpening + sectors + RegulatoryMiddle, focus);
    RegulatoryOpening + sectors + RegulatoryMiddle + focus
  }

  /** An empty sector reads as "various", an empty global focus as "key markets globally". */
  lemma RegulatoryDevelopmentsSummaryDefaults(sector: string, global: string)
    ensures RegulatoryDevelopmentsSummary("", global) == RegulatoryDevelopmentsSummary("various", global)
    ensures RegulatoryDevelopmentsSummary(sector, "") == RegulatoryDevelopmentsSummary(sector, "key markets globally")
  {
  }

  /** Each argument is embedded verbatim: changing one argument alone changes the prompt. */
  lemma RegulatoryDevelopmentsSummaryInjective(sector: string, global: string, other: string)
    ensures (RegulatoryDevelopmentsSummary(sector, global) == RegulatoryDevelopmentsSummary(other, global))
              ==> OrDefault(sector, "various") == OrDefault(other, "various")
    ensures (RegulatoryDevelopmentsSummary(sector, global) == RegulatoryDevelopmentsSummary(sector, other))
              ==> OrDefault(global, "key markets globally") == OrDefault(other, "key markets globally")
  {
    var s := OrDefault(sector, "various") + " sectors ";
    var g := "Focus on " + OrDefault(global, "key markets globally") + ".";
    if RegulatoryDevelopmentsSummary(sector, global) == RegulatoryDevelopmentsSummary(other, global) {
      var s' := OrDefault(other, "various") + " sectors ";
      Regroup(RegulatoryOpening + s, RegulatoryMiddle, g);
      Regroup(RegulatoryOpening + s', RegulatoryMiddle, g);
      MiddleDetermined(RegulatoryOpening, s, s', RegulatoryMiddle + g);
      FirstDetermined(OrDefault(sector, "various"), OrDefault(other, "various"), " sectors ");
    }
    if RegulatoryDevelopmentsSummary(sector, global) == RegulatoryDevelopmentsSummary(sector, other) {
      var g' := "Focus on " + OrDefault(other, "key markets globally") + ".";
      LastDetermined(RegulatoryOpening + s + RegulatoryMiddle, g, g');
      MiddleDetermined("Focus on ", OrDefault(global, "key markets globally"), OrDefault(other, "key markets globally"), ".");
    }
  }

  // ---------------------------------------------------------------------------
  // generate_stock_symbols_prompt

  const StockIntro: string := "Based on the following insights, suggest a list of stock tickers for portfolio investment:\n"
  const IndustryTitle: string := "1. Industry Analysis: "
  const NewsTitle: string := "2. Financial News Summary: "
  const AnalystTitle: string := "3. Analyst Reports Summary: "
  const EsgTitle: string := "4. ESG Factor Analysis: "
  const RegulatoryTitle: string := "5. Regulatory Developments: "
  const RequestOpening: string := "Please provide a list of stock tickers in a Python list format between [stocks] tags, suitable for a "
  const RequestStrategy: string := " investment strategy with "
  /** The closing instructions; the source joins "symbols." and "Avoid" without a space. */
  const RequestClosing: string :=
    " risk tolerance. Format the response as [stocks]['TICKER1', 'TICKER2', ...][/stocks]. "
    + "Ensure all tickers are in a format recognized by major stock exchanges and compatible with Yahoo Finance. "
    + "Avoid region-specific or exchange-specific ticker formats. Focus on standard, widely-recognized ticker symbols."
    + "Avoid every ticker with a point inside the ticker name, example : 'ORSTED.CO', 'SGRE.MC', 'NVO.CO'."

  /** One numbered insight: its heading, the insight verbatim, and a newline. */
  function Insight(title: string, text: string): string {
    title + text + "\n"
  }

  /** The request after the insights, naming the timeframe and the risk tolerance. */
  function StockRequest(investmentTimeframe: string, riskTolerance: string): string {
    RequestOpening + investmentTimeframe + RequestStrategy + riskTolerance + RequestClosing
  }

  function GenerateStockSymbolsPrompt(industryAnalysis: string, financialNews: string, analystReports: string,
                                      esgAnalysis: string, regulatoryDevelopments: string,
                                      riskTolerance: string := "moderate", investmentTimeframe: string := "long-term"): (prompt: string)
    ensures StartsWith(prompt, StockIntro + Insight(IndustryTitle, industryAnalysis) + Insight(NewsTitle, financialNews)
                               + Insight(AnalystTitle, analystReports) + Insight(EsgTitle, esgAnalysis)
                               + Insight(RegulatoryTitle, regulatoryDevelopments))
    ensures EndsWith(prompt, StockRequest(investmentTimeframe, riskTolerance))
  {
    var p0 := StockIntro;
    var p1 := p0 + IndustryTitle + industryAnalysis + "\n";
    var p2 := p1 + NewsTitle + financialNews + "\n";
    var p3 := p2 + AnalystTitle + analystReports + "\n";
    var p4 := p3 + EsgTitle + esgAnalysis + "\n";
    var p5 := p4 + RegulatoryTitle + regulatoryDevelopments + "\n";
    Regroup3(p0, IndustryTitle, industryAnalysis, "\n");
    Regroup3(p1, NewsTitle, financialNews, "\n");
    Regroup3(p2, AnalystTitle, analystReports, "\n");
    Regroup3(p3, EsgTitle, esgAnalysis, "\n");
    Regroup3(p4, RegulatoryTitle, regulatoryDevelopments, "\n");
    Regroup5(p5, RequestOpening, investmentTimeframe, RequestStrategy, riskTolerance, RequestClosing);
    Appended(p5, StockRequest(investmentTimeframe, riskTolerance));
    p5 + RequestOpening + investmentTimeframe + RequestStrategy + riskTolerance + RequestClosing
  }

  /**
   * The insights can be read back: two prompts that are equal, built from insights and a
   * timeframe of the same lengths, were built from the same arguments.
   */
  lemma GenerateStockSymbolsPromptInjective(a1: string, a2: string, a3: string, a4: string, a5: string, risk: string, timeframe: string,
                                            b1: string, b2: string, b3: string, b4: string, b5: string, risk': string, timeframe': string)
    requires GenerateStockSymbolsPrompt(a1, a2, a3, a4, a5, risk, timeframe) == GenerateStockSymbolsPrompt(b1, b2, b3, b4, b5, risk', timeframe')
    requires |a1| == |b1| && |a2| == |b2| && |a3| == |b3| && |a4| == |b4| && |a5| == |b5| && |timeframe| == |timeframe'|
    ensures a1 == b1 && a2 == b2 && a3 == b3 && a4 == b4 && a5 == b5
    ensures risk == risk' && timeframe == timeframe'
  {
    var p := GenerateStockSymbolsPrompt(a1, a2, a3, a4, a5, risk, timeframe);
    var qa := StockIntro + Insight(IndustryTitle, a1) + Insight(NewsTitle, a2) + Insight(AnalystTitle, a3) + Insight(EsgTitle, a4);
    var qb := StockIntro + Insight(IndustryTitle, b1) + Insight(NewsTitle, b2) + Insight(AnalystTitle, b3) + Insight(EsgTitle, b4);
    var ha := qa + Insight(RegulatoryTitle, a5);
    var hb := qb + Insight(RegulatoryTitle, b5);
    assert |ha| == |hb|;
    assert ha == p[..|ha|] == hb;
    SplitEqual(qa, Insight(RegulatoryTitle, a5), qb, Insight(RegulatoryTitle, b5));
    MiddleDetermined(RegulatoryTitle, a5, b5, "\n");
    var ra := StockIntro + Insight(IndustryTitle, a1) + Insight(NewsTitle, a2) + Insight(AnalystTitle, a3);
    var rb := StockIntro + Insight(IndustryTitle, b1) + Insight(NewsTitle, b2) + Insight(AnalystTitle, b3);
    SplitEqual(ra, Insight(EsgTitle, a4), rb, Insight(EsgTitle, b4));
    MiddleDetermined(EsgTitle, a4, b4, "\n");
    var sa := StockIntro + Insight(IndustryTitle, a1) + Insight(NewsTitle, a2);
    var sb := StockIntro + Insight(IndustryTitle, b1) + Insight(NewsTitle, b2);
    SplitEqual(sa, Insight(AnalystTitle, a3), sb, Insight(AnalystTitle, b3));
    MiddleDetermined(AnalystTitle, a3, b3, "\n");
    SplitEqual(StockIntro + Insight(IndustryTitle, a1), Insight(NewsTitle, a2), StockIntro + Insight(IndustryTitle, b1), Insight(NewsTitle, b2));
    MiddleDetermined(NewsTitle, a2, b2, "\n");
    SplitEqual(StockIntro, Insight(IndustryTitle, a1), StockIntro, Insight(IndustryTitle, b1));
    MiddleDetermined(IndustryTitle, a1, b1, "\n");
    var ta := StockRequest(timeframe, risk);
    var tb := StockRequest(timeframe', risk');
    assert |ta| == |tb|;
    assert ta == p[|p| - |ta|..] == tb;
    SplitEqual(RequestOpening + timeframe, RequestStrategy + risk + RequestClosing, RequestOpening + timeframe', RequestStrategy + risk' + RequestClosing)
      by { Regroup3(RequestOpening + timeframe, RequestStrategy, risk, RequestClosing);
           Regroup3(RequestOpening + timeframe', RequestStrategy, risk', RequestClosing); }
    LastDetermined(RequestOpening, timeframe, timeframe');
    MiddleDetermined(RequestStrategy, risk, risk', RequestClosing);
  }
}
