/**
 * The web layer's configuration: the period choices and the frozen
 * `EnabledAnalysts` record, whose `as_dict` is the flag dictionary the
 * analysis use case and the legacy analyzer read.
 */
module WebConfig {
  import opened Wrappers
  import opened AnalysisModel
  import AnalysisUseCase
  import LegacyAnalyzer

  const PeriodOptions: seq<string> := ["1y", "6mo", "3mo", "1mo"]
  const DefaultPeriod: string := "1y"

  /** The default period is one of the choices, the first one. */
  lemma DefaultPeriodOffered()
    ensures DefaultPeriod in PeriodOptions && PeriodOptions[0] == DefaultPeriod
  {
  }

  /** `EnabledAnalysts`; `Defaults()` is the record built without arguments. */
  datatype EnabledAnalysts = EnabledAnalysts(technical: bool, fundamental: bool, fundFlow: bool,
                                             risk: bool, sentiment: bool, news: bool)

  /** `EnabledAnalysts()`: the first four analysts on, sentiment and news off. */
  function Defaults(): (e: EnabledAnalysts)
    ensures e.technical && e.fundamental && e.fundFlow && e.risk
    ensures !e.sentiment && !e.news
  {
    EnabledAnalysts(true, true, true, true, false, false)
  }

  /** The six keys of `as_dict`, in insertion order. */
  const FlagKeys: seq<string> := ["technical", "fundamental", "fund_flow", "risk", "sentiment", "news"]

  /** `as_dict`: each key once, in insertion order, with its field's value. */
  function AsDict(e: EnabledAnalysts): (d: seq<(string, bool)>)
    ensures |d| == 6 && forall i | 0 <= i < 6 :: d[i].0 == FlagKeys[i]
    ensures d[0].1 == e.technical && d[1].1 == e.fundamental && d[2].1 == e.fundFlow
    ensures d[3].1 == e.risk && d[4].1 == e.sentiment && d[5].1 == e.news
  {
    [("technical", e.technical), ("fundamental", e.fundamental), ("fund_flow", e.fundFlow),
     ("risk", e.risk), ("sentiment", e.sentiment), ("news", e.news)]
  }

  /** The six keys are distinct, so the dictionary holds no key twice. */
  lemma FlagKeysDistinct()
    ensures forall i, j | 0 <= i < j < |FlagKeys| :: FlagKeys[i] != FlagKeys[j]
  {
  }

  /** Reading the record back from a flag dictionary, missing keys taking the defaults. */
  function FromDict(d: seq<(string, bool)>): EnabledAnalysts
  {
    EnabledAnalysts(LegacyAnalyzer.FlagOr(d, "technical", true), LegacyAnalyzer.FlagOr(d, "fundamental", true),
                    LegacyAnalyzer.FlagOr(d, "fund_flow", true), LegacyAnalyzer.FlagOr(d, "risk", true),
                    LegacyAnalyzer.FlagOr(d, "sentiment", false), LegacyAnalyzer.FlagOr(d, "news", false))
  }

  /** `d.get(key, default)` is the value at the first position holding `key`. */
  lemma {:induction false} FlagOrAt(d: seq<(string, bool)>, i: nat, key: string, default: bool)
    requires i < |d| && d[i].0 == key && forall j | 0 <= j < i :: d[j].0 != key
    ensures LegacyAnalyzer.FlagOr(d, key, default) == d[i].1
  {
    if i > 0 {
      FlagOrAt(d[1..], i - 1, key, default);
    }
  }

  /** Each key of `as_dict` reads back its field, whatever the default. */
  lemma AsDictGet(e: EnabledAnalysts, default: bool)
    ensures LegacyAnalyzer.FlagOr(AsDict(e), "technical", default) == e.technical
    ensures LegacyAnalyzer.FlagOr(AsDict(e), "fundamental", default) == e.fundamental
    ensures LegacyAnalyzer.FlagOr(AsDict(e), "fund_flow", default) == e.fundFlow
    ensures LegacyAnalyzer.FlagOr(AsDict(e), "risk", default) == e.risk
    ensures LegacyAnalyzer.FlagOr(AsDict(e), "sentiment", default) == e.sentiment
    ensures LegacyAnalyzer.FlagOr(AsDict(e), "news", default) == e.news
  {
    var d := AsDict(e);
    FlagKeysDistinct();
    FlagOrAt(d, 0, "technical", default);
    FlagOrAt(d, 1, "fundamental", default);
    FlagOrAt(d, 2, "fund_flow", default);
    FlagOrAt(d, 3, "risk", default);
    FlagOrAt(d, 4, "sentiment", default);
    FlagOrAt(d, 5, "news", default);
  }

  /** `as_dict` loses nothing: reading its dictionary back gives the record; an empty dictionary reads as the defaults. */
  lemma AsDictRoundTrip(e: EnabledAnalysts)
    ensures FromDict(AsDict(e)) == e
    ensures FromDict([]) == Defaults()
  {
    AsDictGet(e, true);
    AsDictGet(e, false);
  }

  /** `[r]` when the flag is on. */
  function On(flag: bool, r: AgentRole): seq<AgentRole>
  {
    if flag then [r] else []
  }

  /** The use case's role list grows by one entry's roles when one flag is appended. */
  lemma EnabledRolesSnoc(xs: seq<(string, bool)>, x: (string, bool))
    ensures AnalysisUseCase.EnabledRoles(xs + [x]) == AnalysisUseCase.EnabledRoles(xs) + AnalysisUseCase.EntryRoles(x)
  {
    assert (xs + [x])[..|xs|] == xs;
  }

  /** Each flag of `as_dict` contributes its own role when it is on. */
  lemma AsDictEntryRoles(e: EnabledAnalysts)
    ensures var d := AsDict(e);
      && AnalysisUseCase.EntryRoles(d[0]) == On(e.technical, Technical)
      && AnalysisUseCase.EntryRoles(d[1]) == On(e.fundamental, Fundamental)
      && AnalysisUseCase.EntryRoles(d[2]) == On(e.fundFlow, AgentRole.FundFlow)
      && AnalysisUseCase.EntryRoles(d[3]) == On(e.risk, RiskManagement)
      && AnalysisUseCase.EntryRoles(d[4]) == On(e.sentiment, MarketSentiment)
      && AnalysisUseCase.EntryRoles(d[5]) == On(e.news, NewsAnalyst)
  {
    assert AnalysisUseCase.MappedRole("technical") == Some(Technical);
    assert AnalysisUseCase.MappedRole("fundamental") == Some(Fundamental);
    assert AnalysisUseCase.MappedRole("fund_flow") == Some(AgentRole.FundFlow);
    assert AnalysisUseCase.MappedRole("risk") == Some(RiskManagement);
    assert AnalysisUseCase.MappedRole("sentiment") == Some(MarketSentiment);
    assert AnalysisUseCase.MappedRole("news") == Some(NewsAnalyst);
  }

  /** The roles of the first three flags of `as_dict`. */
  lemma AsDictRolesHead(e: EnabledAnalysts)
    ensures AnalysisUseCase.EnabledRoles(AsDict(e)[..3]) ==
      On(e.technical, Technical) + On(e.fundamental, Fundamental) + On(e.fundFlow, AgentRole.FundFlow)
  {
    var d := AsDict(e);
    AsDictEntryRoles(e);
    assert d[..1] == [] + [d[0]] && d[..2] == d[..1] + [d[1]] && d[..3] == d[..2] + [d[2]];
    EnabledRolesSnoc([], d[0]);
    EnabledRolesSnoc(d[..1], d[1]);
    EnabledRolesSnoc(d[..2], d[2]);
  }

  /** The use case turns `as_dict` into the enabled fields' roles, in field order. */
  lemma AsDictRoles(e: EnabledAnalysts)
    ensures AnalysisUseCase.EnabledRoles(AsDict(e)) ==
      On(e.technical, Technical) + On(e.fundamental, Fundamental) + On(e.fundFlow, AgentRole.FundFlow)
      + On(e.risk, RiskManagement) + On(e.sentiment, MarketSentiment) + On(e.news, NewsAnalyst)
  {
    var d := AsDict(e);
    AsDictRolesHead(e);
    AsDictEntryRoles(e);
    assert d[..4] == d[..3] + [d[3]] && d[..5] == d[..4] + [d[4]] && d == d[..5] + [d[5]];
    EnabledRolesSnoc(d[..3], d[3]);
    EnabledRolesSnoc(d[..4], d[4]);
    EnabledRolesSnoc(d[..5], d[5]);
  }

  /** The field of the record that switches the analyst. */
  function Field(e: EnabledAnalysts, a: LegacyAnalyzer.Analyst): bool
  {
    match a
    case TechnicalAgent => e.technical
    case FundamentalAgent => e.fundamental
    case FundFlowAgent => e.fundFlow
    case RiskAgent => e.risk
    case SentimentAgent => e.sentiment
    case NewsAgent => e.news
  }

  /** The legacy analyzer runs exactly the analysts whose field is on. */
  lemma AsDictSelected(e: EnabledAnalysts)
    ensures forall a :: a in LegacyAnalyzer.Selected(Some(AsDict(e))) <==> Field(e, a)
  {
    AsDictGet(e, true);
    AsDictGet(e, false);
    forall a
      ensures LegacyAnalyzer.Runs(Some(AsDict(e)), a) == Field(e, a)
    {
      var d := AsDict(e);
      match a
      case TechnicalAgent => assert LegacyAnalyzer.FlagKey(a) == "technical" && LegacyAnalyzer.DefaultOn(a);
      case FundamentalAgent => assert LegacyAnalyzer.FlagKey(a) == "fundamental" && LegacyAnalyzer.DefaultOn(a);
      case FundFlowAgent => assert LegacyAnalyzer.FlagKey(a) == "fund_flow" && LegacyAnalyzer.DefaultOn(a);
      case RiskAgent => assert LegacyAnalyzer.FlagKey(a) == "risk" && LegacyAnalyzer.DefaultOn(a);
      case SentimentAgent => assert LegacyAnalyzer.FlagKey(a) == "sentiment" && !LegacyAnalyzer.DefaultOn(a);
      case NewsAgent => assert LegacyAnalyzer.FlagKey(a) == "news" && !LegacyAnalyzer.DefaultOn(a);
    }
  }

  /** The default flags select the four default roles in the use case. */
  lemma DefaultRoles()
    ensures AnalysisUseCase.EnabledRoles(AsDict(Defaults())) == [Technical, Fundamental, AgentRole.FundFlow, RiskManagement]
  {
    AsDictRoles(Defaults());
  }

  /** The default flags run the legacy analyzer's four default analysts. */
  lemma DefaultAnalysts()
    ensures forall a :: Field(Defaults(), a) == LegacyAnalyzer.DefaultOn(a)
  {
  }
}
