/**
 * The catalog of historical crisis scenarios and the projected impact of
 * one of them on a portfolio: the whole portfolio moves by the scenario's
 * market-wide shock.
 */
module Scenarios {
  import opened Wrappers

  datatype Severity = Extreme | Severe

  datatype HistoricalScenario = HistoricalScenario(
    name: string,
    description: string,
    startDate: string,
    endDate: string,
    marketShock: real,
    durationDays: nat,
    severity: Severity,
    icon: string)

  /** The catalog keys, in the catalog's own (insertion) order. */
  const ScenarioIds: seq<string> := ["2008_financial_crisis", "covid_crash", "dotcom_bubble", "black_monday"]

  const Catalog: map<string, HistoricalScenario> := map[
    "2008_financial_crisis" := HistoricalScenario(
      "2008 Financial Crisis",
      "Global financial meltdown triggered by subprime mortgage collapse",
      "2008-09-01", "2009-03-31", -0.38, 212, Extreme, "\U{1F4C9}"),
    "covid_crash" := HistoricalScenario(
      "COVID-19 Crash",
      "Pandemic-induced market crash in early 2020",
      "2020-02-19", "2020-03-23", -0.34, 33, Severe, "\U{1F9A0}"),
    "dotcom_bubble" := HistoricalScenario(
      "Dot-com Bubble Burst",
      "Technology stock collapse from 2000-2002",
      "2000-03-01", "2002-10-01", -0.49, 945, Extreme, "\U{1F4BB}"),
    "black_monday" := HistoricalScenario(
      "1987 Black Monday",
      "Largest single-day percentage decline in stock market history",
      "1987-10-19", "1987-10-19", -0.22, 1, Severe, "\U{26AB}")
  ]

  /** The catalog has exactly the listed keys, each once. */
  lemma CatalogKeys()
    ensures Catalog.Keys == set i | 0 <= i < |ScenarioIds| :: ScenarioIds[i]
    ensures forall i, j :: 0 <= i < j < |ScenarioIds| ==> ScenarioIds[i] != ScenarioIds[j]
    ensures |ScenarioIds| == 4
  {
    assert ScenarioIds[0] in Catalog.Keys;
    assert ScenarioIds[1] in Catalog.Keys;
    assert ScenarioIds[2] in Catalog.Keys;
    assert ScenarioIds[3] in Catalog.Keys;
  }

  /** Every catalog shock is a loss of less than the whole value. */
  lemma ShocksAreBoundedLosses(id: string)
    requires id in Catalog
    ensures -1.0 < Catalog[id].marketShock < 0.0
  {
  }

  datatype ScenarioError = UnknownScenario(id: string)

  /** The impact report of one scenario on one portfolio value. */
  datatype ScenarioImpact = ScenarioImpact(
    scenarioId: string,
    scenarioName: string,
    description: string,
    dateRange: (string, string),
    durationDays: nat,
    severity: Severity,
    icon: string,
    marketShockPct: real,
    originalValue: real,
    projectedValue: real,
    projectedLoss: real,
    lossPct: real)

  /**
   * The impact of a catalog scenario: the projected value is the portfolio
   * value moved by the shock, the projected loss is the signed change, and
   * both percentages are the shock in percent. An unknown id is an error.
   */
  function GetScenarioImpact(scenarioId: string, portfolioValue: real): (r: Result<ScenarioImpact, ScenarioError>)
    ensures r.Err? <==> scenarioId !in Catalog
    ensures r.Err? ==> r.error == UnknownScenario(scenarioId)
    ensures r.Ok? ==>
      var s := Catalog[scenarioId];
      r.value.scenarioId == scenarioId && r.value.scenarioName == s.name
      && r.value.description == s.description && r.value.dateRange == (s.startDate, s.endDate)
      && r.value.durationDays == s.durationDays && r.value.severity == s.severity && r.value.icon == s.icon
      && r.value.originalValue == portfolioValue
      && r.value.projectedValue == r.value.originalValue + r.value.projectedLoss
      && r.value.projectedLoss * 100.0 == portfolioValue * r.value.lossPct
      && r.value.lossPct == r.value.marketShockPct == s.marketShock * 100.0
  {
    if scenarioId !in Catalog then Err(UnknownScenario(scenarioId))
    else
      var scenario := Catalog[scenarioId];
      var marketShock := scenario.marketShock;
      var projectedValue := portfolioValue * (1.0 + marketShock);
      var projectedLoss := portfolioValue * marketShock;
      var lossPct := marketShock * 100.0;
      Ok(ScenarioImpact(scenarioId, scenario.name, scenario.description,
                        (scenario.startDate, scenario.endDate), scenario.durationDays,
                        scenario.severity, scenario.icon, marketShock * 100.0,
                        portfolioValue, projectedValue, projectedLoss, lossPct))
  }

  /** For a positive portfolio value every catalog scenario loses money but not all of it. */
  lemma ImpactWithinValue(scenarioId: string, portfolioValue: real)
    requires scenarioId in Catalog && portfolioValue > 0.0
    ensures var r := GetScenarioImpact(scenarioId, portfolioValue);
      r.Ok? && 0.0 < r.value.projectedValue < portfolioValue && r.value.projectedLoss < 0.0
  {
    var s := Catalog[scenarioId].marketShock;
    ShocksAreBoundedLosses(scenarioId);
    PositiveTimesBounded(portfolioValue, s);
  }

  lemma PositiveTimesBounded(v: real, s: real)
    requires v > 0.0 && -1.0 < s < 0.0
    ensures 0.0 < v * (1.0 + s) < v && v * s < 0.0
  {
    assert v * (1.0 + s) == v + v * s;
  }

  /** One entry of the scenario list. */
  datatype ScenarioSummary = ScenarioSummary(id: string, name: string, description: string,
                                             severity: Severity, icon: string)

  /** The scenario list: one entry per catalog key, in catalog order, each under its key. */
  function GetAllScenarios(): (r: seq<ScenarioSummary>)
    ensures |r| == |ScenarioIds|
    ensures forall i :: 0 <= i < |r| ==>
      var s := Catalog[ScenarioIds[i]];
      r[i] == ScenarioSummary(ScenarioIds[i], s.name, s.description, s.severity, s.icon)
  {
    CatalogKeys();
    seq(|ScenarioIds|, i requires 0 <= i < |ScenarioIds| =>
      var s := Catalog[ScenarioIds[i]];
      ScenarioSummary(ScenarioIds[i], s.name, s.description, s.severity, s.icon))
  }

  /** The list has four entries, covers every catalog key and repeats none. */
  lemma AllScenariosCoverCatalog()
    ensures |GetAllScenarios()| == 4
    ensures forall id :: id in Catalog <==> exists i :: 0 <= i < 4 && GetAllScenarios()[i].id == id
    ensures forall i, j :: 0 <= i < j < 4 ==> GetAllScenarios()[i].id != GetAllScenarios()[j].id
  {
    CatalogKeys();
    var r := GetAllScenarios();
    forall id | id in Catalog
      ensures exists i :: 0 <= i < 4 && r[i].id == id
    {
      var i :| 0 <= i < |ScenarioIds| && ScenarioIds[i] == id;
      assert r[i].id == id;
    }
  }
}
