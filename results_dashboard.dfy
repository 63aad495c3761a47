/**
 * The results dashboard: the loading skeleton for missing data, and otherwise the score,
 * the winner and loser lists, the sector chart entries and the company rows, each read
 * from the loosely typed payload with a default. A payload whose fields have the wrong
 * shape makes rendering throw; the model says where.
 */
module ResultsDashboard {
  import opened Wrappers
  import Text
  import opened Json

  /** One sector of the pie chart: the sector's own fields plus its colour slot. */
  type ChartEntry = map<string, Json>

  /** What the dashboard shows once it has data. */
  datatype View = View(
    impactScore: real,
    topWinners: seq<Json>,
    topLosers: seq<Json>,
    chartSectors: seq<ChartEntry>,
    allCompanies: seq<Json>,
    fileName: Json)

  datatype Rendering = Skeleton | Shown(view: View) | Throws

  /** The `fill` of the sector at `index`: chart colours are numbered from 1. */
  function Fill(index: nat): string {
    "hsl(var(--chart-" + Text.NatToString(index + 1) + "))"
  }

  /** `sectorData.map((sector, index) => ({...sector, fill}))`. */
  function ChartSectorData(sectors: seq<Json>): (entries: seq<ChartEntry>)
    ensures |entries| == |sectors|
    ensures forall i :: 0 <= i < |sectors| ==>
      && "fill" in entries[i] && entries[i]["fill"] == JStr(Fill(i))
      && forall k :: k in Spread(sectors[i]) && k != "fill" ==> k in entries[i] && entries[i][k] == Spread(sectors[i])[k]
  {
    seq(|sectors|, i requires 0 <= i < |sectors| => Spread(sectors[i])["fill" := JStr(Fill(i))])
  }

  /** Different positions get different colour slots. */
  lemma FillSlotsDistinct(i: nat, j: nat)
    requires i != j
    ensures Fill(i) != Fill(j)
  {
    var prefix := "hsl(var(--chart-";
    var a, b := Text.NatToString(i + 1), Text.NatToString(j + 1);
    if Fill(i) == Fill(j) {
      assert |a| == |b|;
      assert a == Fill(i)[|prefix|..|prefix| + |a|];
      assert b == Fill(j)[|prefix|..|prefix| + |b|];
      Text.NatToStringInjective(i + 1, j + 1);
    }
  }

  /**
   * A winner or loser list: `list.length > 0 ? list.map(...) : message`. Arrays are listed;
   * a non-empty string has a length but no `map` and throws; other values have no length
   * and show the empty message.
   */
  function Listed(list: Json): Option<seq<Json>> {
    match list
    case JArr(items) => Some(items)
    case JStr(s) => if s == [] then Some([]) else None
    case _ => Some([])
  }

  /** `data.key` is there and truthy, so `data.key || default` takes it rather than the default. */
  predicate Supplied(data: Option<Json>, key: string) {
    Get(data, key).Some? && Truthy(Get(data, key).value)
  }

  /**
   * The component body for data `data` (`None` when the prop is absent). Each field falls back
   * to its default on its own, whatever the other fields hold.
   */
  function Render(data: Option<Json>): (r: Rendering)
    ensures r == Skeleton <==> data.None? || !Truthy(data.value)
    ensures r.Shown? && !Supplied(data, "portfolio_impact_score") ==> r.view.impactScore == 0.0
    ensures r.Shown? && Supplied(data, "portfolio_impact_score") ==>
      Get(data, "portfolio_impact_score").value == JNum(r.view.impactScore)
    ensures r.Shown? && !Supplied(data, "top_winners") ==> r.view.topWinners == []
    ensures r.Shown? && Supplied(data, "top_winners") ==>
      Listed(Get(data, "top_winners").value) == Some(r.view.topWinners)
    ensures r.Shown? && !Supplied(data, "top_losers") ==> r.view.topLosers == []
    ensures r.Shown? && Supplied(data, "top_losers") ==>
      Listed(Get(data, "top_losers").value) == Some(r.view.topLosers)
    ensures r.Shown? && !Supplied(data, "sector_distribution") ==> r.view.chartSectors == []
    ensures r.Shown? && Supplied(data, "sector_distribution") ==>
      && Get(data, "sector_distribution").value.JArr?
      && r.view.chartSectors == ChartSectorData(Get(data, "sector_distribution").value.items)
    ensures r.Shown? && !Supplied(data, "fileName") ==> r.view.fileName == JStr("N/A")
    ensures r.Shown? && Supplied(data, "fileName") ==> r.view.fileName == Get(data, "fileName").value
  {
    if data.None? || !Truthy(data.value) then Skeleton
    else
      var d := Some(data.value);
      var impactScore := OrElse(Get(d, "portfolio_impact_score"), JNum(0.0));
      var topWinners := OrElse(Get(d, "top_winners"), JArr([]));
      var topLosers := OrElse(Get(d, "top_losers"), JArr([]));
      var sectorData := OrElse(Get(d, "sector_distribution"), JArr([]));
      var allCompanies :=
        if Get(d, "all_companies").Some? && Truthy(Get(d, "all_companies").value) then Some(Get(d, "all_companies").value)
        else if Iterated(topWinners).Some? && Iterated(topLosers).Some? then Some(JArr(Iterated(topWinners).value + Iterated(topLosers).value))
        else None;
      if allCompanies.None? || !sectorData.JArr? || !impactScore.JNum? || !allCompanies.value.JArr? then Throws
      else if Listed(topWinners).None? || Listed(topLosers).None? then Throws
      else Shown(View(
        impactScore.n,
        Listed(topWinners).value,
        Listed(topLosers).value,
        ChartSectorData(sectorData.items),
        allCompanies.value.items,
        OrElse(Get(d, "fileName"), JStr("N/A"))))
  }

  /** The score is drawn green iff it is positive. */
  function ScoreColour(score: real): (colour: string)
    ensures colour == "text-green-500" <==> score > 0.0
    ensures colour == "text-red-500" <==> score <= 0.0
  {
    if score > 0.0 then "text-green-500" else "text-red-500"
  }

  /** An object with none of the expected fields shows a zero score, empty lists and "N/A". */
  lemma MissingFieldsDefault(fields: map<string, Json>)
    requires forall k :: k in fields ==> k !in {"portfolio_impact_score", "top_winners", "top_losers",
      "sector_distribution", "all_companies", "fileName"}
    ensures Render(Some(JObj(fields))) == Shown(View(0.0, [], [], [], [], JStr("N/A")))
  {
    assert "portfolio_impact_score" !in fields && "top_winners" !in fields && "top_losers" !in fields;
    assert "sector_distribution" !in fields && "all_companies" !in fields && "fileName" !in fields;
  }

  /** A well-formed payload is shown field for field. */
  lemma WellFormedPayloadShown(score: real, winners: seq<Json>, losers: seq<Json>, sectors: seq<Json>, companies: seq<Json>, name: string)
    requires name != []
    ensures var fields := map[
        "portfolio_impact_score" := JNum(score), "top_winners" := JArr(winners), "top_losers" := JArr(losers),
        "sector_distribution" := JArr(sectors), "all_companies" := JArr(companies), "fileName" := JStr(name)];
      Render(Some(JObj(fields))) == Shown(View(score, winners, losers, ChartSectorData(sectors), companies, JStr(name)))
  {
  }

  /** Without `all_companies`, the company table lists the winners and then the losers. */
  lemma AllCompaniesFallsBack(fields: map<string, Json>, winners: seq<Json>, losers: seq<Json>)
    requires "all_companies" !in fields
    requires "top_winners" in fields && fields["top_winners"] == JArr(winners)
    requires "top_losers" in fields && fields["top_losers"] == JArr(losers)
    requires Render(Some(JObj(fields))).Shown?
    ensures Render(Some(JObj(fields))).view.allCompanies == winners + losers
  {
  }

  /** An explicit empty `all_companies` array is kept: the fallback applies only to falsy values. */
  lemma EmptyAllCompaniesKept(fields: map<string, Json>)
    requires "all_companies" in fields && fields["all_companies"] == JArr([])
    requires Render(Some(JObj(fields))).Shown?
    ensures Render(Some(JObj(fields))).view.allCompanies == []
  {
  }

  /** A payload whose sector list is not an array makes rendering throw. */
  lemma NonArraySectorsThrow(fields: map<string, Json>)
    requires "sector_distribution" in fields && Truthy(fields["sector_distribution"]) && !fields["sector_distribution"].JArr?
    ensures Render(Some(JObj(fields))) == Throws
  {
  }
}
