/**
 * The strategy panel: loading, error or analysis view, the colour of each risk level
 * (French labels "élevé" and "modéré"), and the border of each scenario card.
 */
module StrategyPanel {
  import opened Wrappers
  import Text
  import opened Json

  const High: string := "\U{e9}lev\U{e9}"
  const Moderate: string := "mod\U{e9}r\U{e9}"

  datatype RiskColour = Red | Yellow | Green

  /**
   * `getRiskColor(level)`: `level?.toLowerCase()` on a string, nothing on a missing level;
   * any other value has no `toLowerCase` and throws (`None`).
   */
  function RiskColourOf(level: Option<Json>): (r: Option<RiskColour>)
    ensures r.None? <==> level.Some? && !level.value.JNull? && !level.value.JStr?
    ensures level.Some? && level.value.JStr? ==>
      r == Some(
        if Text.Contains(Text.Lower(level.value.s), High) then Red
        else if Text.Contains(Text.Lower(level.value.s), Moderate) then Yellow
        else Green)
    ensures level.None? || level.value.JNull? ==> r == Some(Green)
  {
    match level
    case None => Some(Green)
    case Some(JNull) => Some(Green)
    case Some(JStr(s)) =>
      var lowered := Text.Lower(s);
      if Text.Contains(lowered, High) then Some(Red)
      else if Text.Contains(lowered, Moderate) then Some(Yellow)
      else Some(Green)
    case Some(_) => None
  }

  /** The CSS class of each colour. */
  function ColourClass(c: RiskColour): string {
    match c
    case Red => "text-red-500"
    case Yellow => "text-yellow-500"
    case Green => "text-green-500"
  }

  /** "élevé" is tested first, so a level mentioning both is red. */
  lemma HighWinsOverModerate(level: string)
    requires Text.Contains(Text.Lower(level), High) && Text.Contains(Text.Lower(level), Moderate)
    ensures RiskColourOf(Some(JStr(level))) == Some(Red)
  {
  }

  /** The test ignores case: "ÉLEVÉ" and "Risque élevé" are both red. */
  lemma CapitalisedHighIsRed()
    ensures RiskColourOf(Some(JStr("\U{c9}LEV\U{c9}"))) == Some(Red)
    ensures RiskColourOf(Some(JStr("Risque " + High))) == Some(Red)
  {
    var lowered := Text.Lower("\U{c9}LEV\U{c9}");
    assert lowered[0] == '\U{e9}' && lowered[1] == 'l' && lowered[2] == 'e' && lowered[3] == 'v' && lowered[4] == '\U{e9}';
    assert Text.OccursAt(lowered, High, 0);
    var phrase := Text.Lower("Risque " + High);
    assert phrase[7..] == High;
    assert Text.OccursAt(phrase, High, 7);
  }

  /** A missing level, and any string mentioning neither label, is green. */
  lemma NeitherLabelIsGreen(level: string)
    requires !Text.Contains(Text.Lower(level), High) && !Text.Contains(Text.Lower(level), Moderate)
    ensures RiskColourOf(Some(JStr(level))) == Some(Green)
    ensures RiskColourOf(None) == Some(Green)
  {
  }

  /** What `renderContent` shows. */
  datatype Content = Loading | ErrorView(message: Json) | Analysis(strategy: Json)

  function RenderContent(strategyData: Json): (c: Content)
    ensures c.Loading? <==> !Truthy(strategyData)
    ensures c.ErrorView? <==> Truthy(strategyData) && Get(Some(strategyData), "error").Some? && Truthy(Get(Some(strategyData), "error").value)
    ensures c.ErrorView? ==> c.message == strategyData.fields["error"]
    ensures c.Analysis? ==> c.strategy == strategyData
  {
    if !Truthy(strategyData) then Loading
    else
      var error := Get(Some(strategyData), "error");
      if error.Some? && Truthy(error.value) then ErrorView(error.value)
      else Analysis(strategyData)
  }

  /**
   * A scenario card's border: red exactly for the "pessimiste" scenario. `s.type` on a `null`
   * entry throws (`None`); on any other value without that key it is `undefined`, so green.
   */
  function ScenarioBorder(scenario: Json): (border: Option<string>)
    ensures border.None? <==> scenario.JNull?
    ensures border == Some("border-red-500/50") <==> Get(Some(scenario), "type") == Some(JStr("pessimiste"))
    ensures border == Some("border-green-500/50") <==>
      !scenario.JNull? && Get(Some(scenario), "type") != Some(JStr("pessimiste"))
  {
    if scenario.JNull? then None
    else if Get(Some(scenario), "type") == Some(JStr("pessimiste")) then Some("border-red-500/50")
    else Some("border-green-500/50")
  }
}
