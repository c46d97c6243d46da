/**
 * The stat card: how its value is displayed (loading, missing, or
 * formatted by the card's type) and how the change row classifies the
 * sign of a change, optionally inverted for metrics where lower is better.
 */
module StatCard {

  import opened Wrappers
  import opened Text
  import ApiClient
  import opened Js

  /** The three formatters of `utils/api` the card chooses from. */
  datatype Formatters = Formatters(currency: real -> string, percentage: real -> string, number: real -> string)

  /** `formatValue`: `...` while loading, `-` without a value, else the formatter of the card's type. */
  function FormatValue(value: JsNumber, kind: string, loading: bool, f: Formatters): (s: string)
    ensures loading ==> s == "..."
    ensures !loading && !value.Num? ==> s == "-"
    ensures !loading && value.Num? && kind == "currency" ==> s == f.currency(value.x)
    ensures !loading && value.Num? && kind == "percentage" ==> s == f.percentage(value.x)
    ensures !loading && value.Num? && kind !in {"currency", "percentage"} ==> s == f.number(value.x)
  {
    if loading then "..."
    else if !value.Num? then "-"
    else if kind == "currency" then f.currency(value.x)
    else if kind == "percentage" then f.percentage(value.x)
    else f.number(value.x)
  }

  /** A loaded currency card shows a minus sign exactly for a negative amount. */
  lemma CurrencyCardSign(x: real, code: string, number: real -> string, f: Formatters)
    requires f.currency == (v => ApiClient.FormatCurrency(v, code, number))
    ensures StartsWith(FormatValue(Num(x), "currency", false, f), "-") <==> x < 0.0
  {
    ApiClient.SignShown(x, code, number);
  }

  /** The colour of the change row. */
  datatype Tone = Green | Red | Gray

  function ToneClass(t: Tone): string {
    match t
    case Green => "text-green-600"
    case Red => "text-red-600"
    case Gray => "text-gray-600"
  }

  /** `getChangeColor`: green for an improvement, red for a decline, gray for no change. */
  function ChangeColor(change: real, invert: bool): (t: Tone)
    ensures !invert ==> (t == Green <==> change > 0.0) && (t == Red <==> change < 0.0)
    ensures invert ==> (t == Green <==> change < 0.0) && (t == Red <==> change > 0.0)
    ensures t == Gray <==> change == 0.0
  {
    var improved := if invert then change < 0.0 else change > 0.0;
    var declined := if invert then change > 0.0 else change < 0.0;
    if improved then Green else if declined then Red else Gray
  }

  /** Inverting the colours is colouring the opposite change. */
  lemma InvertIsNegation(change: real)
    ensures ChangeColor(change, true) == ChangeColor(-change, false)
  {
  }

  /** `getChangeIcon`: up, down, or a dash for no change. */
  function ChangeIcon(change: real): (icon: string)
    ensures icon == "↑" <==> change > 0.0
    ensures icon == "↓" <==> change < 0.0
    ensures icon == "−" <==> change == 0.0
  {
    if change > 0.0 then "↑" else if change < 0.0 then "↓" else "−"
  }

  /** Without inversion the icon points up exactly when the row is green, down exactly when red. */
  lemma IconMatchesColor(change: real)
    ensures ChangeIcon(change) == "↑" <==> ChangeColor(change, false) == Green
    ensures ChangeIcon(change) == "↓" <==> ChangeColor(change, false) == Red
  {
  }

  /** The change row: its icon, colour, the magnitude shown and the comparison caption. */
  datatype ChangeLine = ChangeLine(icon: string, tone: Tone, magnitude: real, caption: string)

  /** The change row, shown only for a change that is neither null nor undefined. */
  function ChangeRow(change: JsNumber, invert: bool, comparisonLabel: Option<string>): (r: Option<ChangeLine>)
    ensures r.Some? <==> change.Num?
    ensures r.Some? ==> r.value.magnitude >= 0.0 && (r.value.magnitude == change.x || r.value.magnitude == -change.x)
    ensures r.Some? ==> r.value.icon == ChangeIcon(change.x) && r.value.tone == ChangeColor(change.x, invert)
    ensures r.Some? && comparisonLabel.Some? && comparisonLabel.value != "" ==> r.value.caption == comparisonLabel.value
    ensures r.Some? && (comparisonLabel.None? || comparisonLabel.value == "") ==> r.value.caption == "vs previous period"
  {
    if !change.Num? then None
    else
      var caption := if comparisonLabel.Some? && comparisonLabel.value != "" then comparisonLabel.value else "vs previous period";
      Some(ChangeLine(ChangeIcon(change.x), ChangeColor(change.x, invert),
                      if change.x < 0.0 then -change.x else change.x, caption))
  }

  /** A zero change is shown, gray and with the dash, whichever way the colours run. */
  lemma ZeroChangeShown(invert: bool, comparisonLabel: Option<string>)
    ensures var r := ChangeRow(Num(0.0), invert, comparisonLabel);
            r.Some? && r.value.tone == Gray && r.value.icon == "−" && r.value.magnitude == 0.0
  {
  }
}
