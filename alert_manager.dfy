/** The alert form: four input fields, and a submit that emits an alert
    draft (without id) and clears the value. */
module AlertManager {
  import opened Types
  import App

  /** The draft a submit emits: none for an empty value field, otherwise the
      chosen fields, the parsed value and an active flag. */
  function DraftOf(symbol: string, condition: AlertCondition, value: string, side: Side,
                   parseFloat: string -> real): (r: Option<AlertDraft>)
    ensures r.None? <==> value == ""
    ensures r.Some? ==> r.value == AlertDraft(symbol, condition, parseFloat(value), side, true)
  {
    if value == "" then None else Some(AlertDraft(symbol, condition, parseFloat(value), side, true))
  }

  /** The form's state. `parseFloat` is the caller's number parser. */
  class AlertForm {
    var symbol: string
    var condition: AlertCondition
    var value: string
    var side: Side

    /** The first supported asset, PRICE_ABOVE, BUY and an empty value. */
    constructor ()
      ensures symbol == SupportedAssets[0].symbol && condition == PriceAbove && value == "" && side == Long
    {
      symbol := SupportedAssets[0].symbol;
      condition := PriceAbove;
      value := "";
      side := Long;
    }

    method SetSymbol(s: string)
      modifies this`symbol
      ensures symbol == s
    {
      symbol := s;
    }

    method SetCondition(c: AlertCondition)
      modifies this`condition
      ensures condition == c
    {
      condition := c;
    }

    method SetValue(v: string)
      modifies this`value
      ensures value == v
    {
      value := v;
    }

    method SetSide(s: Side)
      modifies this`side
      ensures side == s
    {
      side := s;
    }

    /** `handleSubmit`: emit the draft, then clear only the value field. */
    method HandleSubmit(parseFloat: string -> real) returns (emitted: Option<AlertDraft>)
      modifies this`value
      ensures emitted == DraftOf(symbol, condition, old(value), side, parseFloat)
      ensures emitted.Some? ==> value == ""
      ensures emitted.None? ==> value == old(value)
    {
      if value == "" {
        return None;
      }
      emitted := Some(AlertDraft(symbol, condition, parseFloat(value), side, true));
      value := "";
    }
  }

  /** The delete button passes its own alert's id: that alert disappears and
      every alert with another id stays. */
  lemma DeleteButtonRemovesItsAlert(alerts: seq<UserAlert>, k: nat)
    requires k < |alerts|
    ensures alerts[k] !in App.RemoveId(alerts, alerts[k].id)
    ensures forall a :: a in alerts && a.id != alerts[k].id ==> a in App.RemoveId(alerts, alerts[k].id)
  {
  }

  /** A submitted draft, added under a fresh id, can be deleted again and
      leaves the list as it was. */
  lemma SubmitAddDelete(alerts: seq<UserAlert>, symbol: string, condition: AlertCondition, value: string,
                        side: Side, parseFloat: string -> real, id: string)
    requires value != "" && App.NoAlertWithId(alerts, id)
    ensures var d := DraftOf(symbol, condition, value, side, parseFloat).value;
      App.WithId(d, id).isActive && App.RemoveId(alerts + [App.WithId(d, id)], id) == alerts
  {
    App.AddThenDelete(alerts, DraftOf(symbol, condition, value, side, parseFloat).value, id);
  }
}
