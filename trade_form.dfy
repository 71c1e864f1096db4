/**
 * The trade entry form: a record of five text fields with fixed initial
 * values. Each input's change handler overwrites the one field named by the
 * input; submitting posts the record and hands the created trade to the
 * caller's callback.
 */
module TradeEntry {
  import opened Wrappers
  import opened Http
  import Json

  /**
   * The form record. The change handler writes a computed key, so the model
   * keeps the record as a map from field name to the input's text.
   */
  type Form = map<string, string>

  /** The trade types offered by the selector. */
  const TradeTypeChoices: seq<string> := ["buy", "sell", "short"]

  /** The initial record: every field empty except the trade type, which is "buy". */
  const InitialForm: Form :=
    map["user_id" := "", "stock_symbol" := "", "trade_type" := "buy", "quantity" := "", "price" := ""]

  lemma InitialFormFields()
    ensures InitialForm.Keys == {"user_id", "stock_symbol", "trade_type", "quantity", "price"}
    ensures InitialForm["trade_type"] == "buy"
    ensures forall k :: k in InitialForm && k != "trade_type" ==> InitialForm[k] == ""
  {
  }

  /** `{ ...form, [name]: value }`. */
  function WithField(form: Form, name: string, value: string): (r: Form)
    ensures r.Keys == form.Keys + {name}
    ensures r[name] == value
    ensures forall k :: k in form && k != name ==> r[k] == form[k]
  {
    form[name := value]
  }

  /** Of two successive changes to the same field only the later value remains. */
  lemma LastChangeWins(form: Form, name: string, first: string, second: string)
    ensures WithField(WithField(form, name, first), name, second) == WithField(form, name, second)
  {
  }

  /** Changes to two different fields do not interfere, whichever comes first. */
  lemma ChangesCommute(form: Form, a: string, x: string, b: string, y: string)
    requires a != b
    ensures WithField(WithField(form, a, x), b, y) == WithField(WithField(form, b, y), a, x)
  {
  }

  /** The trade type holds one of the offered choices. */
  predicate TradeTypeOffered(form: Form) {
    "trade_type" in form && form["trade_type"] in TradeTypeChoices
  }

  /**
   * The initial record offers a valid trade type, and a change keeps it
   * valid unless it writes the trade type with a value the selector does
   * not offer.
   */
  lemma TradeTypeStaysOffered(form: Form, name: string, value: string)
    requires TradeTypeOffered(form)
    requires name == "trade_type" ==> value in TradeTypeChoices
    ensures TradeTypeOffered(InitialForm)
    ensures TradeTypeOffered(WithField(form, name, value))
  {
  }

  class TradeForm {
    var formData: Form

    /** Mounted with the initial record. */
    constructor ()
      ensures formData == InitialForm
    {
      formData := InitialForm;
    }

    /** An input's change event: field `name` takes `value`, every other field keeps its value. */
    method HandleChange(name: string, value: string)
      modifies this
      ensures formData == WithField(old(formData), name, value)
      ensures formData[name] == value
      ensures forall k :: k in old(formData) && k != name ==> formData[k] == old(formData)[k]
    {
      formData := WithField(formData, name, value);
    }

    /**
     * Submit: posts the record as it stands (no validation, the form is not
     * reset) and, once the post resolves, forwards the created trade to the
     * callback. A rejected post forwards nothing.
     */
    method HandleSubmit(response: Response<Json.Value>) returns (request: Form, forwarded: Option<Json.Value>)
      ensures request == formData
      ensures forwarded == (if response.Ok? then Some(response.data) else None)
    {
      request := formData;
      forwarded := if response.Ok? then Some(response.data) else None;
    }
  }
}
