/** The ticket type create/edit dialog: its validation rules, its default
    values and the reset from the ticket type being edited. */
module TicketTypeModal {
  import opened Js

  /** A number input read with `valueAsNumber`: a value, or NaN when empty. */
  datatype Numeric = Num(value: real) | NotANumber

  datatype FormValues = FormValues(name: string, price: Numeric, quantity: Numeric)

  datatype Field = Name | Price | Quantity

  predicate IsInteger(x: real)
  {
    x.Floor as real == x
  }

  /** The fields the schema rejects: an empty name, a price that is NaN or
      negative, a quantity that is NaN, fractional or below 1. */
  function Errors(v: FormValues): (r: set<Field>)
    ensures Name in r <==> v.name == ""
    ensures Price in r <==> !(v.price.Num? && v.price.value >= 0.0)
    ensures Quantity in r <==> !(v.quantity.Num? && IsInteger(v.quantity.value) && v.quantity.value >= 1.0)
  {
    (if |v.name| >= 1 then {} else {Name})
    + (if v.price.Num? && v.price.value >= 0.0 then {} else {Price})
    + (if v.quantity.Num? && IsInteger(v.quantity.value) && v.quantity.value >= 1.0 then {} else {Quantity})
  }

  const Defaults: FormValues := FormValues("", Num(0.0), Num(0.0))

  /** The default values fail on the name and on the quantity of 0, and only there. */
  lemma DefaultsRejected()
    ensures Errors(Defaults) == {Name, Quantity}
  {
    assert Price !in Errors(Defaults);
    assert Name in Errors(Defaults) && Quantity in Errors(Defaults);
  }

  /** A quantity of 1.5 is rejected although it is at least 1. */
  lemma FractionalQuantityRejected()
    ensures Quantity in Errors(FormValues("VIP", Num(100.0), Num(1.5)))
  {
    assert (1.5).Floor == 1;
  }

  /** The reset effect: given `initialData`, the form takes it whole. */
  function AfterEffect(current: FormValues, initialData: Option<FormValues>): (r: FormValues)
    ensures initialData.Some? ==> r == initialData.value
    ensures initialData.None? ==> r == current
  {
    match initialData
    case Some(d) => d
    case None => current
  }

  /** Editing an existing valid ticket type starts from a form the schema accepts. */
  lemma EditStartsValid(current: FormValues, d: FormValues)
    requires Errors(d) == {}
    ensures Errors(AfterEffect(current, Some(d))) == {}
  {
  }
}
