/**
 * The admin panel's add-card form: the form record, one setter per input,
 * the add/cancel toggling of the form, and saving, which checks that the
 * name, yield and price are all truthy and then resets the form.
 *
 * Saving only logs the card; nothing is stored.
 */
module Admin {
  import opened Wrappers

  datatype CardForm = CardForm(
    name: string,
    currency: string,
    hourlyYield: real,
    price: real,
    description: string,
    rarity: string)

  /** The form's initial contents, restored after each successful save. */
  const EmptyForm: CardForm := CardForm("", "shrouk", 0.0, 0.0, "", "common")

  /**
   * A numeric input read as `parseFloat(text) || 0`: `None` stands for text
   * that does not parse (NaN), which becomes 0 like a typed 0.
   */
  function NumberField(parsed: Option<real>): (v: real)
    ensures v == 0.0 <==> parsed.None? || parsed == Some(0.0)
    ensures v != 0.0 ==> parsed == Some(v)
  {
    match parsed
    case Some(x) => x
    case None => 0.0
  }

  /** The panel's state: whether the form is open, and its contents. */
  datatype Panel = Panel(isAddingCard: bool, newCard: CardForm)

  /** The state after a save, and the card it added, if any. */
  datatype SaveResult = SaveResult(panel: Panel, added: Option<CardForm>)

  /** `handleAddCard`: refuse an incomplete form, otherwise add it, reset the form and close it. */
  function AddCard(p: Panel): (r: SaveResult)
    ensures r.added.None? <==> p.newCard.name == "" || p.newCard.hourlyYield == 0.0 || p.newCard.price == 0.0
    ensures r.added.None? ==> r.panel == p
    ensures r.added.Some? ==> r.added.value == p.newCard && r.panel == Panel(false, EmptyForm)
  {
    var f := p.newCard;
    if f.name == "" || f.hourlyYield == 0.0 || f.price == 0.0 then SaveResult(p, None)
    else SaveResult(Panel(false, EmptyForm), Some(f))
  }

  /** The truthiness check lets negative yields and prices through. */
  lemma NegativeAmountsAccepted(p: Panel)
    requires p.newCard.name != "" && p.newCard.hourlyYield < 0.0 && p.newCard.price < 0.0
    ensures AddCard(p).added == Some(p.newCard)
  {
  }

  /** A yield or price typed as text that does not parse is refused at save. */
  lemma UnparseableRejected(isAddingCard: bool, f: CardForm, yieldText: Option<real>, priceText: Option<real>)
    requires yieldText.None? || priceText.None?
    ensures AddCard(Panel(isAddingCard, f.(hourlyYield := NumberField(yieldText), price := NumberField(priceText)))).added.None?
  {
  }

  /** A successful save cannot be repeated: the reset form is refused. */
  lemma SaveNotRepeated(p: Panel)
    requires AddCard(p).added.Some?
    ensures AddCard(AddCard(p).panel) == SaveResult(AddCard(p).panel, None)
  {
  }

  /**
   * The admin panel component: its form state updated in place by the
   * handlers. The form's inputs, Save and Cancel are shown only while the
   * form is open, so every handler but the add button requires it open.
   */
  class AdminPanel {
    var isAddingCard: bool
    var newCard: CardForm

    function State(): Panel
      reads this
    {
      Panel(isAddingCard, newCard)
    }

    constructor ()
      ensures State() == Panel(false, EmptyForm)
    {
      isAddingCard := false;
      newCard := EmptyForm;
    }

    /** The add button opens a closed form and closes an open one, keeping its contents. */
    method ToggleAddCard()
      modifies this
      ensures isAddingCard == !old(isAddingCard) && newCard == old(newCard)
    {
      isAddingCard := !isAddingCard;
    }

    /** Cancel closes the form without clearing it. */
    method Cancel()
      requires isAddingCard
      modifies this
      ensures !isAddingCard && newCard == old(newCard)
    {
      isAddingCard := false;
    }

    method SetName(name: string)
      requires isAddingCard
      modifies this
      ensures newCard == old(newCard).(name := name) && isAddingCard == old(isAddingCard)
    {
      newCard := newCard.(name := name);
    }

    method SetRarity(rarity: string)
      requires isAddingCard
      modifies this
      ensures newCard == old(newCard).(rarity := rarity) && isAddingCard == old(isAddingCard)
    {
      newCard := newCard.(rarity := rarity);
    }

    method SetHourlyYield(parsed: Option<real>)
      requires isAddingCard
      modifies this
      ensures newCard == old(newCard).(hourlyYield := NumberField(parsed)) && isAddingCard == old(isAddingCard)
    {
      newCard := newCard.(hourlyYield := NumberField(parsed));
    }

    method SetPrice(parsed: Option<real>)
      requires isAddingCard
      modifies this
      ensures newCard == old(newCard).(price := NumberField(parsed)) && isAddingCard == old(isAddingCard)
    {
      newCard := newCard.(price := NumberField(parsed));
    }

    method SetCurrency(currency: string)
      requires isAddingCard
      modifies this
      ensures newCard == old(newCard).(currency := currency) && isAddingCard == old(isAddingCard)
    {
      newCard := newCard.(currency := currency);
    }

    method SetDescription(description: string)
      requires isAddingCard
      modifies this
      ensures newCard == old(newCard).(description := description) && isAddingCard == old(isAddingCard)
    {
      newCard := newCard.(description := description);
    }

    method HandleAddCard() returns (added: Option<CardForm>)
      requires isAddingCard
      modifies this
      ensures AddCard(old(State())) == SaveResult(State(), added)
    {
      if newCard.name == "" || newCard.hourlyYield == 0.0 || newCard.price == 0.0 {
        return None;
      }
      added := Some(newCard);
      newCard := EmptyForm;
      isAddingCard := false;
    }
  }
}
