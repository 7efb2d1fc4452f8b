/** The checkout form: a three-step machine ("selection", "address", "card")
    that ends by calling `onComplete(addressId, cardId)` or `onCancel()`.
    Saved addresses and cards are represented by their ids. The network
    calls that create an address or a card are inputs: the id they return,
    or nothing when the call failed or returned no id. */
module CheckoutForm {
  import opened Wrappers

  datatype Step = Selection | AddressForm | CardForm

  /** The fields of the new-address form, one per input of the form. */
  datatype AddressField = Name | Street1 | Street2 | City | Province | Country | Zip | Phone

  datatype NewAddress = NewAddress(
    name: string,
    street1: string,
    street2: string,
    city: string,
    province: string,
    country: string,
    zip: string,
    phone: string)

  /** The form's starting contents; the country defaults to "US". */
  const BlankAddress: NewAddress := NewAddress("", "", "", "", "", "US", "", "")

  /** Which callback of the parent a handler invoked, if any. */
  datatype Callback = NoCallback | Complete(addressId: string, cardId: string) | Cancel

  function Field(a: NewAddress, f: AddressField): string
  {
    match f
    case Name => a.name
    case Street1 => a.street1
    case Street2 => a.street2
    case City => a.city
    case Province => a.province
    case Country => a.country
    case Zip => a.zip
    case Phone => a.phone
  }

  /** `{ ...prev, [name]: value }`: the named field takes the value, every
      other field keeps its own. */
  function WithField(a: NewAddress, f: AddressField, value: string): (r: NewAddress)
    ensures Field(r, f) == value
    ensures forall g :: g != f ==> Field(r, g) == Field(a, g)
  {
    match f
    case Name => a.(name := value)
    case Street1 => a.(street1 := value)
    case Street2 => a.(street2 := value)
    case City => a.(city := value)
    case Province => a.(province := value)
    case Country => a.(country := value)
    case Zip => a.(zip := value)
    case Phone => a.(phone := value)
  }

  /** The step the form opens on: the selection screen when there is
      something to select on both sides, the address form when there is no
      address, and the card form when there are addresses but no card. */
  function InitialStep(addresses: seq<string>, cards: seq<string>): (r: Step)
    ensures r == Selection <==> |addresses| > 0 && |cards| > 0
    ensures r == AddressForm <==> |addresses| == 0
    ensures r == CardForm <==> |addresses| > 0 && |cards| == 0
  {
    if |addresses| > 0 && |cards| > 0 then Selection
    else if |addresses| == 0 then AddressForm
    else CardForm
  }

  /** The id selected at the start: the first one offered, or "" when none is. */
  function DefaultId(ids: seq<string>): (r: string)
    ensures |ids| > 0 ==> r == ids[0] && r in ids
    ensures |ids| == 0 ==> r == ""
  {
    if |ids| > 0 then ids[0] else ""
  }

  /** The saved ids the API hands out are non-empty strings. */
  predicate IdsNonEmpty(ids: seq<string>)
  {
    forall i :: 0 <= i < |ids| ==> ids[i] != ""
  }

  /** A handler that creates something succeeded when it got a truthy id back. */
  predicate Created(response: Option<string>)
  {
    response.Some? && response.value != ""
  }

  class CheckoutForm {
    const addresses: seq<string>
    var cards: seq<string>
    var step: Step
    var selectedAddressId: string
    var selectedCardId: string
    var newAddress: NewAddress

    /** What every step needs for `onComplete` to be called with real ids:
        on the selection screen both ids are chosen; on the address form a
        card id is chosen whenever there are cards (and an address id too
        when there are addresses to go back to); on the card form the
        address id is chosen. */
    predicate Ready()
      reads this
    {
      && IdsNonEmpty(addresses) && IdsNonEmpty(cards)
      && (step == Selection ==> selectedAddressId != "" && selectedCardId != "")
      && (step == AddressForm ==>
            && (|addresses| > 0 ==> selectedAddressId != "" && selectedCardId != "")
            && (|cards| > 0 ==> selectedCardId != ""))
      && (step == CardForm ==> selectedAddressId != "" && (|cards| > 0 ==> selectedCardId != ""))
    }

    constructor (addresses: seq<string>, cards: seq<string>)
      ensures this.addresses == addresses && this.cards == cards
      ensures step == InitialStep(addresses, cards)
      ensures selectedAddressId == DefaultId(addresses) && selectedCardId == DefaultId(cards)
      ensures newAddress == BlankAddress
      ensures IdsNonEmpty(addresses) && IdsNonEmpty(cards) ==> Ready()
    {
      this.addresses := addresses;
      this.cards := cards;
      step := InitialStep(addresses, cards);
      selectedAddressId := DefaultId(addresses);
      selectedCardId := DefaultId(cards);
      newAddress := BlankAddress;
    }

    /** Typing into one input of the address form. */
    method ChangeAddressField(f: AddressField, value: string)
      requires step == AddressForm
      modifies this`newAddress
      ensures newAddress == WithField(old(newAddress), f, value)
      ensures Field(newAddress, f) == value
      ensures forall g :: g != f ==> Field(newAddress, g) == Field(old(newAddress), g)
      ensures old(Ready()) ==> Ready()
    {
      newAddress := WithField(newAddress, f, value);
    }

    /** SAVE ADDRESS, given the id the address endpoint returned. On success
        the new address is selected; checkout completes when a card is
        available, otherwise the card form opens. On failure nothing changes. */
    method SubmitAddress(response: Option<string>) returns (cb: Callback)
      requires step == AddressForm
      modifies this`selectedAddressId, this`step
      ensures !Created(response) ==> cb == NoCallback && unchanged(this)
      ensures Created(response) ==> selectedAddressId == response.value
      ensures Created(response) && (|cards| > 0 || selectedCardId != "") ==>
        cb == Complete(response.value, selectedCardId) && step == AddressForm
      ensures Created(response) && |cards| == 0 && selectedCardId == "" ==>
        cb == NoCallback && step == CardForm
      ensures old(Ready()) ==> Ready()
      ensures old(Ready()) && cb.Complete? ==> cb.addressId != "" && cb.cardId != ""
    {
      cb := NoCallback;
      if response.Some? && response.value != "" {
        selectedAddressId := response.value;
        if |cards| > 0 || selectedCardId != "" {
          cb := Complete(response.value, selectedCardId);
        } else {
          step := CardForm;
        }
      }
    }

    /** COMPLETE CARD ENTRY, given the id the card endpoint returned. On
        success the new card is selected and checkout completes with the
        selected address. On failure nothing changes. */
    method CreateCard(response: Option<string>) returns (cb: Callback)
      requires step == CardForm
      modifies this`selectedCardId
      ensures !Created(response) ==> cb == NoCallback && unchanged(this)
      ensures Created(response) ==>
        selectedCardId == response.value && cb == Complete(old(selectedAddressId), response.value)
      ensures old(Ready()) ==> Ready()
      ensures old(Ready()) && cb.Complete? ==> cb.addressId != "" && cb.cardId != ""
    {
      cb := NoCallback;
      if response.Some? && response.value != "" {
        selectedCardId := response.value;
        cb := Complete(selectedAddressId, response.value);
      }
    }

    /** COMPLETE CHECKOUT on the selection screen: exactly the selected ids. */
    method SelectionComplete() returns (cb: Callback)
      requires step == Selection
      ensures cb == Complete(selectedAddressId, selectedCardId)
      ensures Ready() ==> cb.addressId != "" && cb.cardId != ""
    {
      cb := Complete(selectedAddressId, selectedCardId);
    }

    /** CANCEL on the selection screen. */
    method CancelSelection() returns (cb: Callback)
      requires step == Selection
      ensures cb == Cancel
    {
      cb := Cancel;
    }

    /** Picking an address in the selection list. */
    method ChooseAddress(id: string)
      requires step == Selection && id in addresses
      modifies this`selectedAddressId
      ensures selectedAddressId == id
      ensures old(Ready()) ==> Ready()
    {
      selectedAddressId := id;
    }

    /** Picking a card in the selection list. */
    method ChooseCard(id: string)
      requires step == Selection && id in cards
      modifies this`selectedCardId
      ensures selectedCardId == id
      ensures old(Ready()) ==> Ready()
    {
      selectedCardId := id;
    }

    /** ADD NEW ADDRESS on the selection screen. */
    method OpenAddressForm()
      requires step == Selection
      modifies this`step
      ensures step == AddressForm
      ensures old(Ready()) ==> Ready()
    {
      step := AddressForm;
    }

    /** ADD NEW CARD on the selection screen. */
    method OpenCardForm()
      requires step == Selection
      modifies this`step
      ensures step == CardForm
      ensures old(Ready()) ==> Ready()
    {
      step := CardForm;
    }

    /** BACK on the address form: to the selection screen when there are
        saved addresses, otherwise out of checkout. */
    method BackFromAddress() returns (cb: Callback)
      requires step == AddressForm
      modifies this`step
      ensures |addresses| > 0 ==> step == Selection && cb == NoCallback
      ensures |addresses| == 0 ==> step == AddressForm && cb == Cancel
      ensures old(Ready()) ==> Ready()
    {
      cb := NoCallback;
      if |addresses| > 0 {
        step := Selection;
      } else {
        cb := Cancel;
      }
    }

    /** BACK on the card form: to the selection screen when there are saved
        cards, otherwise out of checkout. */
    method BackFromCard() returns (cb: Callback)
      requires step == CardForm
      modifies this`step
      ensures |cards| > 0 ==> step == Selection && cb == NoCallback
      ensures |cards| == 0 ==> step == CardForm && cb == Cancel
      ensures old(Ready()) ==> Ready()
    {
      cb := NoCallback;
      if |cards| > 0 {
        step := Selection;
      } else {
        cb := Cancel;
      }
    }

    /** The parent re-renders the form with a re-fetched card list (after
        REFRESH). The selection state is kept as it is: `useState` only reads
        its initial value once. */
    method ReceiveCards(fetched: seq<string>)
      modifies this`cards
      ensures cards == fetched
    {
      cards := fetched;
    }

    /** The same re-render, selecting the first card when no card id is
        chosen yet, so the selection screen never offers a card list while
        holding the empty id. */
    method ReceiveCardsSelectingFirst(fetched: seq<string>)
      modifies this`cards, this`selectedCardId
      ensures cards == fetched
      ensures selectedCardId == if old(selectedCardId) == "" then DefaultId(fetched) else old(selectedCardId)
      ensures old(Ready()) && IdsNonEmpty(fetched) ==> Ready()
    {
      cards := fetched;
      if selectedCardId == "" && |fetched| > 0 {
        selectedCardId := fetched[0];
      }
    }
  }

  /** One address, no card: the form opens on the card form. The user enters
      a card in the collection window and refreshes the list, goes BACK to
      the selection screen and completes checkout. As written the card id
      passed on is the empty string. */
  method RefreshedCardNotSelected() returns (cb: Callback)
    ensures cb == Complete("addr_1", "")
  {
    var form := new CheckoutForm(["addr_1"], []);
    form.ReceiveCards(["card_1"]);
    var back := form.BackFromCard();
    cb := form.SelectionComplete();
  }

  /** The same sequence with the corrected re-render completes with the
      refreshed card. */
  method RefreshedCardSelected() returns (cb: Callback)
    ensures cb == Complete("addr_1", "card_1")
  {
    var form := new CheckoutForm(["addr_1"], []);
    form.ReceiveCardsSelectingFirst(["card_1"]);
    var back := form.BackFromCard();
    cb := form.SelectionComplete();
  }
}
