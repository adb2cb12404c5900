/** Order submission from the confirmation modal: the payload mapping, the status
    outcome of the POST, the cart clear on success, and the reset when the modal
    closes. The HTTP response is a parameter: a status code, or a failure (the
    request threw). */
module ConfirmationModal {
  import opened CartStore
  import opened CartContext
  import opened CartPage

  /** `{tick_id, purchase_price, purchase_qty}`. */
  datatype PayloadLine = PayloadLine(tickId: Id, purchasePrice: int, purchaseQty: int)

  /** `cartDetails.map(({id, quantity, totalPrice}) => ({tick_id: id,
      purchase_price: totalPrice, purchase_qty: quantity}))`. */
  function ToPayload(details: seq<Detail>): seq<PayloadLine>
    decreases |details|
  {
    if details == [] then []
    else [PayloadLine(details[0].id, details[0].totalPrice, details[0].quantity)] + ToPayload(details[1..])
  }

  /** Reading the payload back into details, as a reference for the mapping. */
  function FromPayload(payload: seq<PayloadLine>): seq<Detail>
    decreases |payload|
  {
    if payload == [] then []
    else [Detail(payload[0].tickId, payload[0].purchaseQty, payload[0].purchasePrice)] + FromPayload(payload[1..])
  }

  /** The payload loses nothing: it reads back as the details it came from. */
  lemma {:induction false} PayloadRoundTrip(details: seq<Detail>)
    ensures FromPayload(ToPayload(details)) == details
    decreases |details|
  {
    if details != [] {
      PayloadRoundTrip(details[1..]);
    }
  }

  /** The payload has one line per detail, in order, with the fields renamed. */
  lemma {:induction false} ToPayloadAt(details: seq<Detail>)
    ensures |ToPayload(details)| == |details|
    ensures forall i :: 0 <= i < |details| ==>
      ToPayload(details)[i] == PayloadLine(details[i].id, details[i].totalPrice, details[i].quantity)
    decreases |details|
  {
    if details != [] {
      ToPayloadAt(details[1..]);
    }
  }

  /** Built from the cart page's details, every payload line pays the whole cart
      total for its instrument. */
  lemma PayloadFromCart(c: seq<Item>)
    ensures var p := ToPayload(Details(c, TotalAmount(c)));
      && |p| == |c|
      && forall i :: 0 <= i < |c| ==>
           p[i].tickId == c[i].id && p[i].purchaseQty == c[i].quantity && p[i].purchasePrice == TotalAmount(c)
  {
    DetailsAt(c, TotalAmount(c));
    ToPayloadAt(Details(c, TotalAmount(c)));
  }

  // ---------------------------------------------------------------------------
  // Outcome

  /** What the POST came back with: an HTTP status, or a thrown error. */
  datatype Response = Answered(code: int) | Failed

  /** `null`, `"success"` or `"error"`. */
  datatype Status = NoStatus | Success | Error

  function ConfirmStatus(response: Response): Status {
    if response == Answered(200) then Success else Error
  }

  /** Only a 200 answer is a success; every other answer, and every failure, is
      an error; a finished confirm never leaves the status empty. */
  lemma StatusCases(response: Response)
    ensures ConfirmStatus(response) == Success <==> response == Answered(200)
    ensures ConfirmStatus(response) == Error <==> response != Answered(200)
    ensures ConfirmStatus(response) != NoStatus
  {
  }

  class ModalState {
    var loading: bool
    var status: Status
    /** Payloads posted to "/place-order", oldest first. */
    var posted: seq<seq<PayloadLine>>
    /** The cart provider whose `clearCart` the modal calls. */
    const provider: CartProvider

    ghost predicate Valid()
      reads this, provider, provider.store
    {
      provider.Valid()
    }

    constructor (provider: CartProvider)
      requires provider.Valid()
      ensures Valid() && this.provider == provider
      ensures !loading && status == NoStatus && posted == []
    {
      this.provider := provider;
      loading := false;
      status := NoStatus;
      posted := [];
    }

    /** `handleConfirm`: post the payload; on a 200 answer set "success" and
        clear the cart, otherwise set "error" and leave the cart alone; in every
        outcome `loading` ends false. */
    method HandleConfirm(details: seq<Detail>, response: Response)
      requires Valid()
      modifies this, provider, provider.store
      ensures Valid()
      ensures posted == old(posted) + [ToPayload(details)]
      ensures status == ConfirmStatus(response) && !loading
      ensures response == Answered(200) ==> provider.cart == [] && provider.store.records == map[]
      ensures response != Answered(200) ==>
        provider.cart == old(provider.cart) && provider.store.records == old(provider.store.records)
    {
      loading := true;
      status := NoStatus;
      var formatted := ToPayload(details);
      posted := posted + [formatted];
      match response {
        case Answered(code) =>
          if code == 200 {
            status := Success;
            provider.ClearCart();
          } else {
            status := Error;
          }
        case Failed =>
          status := Error;
      }
      loading := false;
    }

    /** The effect on `isOpen`: closing resets the status and `loading`. */
    method OnOpenChange(isOpen: bool)
      requires Valid()
      modifies this
      ensures Valid() && posted == old(posted)
      ensures !isOpen ==> status == NoStatus && !loading
      ensures isOpen ==> status == old(status) && loading == old(loading)
    {
      if !isOpen {
        status := NoStatus;
        loading := false;
      }
    }
  }
}
