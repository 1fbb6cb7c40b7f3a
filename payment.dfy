/** The payment dialog of the orders page: a transport option is picked from a fixed
    table, and the bill is the produce cost plus that option's fee. Money is modelled
    as whole shillings. */
module Payment {
  import opened Common
  import Seqs

  /** One entry of the transport table. */
  datatype TransportOption = TransportOption(id: string, name: string, fee: nat, eta: string)

  /** The transport table, in the order the dialog lists it. */
  const TransportOptions: seq<TransportOption> := [
    TransportOption("boda", "Boda Boda Express", 250, "Est. 1 day"),
    TransportOption("g4s", "G4S Logistics", 800, "Est. 2 days"),
    TransportOption("pickup", "Self Pickup", 0, "N/A")
  ]

  /** A price or quantity field as `parseFloat` reads it: missing (also when there is no
      order), a number, or text that does not parse (`NaN`). */
  datatype Amount = Missing | Parsed(n: int) | Unparseable {
    /** `parseFloat(x) || d`: the number when it is truthy, the default otherwise. */
    function OrElse(d: int): (r: int)
      ensures r == d || (Parsed? && r == n && n != 0)
      ensures Parsed? && n != 0 ==> r == n
    {
      if Parsed? && n != 0 then n else d
    }
  }

  /** `transportOptions.find(t => t.id === selected)`. */
  function FindTransport(selected: string): (r: Option<TransportOption>)
    ensures r.Some? <==> selected in {"boda", "g4s", "pickup"}
    ensures r.Some? ==> r.value in TransportOptions && r.value.id == selected
  {
    Seqs.Find(TransportOptions, (t: TransportOption) => t.id == selected)
  }

  /** `transport ? transport.fee : 0`. */
  function TransportFee(selected: string): (fee: nat)
    ensures selected == "boda" ==> fee == 250
    ensures selected == "g4s" ==> fee == 800
    ensures selected !in {"boda", "g4s"} ==> fee == 0
  {
    match FindTransport(selected)
    case Some(t) => t.fee
    case None => 0
  }

  /** The default selection names the first option. */
  lemma DefaultTransport()
    ensures FindTransport("boda") == Some(TransportOptions[0])
  {
    assert TransportOptions[0].id == "boda";
  }

  /** The price with `|| 0`: a missing, unparseable or zero price counts as 0. */
  function Price(price: Amount): int {
    price.OrElse(0)
  }

  /** The quantity with `|| 1`: a missing, unparseable or zero quantity counts as 1. */
  function Quantity(quantity: Amount): int {
    quantity.OrElse(1)
  }

  /** `price * quantity + fee`. */
  function TotalBill(price: Amount, quantity: Amount, selected: string): int {
    Price(price) * Quantity(quantity) + TransportFee(selected)
  }

  /** The bill is the produce cost plus the listed fee of the selected option, and the
      produce cost alone when the selection matches no option. */
  lemma BillIsCostPlusFee(price: Amount, quantity: Amount, selected: string)
    ensures forall t :: t in TransportOptions && t.id == selected ==>
              TotalBill(price, quantity, selected) == Price(price) * Quantity(quantity) + t.fee
    ensures (forall t :: t in TransportOptions ==> t.id != selected) ==>
              TotalBill(price, quantity, selected) == Price(price) * Quantity(quantity)
  {
  }

  /** With self pickup the bill is the produce cost. */
  lemma PickupCostsNothingExtra(price: Amount, quantity: Amount)
    ensures TotalBill(price, quantity, "pickup") == Price(price) * Quantity(quantity)
  {
  }

  /** A missing or unparseable price bills as 0, whatever the quantity; a missing,
      unparseable or zero quantity bills as one unit. */
  lemma BillDefaults(price: Amount, quantity: Amount, selected: string)
    ensures !price.Parsed? ==> TotalBill(price, quantity, selected) == TransportFee(selected)
    ensures !quantity.Parsed? || quantity.n == 0 ==>
              TotalBill(price, quantity, selected) == Price(price) + TransportFee(selected)
  {
  }

  /** The dialog's own state. `submitted` records each `onSubmit` call's argument, with
      `None` for `undefined`. */
  class PaymentModal {
    var selectedTransport: string
    var isSubmitting: bool
    var submitted: seq<Option<TransportOption>>

    /** The dialog starts on the first option and is not submitting. */
    constructor ()
      ensures selectedTransport == TransportOptions[0].id == "boda"
      ensures !isSubmitting && submitted == []
    {
      selectedTransport := TransportOptions[0].id;
      isSubmitting := false;
      submitted := [];
    }

    /** The fee shown for the current selection. */
    function Fee(): (fee: nat)
      reads this
      ensures FindTransport(selectedTransport).Some? ==> fee == FindTransport(selectedTransport).value.fee
      ensures FindTransport(selectedTransport).None? ==> fee == 0
    {
      TransportFee(selectedTransport)
    }

    /** The bill shown for an order with the given price and quantity fields. */
    function Bill(price: Amount, quantity: Amount): (total: int)
      reads this
      ensures total == Price(price) * Quantity(quantity) + Fee()
    {
      TotalBill(price, quantity, selectedTransport)
    }

    /** Clicking an option: only the selected id changes. */
    method ChooseTransport(id: string)
      modifies this`selectedTransport
      ensures selectedTransport == id
    {
      selectedTransport := id;
    }

    /** `handleConfirm` up to the `onSubmit` call: the dialog is submitting and hands over
        the option record whose id is the selection. The payment method only names the
        simulated provider. */
    method BeginConfirm(paymentMethod: string) returns (details: Option<TransportOption>)
      modifies this`isSubmitting, this`submitted
      ensures isSubmitting
      ensures details == FindTransport(selectedTransport)
      ensures details.Some? ==> details.value.id == selectedTransport && details.value in TransportOptions
      ensures submitted == old(submitted) + [details]
    {
      isSubmitting := true;
      details := FindTransport(selectedTransport);
      submitted := submitted + [details];
    }

    /** `handleConfirm` after `onSubmit` settled: submitting ends when it resolved; a
        rejection skips the reset, since there is no `finally`. */
    method FinishConfirm(resolved: bool)
      modifies this`isSubmitting
      ensures isSubmitting == (old(isSubmitting) && !resolved)
    {
      if resolved {
        isSubmitting := false;
      }
    }
  }
}
