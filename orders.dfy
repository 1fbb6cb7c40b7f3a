/** The buyer's orders page: orders bucketed into tabs by status, id-to-name tables for
    products and farmers, and paying for an accepted order. */
module Orders {
  import opened Common
  import Buckets
  import Lookup
  import Payment

  /** The `product` or `farmer` field of an order: an id as fetched, or the `{ name }`
      object the payment dialog is given, whose name may be `undefined`. */
  datatype Ref = Id(id: string) | Named(name: Option<string>) {
    /** The property key `table[ref]` looks up: the id, or what an object turns into. */
    function Key(): string {
      match this
      case Id(id) => id
      case Named(_) => "[object Object]"
    }
  }

  /** The fields of an order the page reads. */
  datatype Order = Order(id: string, status: string, transporting: Flag, product: Ref, farmer: Ref,
                         price: Payment.Amount, quantity: Payment.Amount, transport: Field)

  /** The tab an order is pushed to. */
  function OrderTab(o: Order): string {
    if o.status == "paid" then
      if o.transporting.Truthy() then "paid" else "accepted"
    else if o.status == "declined" then "rejected"
    else o.status
  }

  /** The accumulator's initial arrays, which are also the five tabs the page shows. */
  const InitialTabs: set<string> := {"pending", "accepted", "rejected", "paid", "delivered"}

  /** A paid order is in transit exactly when its `transporting` flag is truthy; every
      other paid order stays with the accepted ones. */
  lemma PaidOrderTab(o: Order)
    requires o.status == "paid"
    ensures OrderTab(o) == "paid" <==> o.transporting.Truthy()
    ensures OrderTab(o) == "accepted" <==> !o.transporting.Truthy()
  {
  }

  /** Declined orders go to `rejected`; an order with another status that is not `paid`
      goes to the tab named by its status. */
  lemma UnpaidOrderTab(o: Order)
    requires o.status != "paid"
    ensures o.status == "declined" ==> OrderTab(o) == "rejected"
    ensures o.status != "declined" ==> OrderTab(o) == o.status
  {
  }

  /** The `useMemo` reduce over the fetched orders. */
  method GroupOrders(orders: seq<Order>) returns (acc: map<string, seq<Order>>)
    ensures Buckets.IsPartition(acc, orders, OrderTab, InitialTabs)
    ensures InitialTabs <= acc.Keys
  {
    acc := Buckets.Collect(orders, OrderTab, InitialTabs);
  }

  /** The accumulator's arrays hold every order once: their sizes add up to the number
      of orders, and an order is in the array of its own tab and in no other. */
  lemma OrdersLandOnce(acc: map<string, seq<Order>>, orders: seq<Order>, keys: seq<string>, o: Order)
    requires Buckets.IsPartition(acc, orders, OrderTab, InitialTabs)
    requires Buckets.Distinct(keys) && forall k :: k in acc ==> k in keys
    requires o in orders
    ensures Buckets.Total(acc, keys) == |orders|
    ensures OrderTab(o) in acc && o in acc[OrderTab(o)]
    ensures forall k :: k in acc && k != OrderTab(o) ==> o !in acc[k]
  {
    Buckets.PartitionSizes(acc, orders, OrderTab, InitialTabs, keys);
    Buckets.ExactlyOneBucket(acc, orders, OrderTab, InitialTabs, o);
  }

  /** An order whose tab is not one of the five is shown under no tab. */
  lemma UnknownStatusHidden(acc: map<string, seq<Order>>, orders: seq<Order>, o: Order)
    requires Buckets.IsPartition(acc, orders, OrderTab, InitialTabs)
    requires o in orders && OrderTab(o) !in InitialTabs
    ensures forall k :: k in InitialTabs ==> o !in acc[k]
  {
    Buckets.ExactlyOneBucket(acc, orders, OrderTab, InitialTabs, o);
  }

  /** `handleOpenPaymentModal`: the order with `product` and `farmer` replaced by
      `{ name: table[ref] }`. */
  function SelectForPayment(o: Order, productsMap: map<string, string>, farmersMap: map<string, string>): (r: Order)
    ensures r.product == Named(Lookup.Get(productsMap, o.product.Key()))
    ensures r.farmer == Named(Lookup.Get(farmersMap, o.farmer.Key()))
    ensures r.(product := o.product, farmer := o.farmer) == o
  {
    o.(product := Named(Lookup.Get(productsMap, o.product.Key())),
       farmer := Named(Lookup.Get(farmersMap, o.farmer.Key())))
  }

  /** The body of `POST /api/transport`. */
  datatype TransportPayload = TransportPayload(id: string, transport: string)

  datatype ApiCall = GetOrders | GetProducts | GetUsers | PostTransport(payload: TransportPayload)

  /** The three requests `fetchData` sends together. */
  const FetchCalls: seq<ApiCall> := [GetOrders, GetProducts, GetUsers]

  /** The outcome of `Promise.all` over the three requests. */
  datatype FetchResult = FetchFailed | Fetched(orders: seq<Order>, products: seq<Lookup.Keyed>, users: seq<Lookup.Keyed>)

  const FetchError := "Failed to fetch your orders."
  const PaymentSuccess := "Payment successful! Your order is now in transit."

  /** The payload sent for a selected order and the transport record the dialog passed;
      `None` when that record is `undefined`, where reading its name throws. */
  function PaymentPayload(selected: Order, details: Option<Payment.TransportOption>): (r: Option<TransportPayload>)
    ensures r.Some? <==> details.Some?
    ensures r.Some? ==> r.value.id == selected.id && r.value.transport == details.value.name
  {
    match details
    case Some(t) => Some(TransportPayload(selected.id, t.name))
    case None => None
  }

  class OrdersPage {
    var orders: seq<Order>
    var productsMap: map<string, string>
    var farmersMap: map<string, string>
    var loading: bool
    var error: string
    var successMessage: string
    var isPaymentModalOpen: bool
    var selectedOrder: Option<Order>
    var isSubmitting: bool
    var activeTab: string
    var requests: seq<ApiCall>

    /** Mounting the page: the initial state, and `fetchData` starts. */
    constructor ()
      ensures orders == [] && productsMap == map[] && farmersMap == map[]
      ensures loading && error == "" && successMessage == ""
      ensures !isPaymentModalOpen && selectedOrder == None && !isSubmitting
      ensures activeTab == "accepted"
      ensures requests == FetchCalls
    {
      orders, productsMap, farmersMap := [], map[], map[];
      loading, error, successMessage := true, "", "";
      isPaymentModalOpen, selectedOrder, isSubmitting := false, None, false;
      activeTab := "accepted";
      requests := FetchCalls;
    }

    /** `fetchData` up to its `await`. */
    method BeginFetch()
      modifies this`loading, this`requests
      ensures loading && requests == old(requests) + FetchCalls
    {
      loading := true;
      requests := requests + FetchCalls;
    }

    /** `fetchData` after `Promise.all` settled: on success the orders and both tables are
        replaced; on failure they are kept and the error is set. Loading ends either way;
        a success does not clear an earlier error. */
    method DataLoaded(result: FetchResult)
      modifies this`orders, this`productsMap, this`farmersMap, this`error, this`loading
      ensures !loading
      ensures result.Fetched? ==>
                && orders == result.orders
                && productsMap == Lookup.NameMap(result.products)
                && farmersMap == Lookup.NameMap(result.users)
                && error == old(error)
      ensures result.FetchFailed? ==>
                && orders == old(orders) && productsMap == old(productsMap) && farmersMap == old(farmersMap)
                && error == FetchError
    {
      match result {
        case Fetched(os, ps, us) =>
          orders := os;
          productsMap := Lookup.NameMap(ps);
          farmersMap := Lookup.NameMap(us);
        case FetchFailed =>
          error := FetchError;
      }
      loading := false;
    }

    /** The buckets of the current orders. */
    method Grouped() returns (acc: map<string, seq<Order>>)
      ensures Buckets.IsPartition(acc, orders, OrderTab, InitialTabs)
    {
      acc := GroupOrders(orders);
    }

    /** A tab button. */
    method SelectTab(tab: string)
      modifies this`activeTab
      ensures activeTab == tab
    {
      activeTab := tab;
    }

    /** "Arrange & Pay" on an order. */
    method OpenPaymentModal(o: Order)
      modifies this`selectedOrder, this`isPaymentModalOpen
      ensures selectedOrder == Some(SelectForPayment(o, productsMap, farmersMap))
      ensures isPaymentModalOpen
    {
      selectedOrder := Some(SelectForPayment(o, productsMap, farmersMap));
      isPaymentModalOpen := true;
    }

    /** The dialog's cancel button. */
    method ClosePaymentModal()
      modifies this`isPaymentModalOpen
      ensures !isPaymentModalOpen
    {
      isPaymentModalOpen := false;
    }

    /** `handlePaymentSubmit` up to the `POST`. Without a selected order nothing happens
        (`sent` is false). An `undefined` transport record throws before the request; the
        `catch` alerts and the `finally` resets `isSubmitting`. Otherwise the payload is
        sent and the page is submitting. */
    method BeginPaymentSubmit(details: Option<Payment.TransportOption>) returns (sent: bool)
      modifies this`isSubmitting, this`requests
      ensures selectedOrder.None? ==> !sent && isSubmitting == old(isSubmitting) && requests == old(requests)
      ensures selectedOrder.Some? && details.None? ==> !sent && !isSubmitting && requests == old(requests)
      ensures selectedOrder.Some? && details.Some? ==>
                && sent && isSubmitting
                && requests == old(requests) + [PostTransport(PaymentPayload(selectedOrder.value, details).value)]
    {
      sent := false;
      if selectedOrder.None? {
        return;
      }
      isSubmitting := true;
      var payload := PaymentPayload(selectedOrder.value, details);
      if payload.None? {
        isSubmitting := false;
        return;
      }
      requests := requests + [PostTransport(payload.value)];
      sent := true;
    }

    /** `handlePaymentSubmit` after the `POST` settled. When it succeeded the dialog
        closes, the success message shows, the tab becomes `paid` and `fetchData` runs to
        completion with `refetch` as its outcome; when it failed there is only an alert.
        Submitting ends in both cases. */
    method FinishPaymentSubmit(posted: bool, refetch: FetchResult)
      modifies this`isPaymentModalOpen, this`successMessage, this`activeTab, this`isSubmitting
      modifies this`orders, this`productsMap, this`farmersMap, this`error, this`loading, this`requests
      ensures !isSubmitting
      ensures posted ==> !isPaymentModalOpen && successMessage == PaymentSuccess && activeTab == "paid"
      ensures posted ==> requests == old(requests) + FetchCalls && !loading
      ensures posted && refetch.Fetched? ==> orders == refetch.orders
      ensures posted && refetch.Fetched? ==>
                && productsMap == Lookup.NameMap(refetch.products) && farmersMap == Lookup.NameMap(refetch.users)
                && error == old(error)
      ensures posted && refetch.FetchFailed? ==> orders == old(orders) && error == FetchError
      ensures !posted || refetch.FetchFailed? ==> productsMap == old(productsMap) && farmersMap == old(farmersMap)
      ensures !posted ==> isPaymentModalOpen == old(isPaymentModalOpen) && successMessage == old(successMessage)
      ensures !posted ==> activeTab == old(activeTab) && requests == old(requests) && loading == old(loading)
      ensures !posted ==> orders == old(orders) && error == old(error)
    {
      if posted {
        isPaymentModalOpen := false;
        successMessage := PaymentSuccess;
        activeTab := "paid";
        BeginFetch();
        DataLoaded(refetch);
      }
      isSubmitting := false;
    }

    /** The timer that hides the success message. */
    method ClearSuccess()
      modifies this`successMessage
      ensures successMessage == ""
    {
      successMessage := "";
    }
  }

  /** Paying for an accepted order: after a successful payment the page shows the `paid`
      tab and the dialog is closed, and the request carried the order's id and the chosen
      option's name. */
  method PayForOrder(o: Order, refetch: FetchResult) returns (page: OrdersPage)
    ensures page.activeTab == "paid" && !page.isPaymentModalOpen && !page.isSubmitting
    ensures page.requests == FetchCalls + [PostTransport(TransportPayload(o.id, "Boda Boda Express"))] + FetchCalls
  {
    page := new OrdersPage();
    page.OpenPaymentModal(o);
    assert page.selectedOrder.value.id == o.id;
    var modal := new Payment.PaymentModal();
    var details := modal.BeginConfirm("M-Pesa");
    Payment.DefaultTransport();
    assert details == Some(Payment.TransportOptions[0]);
    var sent := page.BeginPaymentSubmit(details);
    assert page.requests == FetchCalls + [PostTransport(TransportPayload(o.id, "Boda Boda Express"))];
    page.FinishPaymentSubmit(true, refetch);
    modal.FinishConfirm(true);
  }
}
