/** The farmer's incoming-offers page: offers bucketed into tabs by status, and the
    accept and decline actions with their routes and messages. */
module Offers {
  import opened Common
  import Buckets
  import Lookup
  import Payment

  /** The fields of an offer the page reads. */
  datatype Offer = Offer(id: string, status: string, transporting: Flag, product: string, buyer: string,
                         price: Payment.Amount, quantity: Payment.Amount, transport: Field)

  /** The tab an offer is pushed to: only a paid offer whose `transporting` is strictly
      `true` is in transit. */
  function OfferTab(o: Offer): string {
    if o.status == "paid" && o.transporting.IsTrue() then "inTransit"
    else if o.status == "declined" then "rejected"
    else o.status
  }

  /** The accumulator's initial arrays, which are also the five tabs the page shows. */
  const DisplayedTabs: set<string> := {"pending", "accepted", "rejected", "delivered", "inTransit"}

  /** In transit exactly when paid and strictly transporting, or when the status itself
      is `inTransit`, whose array the status then names. */
  lemma InTransitIff(o: Offer)
    ensures OfferTab(o) == "inTransit" <==> (o.status == "paid" && o.transporting.IsTrue()) || o.status == "inTransit"
  {
  }

  /** A declined offer is rejected; any other offer that is not in transit goes to the tab
      of its status, which for a paid offer with a merely truthy flag is `paid`. */
  lemma OtherOfferTabs(o: Offer)
    ensures o.status == "declined" ==> OfferTab(o) == "rejected"
    ensures o.status != "declined" && !(o.status == "paid" && o.transporting.IsTrue()) ==> OfferTab(o) == o.status
    ensures o.status == "paid" && !o.transporting.IsTrue() ==> OfferTab(o) == "paid"
  {
  }

  /** The `useMemo` reduce over the fetched offers. */
  method GroupOffers(offers: seq<Offer>) returns (acc: map<string, seq<Offer>>)
    ensures Buckets.IsPartition(acc, offers, OfferTab, DisplayedTabs)
    ensures DisplayedTabs <= acc.Keys
  {
    acc := Buckets.Collect(offers, OfferTab, DisplayedTabs);
  }

  /** A paid offer whose `transporting` is not strictly `true` (a missing flag, `false`, or
      a truthy non-boolean) sits in a `paid` array that no tab shows. */
  lemma PaidNotTransportingHidden(acc: map<string, seq<Offer>>, offers: seq<Offer>, o: Offer)
    requires Buckets.IsPartition(acc, offers, OfferTab, DisplayedTabs)
    requires o in offers && o.status == "paid" && !o.transporting.IsTrue()
    ensures "paid" in acc && o in acc["paid"]
    ensures forall k :: k in DisplayedTabs ==> o !in acc[k]
  {
    Buckets.ExactlyOneBucket(acc, offers, OfferTab, DisplayedTabs, o);
  }

  /** Each offer is shown under exactly one tab when its tab is displayed, and the array
      sizes add up to the number of offers. */
  lemma OffersLandOnce(acc: map<string, seq<Offer>>, offers: seq<Offer>, keys: seq<string>, o: Offer)
    requires Buckets.IsPartition(acc, offers, OfferTab, DisplayedTabs)
    requires Buckets.Distinct(keys) && forall k :: k in acc ==> k in keys
    requires o in offers
    ensures Buckets.Total(acc, keys) == |offers|
    ensures OfferTab(o) in acc && o in acc[OfferTab(o)]
    ensures forall k :: k in acc && k != OfferTab(o) ==> o !in acc[k]
  {
    Buckets.PartitionSizes(acc, offers, OfferTab, DisplayedTabs, keys);
    Buckets.ExactlyOneBucket(acc, offers, OfferTab, DisplayedTabs, o);
  }

  // ---------------------------------------------------------------------------
  // Accepting and declining

  const AcceptPrefix := "/api/acceptoffer/"
  const DeclinePrefix := "/api/declineoffer/"

  /** The route `handleOfferUpdate` sends its `PUT` to. */
  function Route(offerId: string, action: string): string {
    if action == "accept" then AcceptPrefix + offerId else DeclinePrefix + offerId
  }

  /** Which of the two routes a path is, and for which offer id. */
  datatype RouteKind = AcceptRoute(id: string) | DeclineRoute(id: string) | NoRoute

  /** Reading a route back. */
  function ParseRoute(r: string): RouteKind {
    if |AcceptPrefix| <= |r| && r[..|AcceptPrefix|] == AcceptPrefix then AcceptRoute(r[|AcceptPrefix|..])
    else if |DeclinePrefix| <= |r| && r[..|DeclinePrefix|] == DeclinePrefix then DeclineRoute(r[|DeclinePrefix|..])
    else NoRoute
  }

  /** The route names the offer, and only `accept` accepts: every other action string,
      including a misspelt one, declines. */
  lemma RouteRoundTrip(offerId: string, action: string)
    ensures action == "accept" ==> ParseRoute(Route(offerId, action)) == AcceptRoute(offerId)
    ensures action != "accept" ==> ParseRoute(Route(offerId, action)) == DeclineRoute(offerId)
  {
    var r := Route(offerId, action);
    if action == "accept" {
      assert r[..|AcceptPrefix|] == AcceptPrefix;
      assert r[|AcceptPrefix|..] == offerId;
    } else {
      assert r[..|AcceptPrefix|] != AcceptPrefix by {
        assert r[5] == 'd' && AcceptPrefix[5] == 'a';
      }
      assert r[..|DeclinePrefix|] == DeclinePrefix;
      assert r[|DeclinePrefix|..] == offerId;
    }
  }

  /** The banner after a successful update: `Offer successfully ${action}ed!`. */
  function SuccessMessage(action: string): (m: string)
    ensures |m| == |action| + 22
    ensures m[..19] == "Offer successfully " && m[19..19 + |action|] == action && m[19 + |action|..] == "ed!"
  {
    "Offer successfully " + action + "ed!"
  }

  /** The error after a failed update: `Failed to ${action} offer.`. */
  function ErrorMessage(action: string): (m: string)
    ensures |m| == |action| + 17
    ensures m[..10] == "Failed to " && m[10..10 + |action|] == action && m[10 + |action|..] == " offer."
  {
    "Failed to " + action + " offer."
  }

  /** Declining reads "declineed". */
  lemma DeclineMessage()
    ensures SuccessMessage("decline") == "Offer successfully declineed!"
  {
  }

  /** Accepting reads "accepted", and a failed decline "Failed to decline offer.". */
  lemma AcceptAndErrorMessages()
    ensures SuccessMessage("accept") == "Offer successfully accepted!"
    ensures ErrorMessage("decline") == "Failed to decline offer."
  {
  }

  /** Different actions give different success banners and different errors. */
  lemma MessagesDistinguishActions(a: string, b: string)
    ensures SuccessMessage(a) == SuccessMessage(b) ==> a == b
    ensures ErrorMessage(a) == ErrorMessage(b) ==> a == b
  {
    if SuccessMessage(a) == SuccessMessage(b) {
      assert |a| == |b|;
      assert a == SuccessMessage(a)[19..19 + |a|];
    }
    if ErrorMessage(a) == ErrorMessage(b) {
      assert |a| == |b|;
      assert a == ErrorMessage(a)[10..10 + |a|];
    }
  }

  datatype ApiCall = GetOffers | GetProducts | GetUsers | PutOffer(route: string)

  /** The three requests `fetchData` sends together. */
  const FetchCalls: seq<ApiCall> := [GetOffers, GetProducts, GetUsers]

  /** The outcome of `Promise.all` over the three requests. */
  datatype FetchResult = FetchFailed | Fetched(offers: seq<Offer>, products: seq<Lookup.Keyed>, users: seq<Lookup.Keyed>)

  const FetchError := "Failed to fetch your offers."

  class OffersPage {
    var offers: seq<Offer>
    var productsMap: map<string, string>
    var buyersMap: map<string, string>
    var loading: bool
    var error: string
    var successMessage: string
    var activeTab: string
    var requests: seq<ApiCall>

    /** Mounting the page: the initial state, and `fetchData` starts. */
    constructor ()
      ensures offers == [] && productsMap == map[] && buyersMap == map[]
      ensures loading && error == "" && successMessage == ""
      ensures activeTab == "pending"
      ensures requests == FetchCalls
    {
      offers, productsMap, buyersMap := [], map[], map[];
      loading, error, successMessage := true, "", "";
      activeTab := "pending";
      requests := FetchCalls;
    }

    /** `fetchData` after `Promise.all` settled. */
    method DataLoaded(result: FetchResult)
      modifies this`offers, this`productsMap, this`buyersMap, this`error, this`loading
      ensures !loading
      ensures result.Fetched? ==>
                && offers == result.offers
                && productsMap == Lookup.NameMap(result.products)
                && buyersMap == Lookup.NameMap(result.users)
                && error == old(error)
      ensures result.FetchFailed? ==>
                && offers == old(offers) && productsMap == old(productsMap) && buyersMap == old(buyersMap)
                && error == FetchError
    {
      match result {
        case Fetched(os, ps, us) =>
          offers := os;
          productsMap := Lookup.NameMap(ps);
          buyersMap := Lookup.NameMap(us);
        case FetchFailed =>
          error := FetchError;
      }
      loading := false;
    }

    /** The buckets of the current offers. */
    method Grouped() returns (acc: map<string, seq<Offer>>)
      ensures Buckets.IsPartition(acc, offers, OfferTab, DisplayedTabs)
    {
      acc := GroupOffers(offers);
    }

    /** A tab button. */
    method SelectTab(tab: string)
      modifies this`activeTab
      ensures activeTab == tab
    {
      activeTab := tab;
    }

    /** `handleOfferUpdate` up to its `await`: the `PUT` to the action's route. */
    method BeginOfferUpdate(offerId: string, action: string)
      modifies this`requests
      ensures requests == old(requests) + [PutOffer(Route(offerId, action))]
    {
      requests := requests + [PutOffer(Route(offerId, action))];
    }

    /** `handleOfferUpdate` after the `PUT` settled: on success the banner shows and
        `fetchData` starts without being awaited; on failure only the error is set. */
    method FinishOfferUpdate(action: string, updated: bool)
      modifies this`successMessage, this`error, this`loading, this`requests
      ensures updated ==>
                && successMessage == SuccessMessage(action) && error == old(error)
                && loading && requests == old(requests) + FetchCalls
      ensures !updated ==>
                && error == ErrorMessage(action) && successMessage == old(successMessage)
                && loading == old(loading) && requests == old(requests)
    {
      if updated {
        successMessage := SuccessMessage(action);
        loading := true;
        requests := requests + FetchCalls;
      } else {
        error := ErrorMessage(action);
      }
    }

    /** The timer that hides the banner. */
    method ClearSuccess()
      modifies this`successMessage
      ensures successMessage == ""
    {
      successMessage := "";
    }
  }
}
