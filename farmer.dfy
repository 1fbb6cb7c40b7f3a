/** The farmer's product page: the farmer's own listings, the product form with its
    standard product types, and saving or deleting a product. */
module Farmer {
  import opened Common
  import Seqs
  import Lookup

  /** A product record or the product form: field name to string value. A field that is
      not a key is `undefined`. */
  type Record = map<string, string>

  /** One entry of the standard product table: its key, display name and image. */
  datatype StandardProduct = StandardProduct(key: string, name: string, imageUrl: string)

  /** The standard product table, in key order. */
  const StandardProducts: seq<StandardProduct> := [
    StandardProduct("Tomatoes", "Fresh Tomatoes",
      "https://images.pexels.com/photos/1327838/pexels-photo-1327838.jpeg?auto=compress&cs=tinysrgb&w=1260&h=750&dpr=2"),
    StandardProduct("Avocados", "Hass Avocados", "https://images.pexels.com/photos/557659/pexels-photo-557659.jpeg"),
    StandardProduct("Maize", "White Maize", "https://images.pexels.com/photos/6316510/pexels-photo-6316510.jpeg"),
    StandardProduct("Kale (Sukuma Wiki)", "Sukuma Wiki (Kale)",
      "https://images.pexels.com/photos/32937515/pexels-photo-32937515.jpeg"),
    StandardProduct("Potatoes", "Irish Potatoes",
      "https://images.pexels.com/photos/144248/potatoes-vegetables-erdfrucht-bio-144248.jpeg")
  ]

  const Placeholder := "https://placehold.co/600x400/cccccc/333333?text=No+Image"

  /** The table entry with a given display name. */
  function EntryNamed(name: string): (r: Option<StandardProduct>)
    ensures r.None? <==> forall i :: 0 <= i < |StandardProducts| ==> StandardProducts[i].name != name
    ensures r.Some? ==> r.value in StandardProducts && r.value.name == name
  {
    Seqs.Find(StandardProducts, (e: StandardProduct) => e.name == name)
  }

  /** `standardProducts[key]`: the entry under one of the five keys, and `undefined` for
      any other string. */
  function EntryKeyed(key: string): (r: Option<StandardProduct>)
    ensures r.Some? <==> key in {"Tomatoes", "Avocados", "Maize", "Kale (Sukuma Wiki)", "Potatoes"}
    ensures r.Some? ==> r.value in StandardProducts && r.value.key == key
  {
    Seqs.Find(StandardProducts, (e: StandardProduct) => e.key == key)
  }

  /** `getImageForProduct`: the image of the entry with that display name, or the
      placeholder. */
  function ImageForProduct(productName: string): string {
    match EntryNamed(productName)
    case Some(e) => e.imageUrl
    case None => Placeholder
  }

  /** Every standard product shows its own image, and any other name the placeholder. */
  lemma ImageLookup(productName: string)
    ensures forall i :: 0 <= i < |StandardProducts| && StandardProducts[i].name == productName ==>
              ImageForProduct(productName) == StandardProducts[i].imageUrl
    ensures (forall i :: 0 <= i < |StandardProducts| ==> StandardProducts[i].name != productName) ==>
              ImageForProduct(productName) == Placeholder
  {
    match EntryNamed(productName)
    case None =>
    case Some(e) =>
      forall i | 0 <= i < |StandardProducts| && StandardProducts[i].name == productName
        ensures e == StandardProducts[i]
      {
        NamesIdentifyEntries(e, StandardProducts[i]);
      }
  }

  /** No two entries of the table share a display name. */
  lemma NamesIdentifyEntries(a: StandardProduct, b: StandardProduct)
    requires a in StandardProducts && b in StandardProducts && a.name == b.name
    ensures a == b
  {
  }

  /** `response.data.filter(p => p.farmer === loggedInUser._id)`. */
  function MyProducts(products: seq<Record>, userId: string): seq<Record> {
    Seqs.Filter(products, (p: Record) => Lookup.Get(p, "farmer") == Some(userId))
  }

  /** The farmer's listings are exactly the fetched products whose `farmer` is the user,
      and the filter keeps their order. */
  lemma MyProductsExact(a: seq<Record>, b: seq<Record>, userId: string)
    ensures forall p :: p in MyProducts(a, userId) <==> p in a && "farmer" in p && p["farmer"] == userId
    ensures MyProducts(a + b, userId) == MyProducts(a, userId) + MyProducts(b, userId)
  {
    Seqs.FilterConcat(a, b, (p: Record) => Lookup.Get(p, "farmer") == Some(userId));
  }

  /** `handleChange`: `{ ...product, [field]: value }`. */
  function ChangeField(form: Record, field: string, value: string): (r: Record)
    ensures field in r && r[field] == value
    ensures forall k :: k != field ==> (k in r <==> k in form)
    ensures forall k :: k in form && k != field ==> r[k] == form[k]
  {
    form[field := value]
  }

  /** `handleTypeChange`: the name and image of the chosen type, every other field kept;
      `None` for a key the table lacks, where reading its entry throws. */
  function TypeChange(form: Record, selectedType: string): (r: Option<Record>)
    ensures match EntryKeyed(selectedType)
            case None => r.None?
            case Some(e) =>
              && r.Some? && "name" in r.value && "imageUrl" in r.value
              && r.value["name"] == e.name && r.value["imageUrl"] == e.imageUrl
              && forall k :: k != "name" && k != "imageUrl" ==>
                   (k in r.value <==> k in form) && (k in form ==> r.value[k] == form[k])
  {
    match EntryKeyed(selectedType)
    case None => None
    case Some(e) => Some(form["name" := e.name]["imageUrl" := e.imageUrl])
  }

  /** `handleOpenAddModal`: the form for a new product starts from the first type. */
  function AddModalForm(): (r: Record)
    ensures r.Keys == {"name", "imageUrl"}
    ensures r["name"] == "Fresh Tomatoes" && r["imageUrl"] == StandardProducts[0].imageUrl
  {
    map["name" := StandardProducts[0].name, "imageUrl" := StandardProducts[0].imageUrl]
  }

  /** `product && product._id`: a form is for an existing product exactly when it has a
      non-empty `_id`. */
  predicate IsEditing(form: Option<Record>) {
    form.Some? && "_id" in form.value && form.value["_id"] != ""
  }

  /** A new product's form is not editing, and its image is the one its name shows. */
  lemma AddFormIsNew()
    ensures !IsEditing(Some(AddModalForm()))
    ensures ImageForProduct(AddModalForm()["name"]) == AddModalForm()["imageUrl"]
  {
    assert StandardProducts[0].name == "Fresh Tomatoes";
  }

  /** `editingProduct.imageUrl || Object.values(standardProducts).find(...)?.imageUrl`:
      a non-empty image is kept, otherwise the table's image for the name, if any. */
  function PayloadImage(form: Record): Option<string> {
    if "imageUrl" in form && form["imageUrl"] != "" then Some(form["imageUrl"])
    else if "name" in form then
      match EntryNamed(form["name"])
      case Some(e) => Some(e.imageUrl)
      case None => None
    else None
  }

  /** A field of the payload set to `undefined` is left out of the JSON body. */
  function SetOrDrop(r: Record, field: string, value: Option<string>): Record {
    match value
    case Some(v) => r[field := v]
    case None => r - {field}
  }

  /** The JSON body of a save: the form, with `location` from the user and the image as
      above; a field whose value is `undefined` is dropped. */
  function SubmitPayload(form: Record, user: Profile): (r: Record)
    ensures user.location.Some? ==> "location" in r && r["location"] == user.location.value
    ensures user.location.None? ==> "location" !in r
    ensures "imageUrl" in form && form["imageUrl"] != "" ==> "imageUrl" in r && r["imageUrl"] == form["imageUrl"]
    ensures !("imageUrl" in form && form["imageUrl"] != "") ==>
              if "name" in form && EntryNamed(form["name"]).Some?
              then "imageUrl" in r && r["imageUrl"] == EntryNamed(form["name"]).value.imageUrl
              else "imageUrl" !in r
    ensures forall k :: k != "location" && k != "imageUrl" ==> (k in r <==> k in form)
    ensures forall k :: k in form && k != "location" && k != "imageUrl" ==> r[k] == form[k]
  {
    SetOrDrop(SetOrDrop(form, "location", user.location), "imageUrl", PayloadImage(form))
  }

  datatype ApiCall = GetProducts | UpdateProduct(id: string, body: Record) | CreateProduct(body: Record)
                   | DeleteProduct(id: string)

  /** The request a save sends: an update of the product with the form's `_id`, or a
      creation. */
  function SaveRequest(form: Record, user: Profile): (r: ApiCall)
    ensures IsEditing(Some(form)) <==> r.UpdateProduct?
    ensures r.UpdateProduct? ==> r.id == form["_id"] && r.body == SubmitPayload(form, user)
    ensures r.CreateProduct? ==> r.body == SubmitPayload(form, user)
  {
    if IsEditing(Some(form)) then UpdateProduct(form["_id"], SubmitPayload(form, user))
    else CreateProduct(SubmitPayload(form, user))
  }

  const FetchError := "Failed to fetch products."
  const SaveError := "Failed to save product."
  const DeleteError := "Failed to delete product."

  class FarmerPage {
    var myProducts: seq<Record>
    var loading: bool
    var error: string
    var isModalOpen: bool
    var editingProduct: Option<Record>
    var isSubmitting: bool
    var requests: seq<ApiCall>

    /** The page's initial state, before `fetchMyProducts` runs: the mount effect's call
        is the separate `BeginFetch`, and `MountFarmerPage` puts the two together. */
    constructor ()
      ensures myProducts == [] && loading && error == ""
      ensures !isModalOpen && editingProduct == None && !isSubmitting
      ensures requests == []
    {
      myProducts, loading, error := [], true, "";
      isModalOpen, editingProduct, isSubmitting := false, None, false;
      requests := [];
    }

    /** `fetchMyProducts` up to its `await`, with the stored user as `JSON.parse` gives it
        (`None` when missing, `null` or unreadable): without a user it fails at once. */
    method BeginFetch(storedUser: Option<Profile>)
      modifies this`loading, this`error, this`requests
      ensures storedUser.None? ==> !loading && error == FetchError && requests == old(requests)
      ensures storedUser.Some? ==> loading && error == old(error) && requests == old(requests) + [GetProducts]
    {
      loading := true;
      if storedUser.None? {
        error := FetchError;
        loading := false;
        return;
      }
      requests := requests + [GetProducts];
    }

    /** `fetchMyProducts` after the request settled, for the user it started with. */
    method ProductsLoaded(response: Option<seq<Record>>, userId: string)
      modifies this`myProducts, this`loading, this`error
      ensures !loading
      ensures response.Some? ==> myProducts == MyProducts(response.value, userId) && error == old(error)
      ensures response.None? ==> myProducts == old(myProducts) && error == FetchError
    {
      match response {
        case Some(data) =>
          myProducts := MyProducts(data, userId);
        case None =>
          error := FetchError;
      }
      loading := false;
    }

    /** "+ Add New Product". */
    method OpenAdd()
      modifies this`editingProduct, this`isModalOpen
      ensures editingProduct == Some(AddModalForm()) && !IsEditing(editingProduct)
      ensures isModalOpen
    {
      editingProduct := Some(AddModalForm());
      isModalOpen := true;
      AddFormIsNew();
    }

    /** "Edit" on a listing: the form is the product itself. */
    method OpenEdit(product: Record)
      modifies this`editingProduct, this`isModalOpen
      ensures editingProduct == Some(product) && isModalOpen
    {
      editingProduct := Some(product);
      isModalOpen := true;
    }

    /** The form's cancel button. */
    method Close()
      modifies this`isModalOpen
      ensures !isModalOpen
    {
      isModalOpen := false;
    }

    /** An input of the form changed; spreading `null` gives an empty object. */
    method Change(field: string, value: string)
      modifies this`editingProduct
      ensures editingProduct == Some(ChangeField(old(editingProduct).GetOr(map[]), field, value))
    {
      editingProduct := Some(ChangeField(editingProduct.GetOr(map[]), field, value));
    }

    /** The product type changed; an unknown key throws and leaves the form as it was. */
    method ChangeType(selectedType: string)
      modifies this`editingProduct
      ensures TypeChange(old(editingProduct).GetOr(map[]), selectedType).Some? ==>
                editingProduct == TypeChange(old(editingProduct).GetOr(map[]), selectedType)
      ensures TypeChange(old(editingProduct).GetOr(map[]), selectedType).None? ==>
                editingProduct == old(editingProduct)
    {
      var r := TypeChange(editingProduct.GetOr(map[]), selectedType);
      if r.Some? {
        editingProduct := r;
      }
    }

    /** `handleFormSubmit` up to its `await`. Without a stored user, or without a form,
        it fails before any request; otherwise it sends the update or the creation. */
    method BeginSubmit(storedUser: Option<Profile>) returns (sent: bool)
      modifies this`isSubmitting, this`error, this`requests
      ensures sent <==> storedUser.Some? && editingProduct.Some?
      ensures sent ==> isSubmitting && error == ""
                       && requests == old(requests) + [SaveRequest(editingProduct.value, storedUser.value)]
      ensures !sent ==> !isSubmitting && error == SaveError && requests == old(requests)
    {
      isSubmitting := true;
      error := "";
      if storedUser.None? || editingProduct.None? {
        error := SaveError;
        isSubmitting := false;
        return false;
      }
      requests := requests + [SaveRequest(editingProduct.value, storedUser.value)];
      sent := true;
    }

    /** `handleFormSubmit` after the save settled: on success the form closes and the
        listings are fetched again (not awaited); on failure the error shows. */
    method FinishSubmit(saved: bool, storedUser: Option<Profile>)
      modifies this`isModalOpen, this`isSubmitting, this`error, this`loading, this`requests
      ensures !isSubmitting
      ensures saved ==> !isModalOpen
                        && (storedUser.Some? ==> loading && error == old(error) && requests == old(requests) + [GetProducts])
                        && (storedUser.None? ==> !loading && error == FetchError && requests == old(requests))
      ensures !saved ==> isModalOpen == old(isModalOpen) && error == SaveError
                         && loading == old(loading) && requests == old(requests)
    {
      if saved {
        isModalOpen := false;
        BeginFetch(storedUser);
      } else {
        error := SaveError;
      }
      isSubmitting := false;
    }

    /** "Delete" on a listing: only a confirmed delete sends the request. */
    method BeginDelete(productId: string, confirmed: bool)
      modifies this`requests
      ensures confirmed ==> requests == old(requests) + [DeleteProduct(productId)]
      ensures !confirmed ==> requests == old(requests)
    {
      if confirmed {
        requests := requests + [DeleteProduct(productId)];
      }
    }

    /** After the delete settled: the listings are fetched again, or the error shows. */
    method FinishDelete(deleted: bool, storedUser: Option<Profile>)
      modifies this`error, this`loading, this`requests
      ensures deleted && storedUser.Some? ==> loading && error == old(error) && requests == old(requests) + [GetProducts]
      ensures deleted && storedUser.None? ==> !loading && error == FetchError && requests == old(requests)
      ensures !deleted ==> error == DeleteError && loading == old(loading) && requests == old(requests)
    {
      if deleted {
        BeginFetch(storedUser);
      } else {
        error := DeleteError;
      }
    }
  }

  /** Mounting the page: the effect runs `fetchMyProducts` once, which requests the
      listings when a user is stored and fails at once otherwise. */
  method MountFarmerPage(storedUser: Option<Profile>) returns (page: FarmerPage)
    ensures storedUser.Some? ==> page.requests == [GetProducts] && page.loading && page.error == ""
    ensures storedUser.None? ==> page.requests == [] && !page.loading && page.error == FetchError
    ensures page.myProducts == [] && !page.isModalOpen && page.editingProduct == None
  {
    page := new FarmerPage();
    page.BeginFetch(storedUser);
  }
}
