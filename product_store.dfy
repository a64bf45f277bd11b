/** The product slice of the store: its list operations (append on create,
    replace the first match on update, remove every match on delete), the
    loading and error flags every request case sets, and the payloads the
    update and delete requests produce. */
module ProductStore {
  import opened Js
  import opened Lists

  type Id = nat

  datatype Product = Product(
    id: Id,
    name: string,
    description: string,
    price: real,
    stock: int,
    category: Option<string>)

  /** The whole state of the product slice. */
  datatype ProductSlice = ProductSlice(
    products: seq<Product>,
    product: Option<Product>,
    isLoading: bool,
    error: Option<string>)

  /** The fulfilled payload of a delete: `{ id }`, or `{ id, alreadyRemoved: true }`. */
  datatype DeletePayload = DeletePayload(id: Id, alreadyRemoved: bool)

  /** A failed request as the transport reports it: the response status and
      body when there was a response, and the error's message. */
  datatype HttpFailure = HttpFailure(status: Option<int>, data: Option<string>, message: string)

  /** How a delete request ends: fulfilled (and whether it refreshes the
      list), or rejected with an error value. */
  datatype DeleteOutcome =
    | DeleteFulfilled(payload: DeletePayload, refetch: bool)
    | DeleteRejected(error: Option<string>)

  const NotFoundStatus: int := 404

  /** The predicate `(product) => product.id === id`. */
  function HasId(id: Id): Product -> bool {
    (p: Product) => p.id == id
  }

  /** The predicate `(product) => product.id !== id`. */
  function LacksId(id: Id): Product -> bool {
    (p: Product) => p.id != id
  }

  /** Position `k` holds the first product with `id`. */
  predicate IsFirstWithId(products: seq<Product>, k: int, id: Id) {
    0 <= k < |products| && products[k].id == id && forall j :: 0 <= j < k ==> products[j].id != id
  }

  /** The list after an update: the first product with the payload's id is
      replaced by the payload; nothing else changes, and with no match the
      list stays as it was. */
  function ReplaceFirstById(products: seq<Product>, p: Product): (r: seq<Product>)
    ensures |r| == |products|
    ensures forall k :: 0 <= k < |r| ==> r[k] == if IsFirstWithId(products, k, p.id) then p else products[k]
    ensures (forall k :: 0 <= k < |products| ==> products[k].id != p.id) ==> r == products
  {
    var index := FindIndex(products, HasId(p.id));
    if index == -1 then products else products[index := p]
  }

  /** The list after a delete: every product with `id` removed, the others
      kept in their order. */
  function RemoveById(products: seq<Product>, id: Id): (r: seq<Product>)
    ensures forall x :: x in r ==> x.id != id && x in products
    ensures forall k :: 0 <= k < |products| && products[k].id != id ==> products[k] in r
    ensures IsSubseq(r, products)
    ensures forall x: Product :: x.id != id ==> multiset(r)[x] == multiset(products)[x]
  {
    FilterIsSubseq(products, LacksId(id));
    FilterCounts(products, LacksId(id));
    Filter(products, LacksId(id))
  }

  /** The update request's payload `{ ...response.data, id }`: the requested
      id always wins over the id the server returned. */
  function UpdatePayload(id: Id, data: Product): (r: Product)
    ensures r.id == id
    ensures r.(id := data.id) == data
  {
    data.(id := id)
  }

  /** The delete request: success resolves with `{ id }`; a 404 resolves with
      `{ id, alreadyRemoved: true }` and refreshes the list; any other failure
      rejects with the response body, or else the message. */
  function DeleteRequestOutcome(id: Id, failure: Option<HttpFailure>): (r: DeleteOutcome)
    ensures r.DeleteFulfilled? ==> r.payload.id == id
    ensures r.DeleteFulfilled? <==> failure.None? || failure.value.status == Some(NotFoundStatus)
    ensures r.DeleteFulfilled? ==> (r.payload.alreadyRemoved <==> failure.Some?) && (r.refetch <==> failure.Some?)
    ensures r.DeleteRejected? ==> r.error == Or(failure.value.data, Some(failure.value.message))
  {
    if failure.None? then DeleteFulfilled(DeletePayload(id, false), false)
    else if failure.value.status == Some(NotFoundStatus) then DeleteFulfilled(DeletePayload(id, true), true)
    else DeleteRejected(Or(failure.value.data, Some(failure.value.message)))
  }

  /** Creating a product and then deleting its id leaves the list as deleting
      that id alone would; when no product had that id before, the list is
      back to what it was. */
  lemma CreateThenDelete(products: seq<Product>, p: Product)
    ensures RemoveById(products + [p], p.id) == RemoveById(products, p.id)
    ensures (forall k :: 0 <= k < |products| ==> products[k].id != p.id) ==> RemoveById(products + [p], p.id) == products
  {
    FilterConcat(products, [p], LacksId(p.id));
    assert Filter([p], LacksId(p.id)) == [];
    if forall k :: 0 <= k < |products| ==> products[k].id != p.id {
      FilterKeepsAll(products, LacksId(p.id));
    }
  }

  /** Deleting the same id twice is deleting it once. */
  lemma DeleteIsIdempotent(products: seq<Product>, id: Id)
    ensures RemoveById(RemoveById(products, id), id) == RemoveById(products, id)
  {
    FilterIdempotent(products, LacksId(id));
  }

  /** Applying the same update twice is applying it once, and afterwards the
      first product with that id is the payload whenever one existed. */
  lemma UpdateIsIdempotent(products: seq<Product>, p: Product)
    ensures ReplaceFirstById(ReplaceFirstById(products, p), p) == ReplaceFirstById(products, p)
    ensures FindIndex(products, HasId(p.id)) != -1 ==>
      var r := ReplaceFirstById(products, p);
      var i := FindIndex(r, HasId(p.id));
      0 <= i && r[i] == p
  {
    var r := ReplaceFirstById(products, p);
    assert forall k :: 0 <= k < |r| ==> r[k].id == products[k].id;
    FindIndexAgree(products, r, HasId(p.id));
    forall k ensures IsFirstWithId(r, k, p.id) <==> IsFirstWithId(products, k, p.id) {
      if 0 <= k < |r| {
        assert (forall j :: 0 <= j < k ==> r[j].id != p.id) <==> (forall j :: 0 <= j < k ==> products[j].id != p.id);
      }
    }
  }

  class Store {
    var products: seq<Product>
    var product: Option<Product>
    var isLoading: bool
    var error: Option<string>

    /** The slice's current value. */
    ghost function State(): ProductSlice
      reads this
    {
      ProductSlice(products, product, isLoading, error)
    }

    constructor ()
      ensures State() == ProductSlice([], None, false, None)
    {
      products, product, isLoading, error := [], None, false, None;
    }

    method ClearProduct()
      modifies this
      ensures State() == old(State()).(product := None)
    {
      product := None;
    }

    method ClearError()
      modifies this
      ensures State() == old(State()).(error := None)
    {
      error := None;
    }

    /** The pending case of every product request (fetch list, fetch one,
        create, update, delete). */
    method Pending()
      modifies this
      ensures State() == old(State()).(isLoading := true, error := None)
    {
      isLoading := true;
      error := None;
    }

    /** The rejected case of every product request: the payload becomes the
        error. */
    method Rejected(payload: Option<string>)
      modifies this
      ensures State() == old(State()).(isLoading := false, error := payload)
    {
      isLoading := false;
      error := payload;
    }

    method FetchProductsFulfilled(payload: seq<Product>)
      modifies this
      ensures State() == old(State()).(isLoading := false, products := payload)
    {
      isLoading := false;
      products := payload;
    }

    method FetchProductByIdFulfilled(payload: Product)
      modifies this
      ensures State() == old(State()).(isLoading := false, product := Some(payload))
    {
      isLoading := false;
      product := Some(payload);
    }

    /** `products.push(payload)`. */
    method CreateProductFulfilled(payload: Product)
      modifies this
      ensures State() == old(State()).(isLoading := false, products := old(products) + [payload])
      ensures |products| == |old(products)| + 1 && products[..|old(products)|] == old(products)
    {
      isLoading := false;
      products := products + [payload];
    }

    /** `products[findIndex(...)] = payload` when some product has the id. */
    method UpdateProductFulfilled(payload: Product)
      modifies this
      ensures State() == old(State()).(isLoading := false, products := ReplaceFirstById(old(products), payload))
    {
      isLoading := false;
      var index := FindIndex(products, HasId(payload.id));
      if index != -1 {
        products := products[index := payload];
      }
    }

    /** Removes every product with the id, unless the server had already
        removed it. */
    method DeleteProductFulfilled(payload: DeletePayload)
      modifies this
      ensures payload.alreadyRemoved ==> State() == old(State()).(isLoading := false)
      ensures !payload.alreadyRemoved ==>
        State() == old(State()).(isLoading := false, products := RemoveById(old(products), payload.id))
    {
      isLoading := false;
      if !payload.alreadyRemoved {
        products := Filter(products, LacksId(payload.id));
      }
    }
  }
}
