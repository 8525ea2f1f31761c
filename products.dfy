/** The partial update of UpdateProduct (app/handlers/products.go:124-152):
    each supplied field overwrites the product's, supplied category names
    replace the categories, and the image is always set to the request's. */
module Products {
  import opened Common
  import opened Models

  /** The fields of the update request; `None` is a field left out (nil). */
  datatype ProductUpdateRequest = ProductUpdateRequest(
    name: Option<string>,
    description: Option<string>,
    image: Option<string>,
    price: Option<Float64>,
    stock: Option<int>,
    categories: Option<seq<string>>)

  /** The loop that makes one new category per supplied name (products.go:145-148). */
  method CategoriesFromNames(names: seq<string>) returns (categories: seq<Category>)
    ensures |categories| == |names|
    ensures forall i :: 0 <= i < |names| ==> categories[i] == Category(names[i])
  {
    categories := [];
    for i := 0 to |names|
      invariant |categories| == i
      invariant forall k :: 0 <= k < i ==> categories[k] == Category(names[k])
    {
      categories := categories + [Category(names[i])];
    }
  }

  /** The supplied value, or the current one when the field was left out. */
  function Supplied<T>(field: Option<T>, current: T): (r: T)
  {
    if field.Some? then field.value else current
  }

  /** The product as UpdateProduct saves it. */
  function Merged(p: Product, req: ProductUpdateRequest): (r: Product)
  {
    p.(name := Supplied(req.name, p.name),
       description := Supplied(req.description, p.description),
       price := Supplied(req.price, p.price),
       stock := Supplied(req.stock, p.stock),
       categories := if req.categories.Some? then NamedCategories(req.categories.value) else p.categories,
       image := req.image)
  }

  function NamedCategories(names: seq<string>): (r: seq<Category>)
    ensures |r| == |names| && forall i :: 0 <= i < |names| ==> r[i] == Category(names[i])
  {
    if names == [] then [] else NamedCategories(names[..|names| - 1]) + [Category(names[|names| - 1])]
  }

  /** Applying the same update twice is the same as applying it once. */
  lemma MergeIdempotent(p: Product, req: ProductUpdateRequest)
    ensures Merged(Merged(p, req), req) == Merged(p, req)
  {
  }

  /** An update that supplies nothing still clears the image (products.go:152). */
  lemma EmptyUpdateClearsImage(p: Product)
    ensures Merged(p, ProductUpdateRequest(None, None, None, None, None, None)) == p.(image := None)
  {
  }

  /** The owner never changes, and the categories become one per supplied name, in order. */
  lemma MergeKeepsOwner(p: Product, req: ProductUpdateRequest)
    ensures Merged(p, req).ownerId == p.ownerId
    ensures req.categories.Some? ==>
      |Merged(p, req).categories| == |req.categories.value| &&
      forall i :: 0 <= i < |req.categories.value| ==>
        Merged(p, req).categories[i].name == req.categories.value[i]
  {
  }
}
