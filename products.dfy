/** The products router: lookup by id, and create / update / delete over the
    products collection. Create takes the path of the uploaded image file
    (`req.file.path`), absent when the request carried no file. */
module Products {
  import opened Json
  import opened Store
  import opened Strings

  /** The image URL stored for an uploaded file: its path with the first
      occurrence of "public" removed, so that it is relative to the public
      static directory. */
  function ImageUrlOf(path: string): (url: string)
    ensures IndexOf(path, "public") >= 0 ==>
      url == path[..IndexOf(path, "public")] + path[IndexOf(path, "public") + 6..]
    ensures IndexOf(path, "public") < 0 ==> url == path
  {
    ReplaceFirst(path, "public", "")
  }

  /** A file stored under the public image directory gets a URL below `/img`. */
  lemma UploadedImageUrl(name: string)
    ensures ImageUrlOf("public/img/products/" + name) == "/img/products/" + name
  {
    var path := "public/img/products/" + name;
    assert OccursAt(path, "public", 0);
    assert path[6..] == "/img/products/" + name;
  }

  /** GET /products/:id: the first product whose `id` is the number `id`, or NotFound. */
  function GetById(products: seq<Record>, id: int): (r: Response<Record>)
    ensures r.Ok? || r.NotFound?
    ensures r.NotFound? <==> forall j :: 0 <= j < |products| ==> !HasKey(products[j], "id", id)
    ensures r.Ok? ==> "id" in r.value && r.value["id"] == Num(id)
    ensures r.Ok? ==> exists i :: && 0 <= i < |products|
                                  && products[i] == r.value
                                  && forall j :: 0 <= j < i ==> !HasKey(products[j], "id", id)
  {
    match Find(products, p => HasKey(p, "id", id))
    case None => NotFound
    case Some(p) => Ok(p)
  }

  /** The product a create appends: `{ id, ...body, imageUrl }`. The derived
      `imageUrl` replaces any the body carries; the body's `id` overrides
      the assigned one. */
  function NewProduct(products: seq<Record>, body: Record, path: string): (p: Record)
    ensures p.Keys == body.Keys + {"id", "imageUrl"}
    ensures p["imageUrl"] == Str(ImageUrlOf(path))
    ensures forall k :: k in body && k != "imageUrl" ==> p[k] == body[k]
    ensures "id" !in body ==> p["id"] == NextId(products)
  {
    NewRecord(products, body)["imageUrl" := Str(ImageUrlOf(path))]
  }

  /** `r` with field `k` set to `v`, or without it when `v` is undefined
      (an undefined field is not written to the file nor to the response). */
  function SetField(r: Record, k: string, v: Option<Value>): (r': Record)
    ensures Get(r', k) == v
    ensures r'.Keys - {k} == r.Keys - {k}
    ensures forall k' :: k' != k && k' in r ==> k' in r' && r'[k'] == r[k']
  {
    match v
    case Some(x) => r[k := x]
    case None => r - {k}
  }

  /** The product an update stores: `{ id, ...body, imageUrl: body.imageUrl || original.imageUrl }`.
      Fields of the original that the body lacks are dropped, except the
      image, which is kept when the body's is missing or falsy. */
  function UpdatedProduct(id: int, original: Record, body: Record): (p: Record)
    ensures p.Keys - {"imageUrl"} == (body.Keys + {"id"}) - {"imageUrl"}
    ensures forall k :: k in body && k != "imageUrl" ==> k in p && p[k] == body[k]
    ensures "id" !in body ==> "id" in p && p["id"] == Num(id)
    ensures Truthy(Get(body, "imageUrl")) ==> Get(p, "imageUrl") == Get(body, "imageUrl")
    ensures !Truthy(Get(body, "imageUrl")) ==> Get(p, "imageUrl") == Get(original, "imageUrl")
  {
    var image := if Truthy(Get(body, "imageUrl")) then Get(body, "imageUrl") else Get(original, "imageUrl");
    SetField(WithId(Num(id), body), "imageUrl", image)
  }

  /** Assigning the body's truthy image to the updated product a second
      time leaves it unchanged. */
  lemma ImageReassignmentChangesNothing(id: int, original: Record, body: Record)
    requires Truthy(Get(body, "imageUrl"))
    ensures UpdatedProduct(id, original, body)["imageUrl" := body["imageUrl"]] == UpdatedProduct(id, original, body)
  {
    var p := UpdatedProduct(id, original, body);
    assert p["imageUrl" := body["imageUrl"]].Keys == p.Keys;
  }

  /** The contents of the products file, and the handlers that change it. */
  class ProductStore {
    var products: seq<Record>

    constructor (initial: seq<Record>)
      ensures products == initial
    {
      products := initial;
    }

    /** POST /products: append the new product and return it. Without an
        uploaded file, reading `req.file.path` throws before anything changes. */
    method Create(body: Record, file: Option<string>) returns (r: Response<Record>)
      modifies this
      ensures r.Ok? || r.Malformed?
      ensures file.None? ==> r == Malformed && products == old(products)
      ensures file.Some? ==>
        r == Ok(NewProduct(old(products), body, file.value)) && products == old(products) + [r.value]
    {
      if file.None? {
        return Malformed;
      }
      var created := NewRecord(products, body);
      created := created["imageUrl" := Str(ReplaceFirst(file.value, "public", ""))];
      products := products + [created];
      r := Ok(created);
    }

    /** PUT /products/:id: replace the first product with that id by the
        updated product. The second assignment of the body's image (when it
        is truthy) leaves the product as it was. */
    method Update(id: int, body: Record) returns (r: Response<Record>)
      modifies this
      ensures r.Ok? || r.NotFound?
      ensures var i := IndexWith(old(products), "id", id);
        if i < 0 then r == NotFound && products == old(products)
        else r == Ok(UpdatedProduct(id, old(products)[i], body)) && products == old(products)[i := r.value]
    {
      var index := IndexWith(products, "id", id);
      if index == -1 {
        return NotFound;
      }
      var original := products[index];
      var image := if Truthy(Get(body, "imageUrl")) then Get(body, "imageUrl") else Get(original, "imageUrl");
      var updated := SetField(WithId(Num(id), body), "imageUrl", image);
      if Truthy(Get(body, "imageUrl")) {
        ImageReassignmentChangesNothing(id, original, body);
        updated := updated["imageUrl" := body["imageUrl"]];
      }
      products := products[index := updated];
      r := Ok(updated);
    }

    /** DELETE /products/:id: splice out the first product with that id. */
    method Delete(id: int) returns (r: Response<()>)
      modifies this
      ensures r == Ok(()) || r == NotFound
      ensures var i := IndexWith(old(products), "id", id);
        if i < 0 then r == NotFound && products == old(products)
        else r == Ok(()) && products == RemoveAt(old(products), i)
    {
      var index := IndexWith(products, "id", id);
      if index != -1 {
        products := RemoveAt(products, index);
        r := Ok(());
      } else {
        r := NotFound;
      }
    }
  }
}
