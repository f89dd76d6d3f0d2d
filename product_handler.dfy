/** The decision logic of `ProductHandler`: reading the product id from the
    request path, the status each outcome of `GetProductByID` is sent with, and
    `UpdateProduct`'s order of checks and its "non-zero field overrides" merge.

    The product service is given as functions: `getById` is
    `ProductService.GetByID` (a row, `sql.ErrNoRows`, or another error) and
    `update` is `ProductService.Update`. The decoded request body is an
    `Option`: `None` when JSON decoding failed. */
module ProductHandler {
  import opened Common
  import opened Models

  const ProductPathPrefix: string := "/api/product/"

  /** The outcome of `GetByID`. */
  datatype Lookup = Found(product: Product) | NoRows | LookupError(message: string)

  /** `strconv.Atoi(strings.TrimPrefix(path, "/api/product/"))` */
  function ParseProductId(path: string): (r: Option<int>)
    ensures r.Some? ==> MinInt64 <= r.value <= MaxInt64
  {
    ParseInt64(TrimPrefix(path, ProductPathPrefix))
  }

  /** The path a client builds for product `id` is read back as `id`. */
  lemma ProductPathRoundTrip(id: int)
    requires MinInt64 <= id <= MaxInt64
    ensures ParseProductId(ProductPathPrefix + FormatInt(id)) == Some(id)
  {
    TrimPrefixOnce(ProductPathPrefix, FormatInt(id));
    ParseFormatRoundTrip(id);
  }

  /** A path outside `/api/product/` keeps its leading `/` and is never an id. */
  lemma ForeignPathRejected(path: string)
    requires |path| > 0 && path[0] == '/' && !(ProductPathPrefix <= path)
    ensures ParseProductId(path).None?
  {
    ParseRejectsLeadingNonDigit(path);
  }

  /** `GetProductByID`. */
  function GetProductByID(path: string, getById: int -> Lookup): (r: Response<Product>)
    ensures r.code == 400 <==> ParseProductId(path).None?
    ensures r.code == 404 <==> ParseProductId(path).Some? && getById(ParseProductId(path).value).NoRows?
    ensures r.code == 500 <==> ParseProductId(path).Some? && getById(ParseProductId(path).value).LookupError?
    ensures r.code == 200 <==> ParseProductId(path).Some? && getById(ParseProductId(path).value).Found?
    ensures r.code == 200 ==> r.data == Some(getById(ParseProductId(path).value).product)
    ensures r.code != 200 ==> r.data.None?
    ensures ParseProductId(path).None? ==> r == Failed(400, "Invalid Product ID")
    ensures ParseProductId(path).Some? && getById(ParseProductId(path).value).NoRows? ==>
      r == Failed(404, "Product not found")
    ensures ParseProductId(path).Some? && getById(ParseProductId(path).value).LookupError? ==>
      r == Failed(500, "Failed to fetch product: " + getById(ParseProductId(path).value).message)
    ensures ParseProductId(path).Some? && getById(ParseProductId(path).value).Found? ==>
      r == Succeeded("Product retrieved successfully", getById(ParseProductId(path).value).product)
  {
    match ParseProductId(path)
    case None => Failed(400, "Invalid Product ID")
    case Some(id) =>
      match getById(id)
      case NoRows => Failed(404, "Product not found")
      case LookupError(message) => Failed(500, "Failed to fetch product: " + message)
      case Found(product) => Succeeded("Product retrieved successfully", product)
  }

  /** The merge of `UpdateProduct`: each of Name, Price, Stock and CategoryID is
      taken from the request when it is non-empty / non-zero there; everything
      else, the id included, stays as stored. */
  function Merge(existing: Product, req: Product): (r: Product)
    ensures r.id == existing.id && r.deletedAt == existing.deletedAt
    ensures (r.name == req.name && req.name != "") || (r.name == existing.name && req.name == "")
    ensures (r.price == req.price && req.price != 0) || (r.price == existing.price && req.price == 0)
    ensures (r.stock == req.stock && req.stock != 0) || (r.stock == existing.stock && req.stock == 0)
    ensures (r.categoryId == req.categoryId && req.categoryId != 0) || (r.categoryId == existing.categoryId && req.categoryId == 0)
  {
    existing.(
      name := if req.name != "" then req.name else existing.name,
      price := if req.price != 0 then req.price else existing.price,
      stock := if req.stock != 0 then req.stock else existing.stock,
      categoryId := if req.categoryId != 0 then req.categoryId else existing.categoryId)
  }

  /** An update cannot clear a field: a zero price, stock or category, or an
      empty name, after the merge was already there before it. */
  lemma MergeCannotClear(existing: Product, req: Product)
    ensures Merge(existing, req).name == "" ==> existing.name == ""
    ensures Merge(existing, req).price == 0 ==> existing.price == 0
    ensures Merge(existing, req).stock == 0 ==> existing.stock == 0
    ensures Merge(existing, req).categoryId == 0 ==> existing.categoryId == 0
  {
  }

  /** Applying the same request twice gives what applying it once gives. */
  lemma MergeIdempotent(existing: Product, req: Product)
    ensures Merge(Merge(existing, req), req) == Merge(existing, req)
  {
  }

  /** The request's id and deletion marker are ignored. */
  lemma MergeIgnoresRequestId(existing: Product, req: Product, id: int, deletedAt: Option<int>)
    ensures Merge(existing, req.(id := id, deletedAt := deletedAt)) == Merge(existing, req)
  {
  }

  /** `UpdateProduct`: returns the response and the product handed to
      `ProductService.Update`, if it was called. The checks run in the order
      id, body, lookup; each failure answers before anything is written. */
  method UpdateProduct(path: string, body: Option<Product>, getById: int -> Lookup, update: Product -> Result<Product, string>)
    returns (resp: Response<Product>, written: Option<Product>)
    ensures ParseProductId(path).None? ==> resp == Failed(400, "Invalid Product ID") && written.None?
    ensures ParseProductId(path).Some? && body.None? ==> resp == Failed(400, "Invalid request body") && written.None?
    ensures ParseProductId(path).Some? && body.Some? && getById(ParseProductId(path).value).NoRows? ==>
      resp == Failed(404, "Product not found") && written.None?
    ensures ParseProductId(path).Some? && body.Some? && getById(ParseProductId(path).value).LookupError? ==>
      resp == Failed(500, "Failed to fetch product: " + getById(ParseProductId(path).value).message) && written.None?
    ensures ParseProductId(path).Some? && body.Some? && getById(ParseProductId(path).value).Found? ==>
      && written == Some(Merge(getById(ParseProductId(path).value).product, body.value))
      && resp == match update(written.value)
           case Failure(e) => Failed(500, "Failed to update product: " + e)
           case Success(p) => Succeeded("Product updated successfully", p)
  {
    written := None;
    var id := ParseProductId(path);
    if id.None? {
      return Failed(400, "Invalid Product ID"), written;
    }
    if body.None? {
      return Failed(400, "Invalid request body"), written;
    }
    var updateReq := body.value;
    var lookup := getById(id.value);
    if lookup.NoRows? {
      return Failed(404, "Product not found"), written;
    }
    if lookup.LookupError? {
      return Failed(500, "Failed to fetch product: " + lookup.message), written;
    }
    var existingProduct := lookup.product;
    if updateReq.name != "" {
      existingProduct := existingProduct.(name := updateReq.name);
    }
    if updateReq.price != 0 {
      existingProduct := existingProduct.(price := updateReq.price);
    }
    if updateReq.stock != 0 {
      existingProduct := existingProduct.(stock := updateReq.stock);
    }
    if updateReq.categoryId != 0 {
      existingProduct := existingProduct.(categoryId := updateReq.categoryId);
    }
    written := Some(existingProduct);
    match update(existingProduct)
    case Failure(e) =>
      resp := Failed(500, "Failed to update product: " + e);
    case Success(updatedProduct) =>
      resp := Succeeded("Product updated successfully", updatedProduct);
  }

  /** `DeleteProduct`: the id check first, then the soft delete; `delete` is
      `ProductService.Delete`, `None` when it succeeded. */
  function DeleteProduct(path: string, delete: int -> Option<string>): (r: Response<Product>)
    ensures r.data.None?
    ensures r.code == 400 <==> ParseProductId(path).None?
    ensures r.code == 400 ==> r == Failed(400, "Invalid Product ID")
    ensures r.code == 500 <==> ParseProductId(path).Some? && delete(ParseProductId(path).value).Some?
    ensures r.code == 500 ==> r == Failed(500, "Failed to delete product: " + delete(ParseProductId(path).value).value)
    ensures r.code == 200 <==> ParseProductId(path).Some? && delete(ParseProductId(path).value).None?
    ensures r.code == 200 ==> r.status == "success" && r.message == "Product deleted successfully"
  {
    match ParseProductId(path)
    case None => Failed(400, "Invalid Product ID")
    case Some(id) =>
      match delete(id)
      case Some(e) => Failed(500, "Failed to delete product: " + e)
      case None => Response(200, "success", "Product deleted successfully", None)
  }
}
