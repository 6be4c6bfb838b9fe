/** The product editor: adds a product, or edits the one named by the route's
    `id`; four fields, two of them checked for digits. */
module ProductEditor {
  import opened Wrappers
  import opened JsValue
  import opened Patterns
  import opened JsParseInt
  import opened Forms
  import opened Web

  /** The four `useState` values of the form. They hold what the server sent
      after a load, so they are values of any type, not only strings. */
  datatype Product = Product(
    product_id: Value, product_name: Value,
    product_description: Value, current_stock_level: Value)

  /** The state the form starts in, and the one Clear puts back. */
  const Blank := Product(Str("0"), Str(""), Str(""), Str(""))

  /** The `tempErrors` object `validate()` builds. */
  function ProductErrors(p: Product): Errors
  {
    map[
      "product_id" := DigitsCheck(p.product_id, "Product ID is required", "Product ID must be a number"),
      "product_name" := RequiredCheck(p.product_name, "Product name is required"),
      "product_description" := RequiredCheck(p.product_description, "Product description is required"),
      "current_stock_level" :=
        DigitsCheck(p.current_stock_level, "Stock level is required", "Stock level must be a number")
    ]
  }

  /** The map always has exactly the four keys, whatever the fields hold. */
  lemma ProductErrorKeys(p: Product)
    ensures ProductErrors(p).Keys == {"product_id", "product_name", "product_description", "current_stock_level"}
  {
  }

  /** The form is valid exactly when the id and the stock are digit strings or
      positive numbers and the name and description are truthy. */
  lemma ProductValidIff(p: Product)
    ensures AllClear(ProductErrors(p)) <==>
      DigitsAccepted(p.product_id) && Truthy(p.product_name) &&
      Truthy(p.product_description) && DigitsAccepted(p.current_stock_level)
  {
    var e := ProductErrors(p);
    DigitsCheckMeaning(p.product_id, "Product ID is required", "Product ID must be a number");
    DigitsCheckMeaning(p.current_stock_level, "Stock level is required", "Stock level must be a number");
    if AllClear(e) {
      assert e["product_id"] == "" && e["product_name"] == "";
      assert e["product_description"] == "" && e["current_stock_level"] == "";
    }
  }

  /** Which message the id and the stock get: "required" for a falsy value (`''`,
      `0`, NaN), "must be a number" for a truthy value that is neither a digit
      string nor a positive number. */
  lemma ProductMessages(p: Product)
    ensures var e := ProductErrors(p);
      && (e["product_id"] == "Product ID is required" <==> !Truthy(p.product_id))
      && (e["product_id"] == "Product ID must be a number" <==>
            Truthy(p.product_id) && !DigitsAccepted(p.product_id))
      && (e["product_name"] == "Product name is required" <==> !Truthy(p.product_name))
      && (e["product_description"] == "Product description is required" <==> !Truthy(p.product_description))
      && (e["current_stock_level"] == "Stock level is required" <==> !Truthy(p.current_stock_level))
      && (e["current_stock_level"] == "Stock level must be a number" <==>
            Truthy(p.current_stock_level) && !DigitsAccepted(p.current_stock_level))
  {
    DigitsCheckMeaning(p.product_id, "Product ID is required", "Product ID must be a number");
    DigitsCheckMeaning(p.current_stock_level, "Stock level is required", "Stock level must be a number");
  }

  /** The truthiness quirks of the stock check: the string "0" passes where
      the number 0 a load brings in is "required", and "-1" and "2.5" are not
      numbers. */
  lemma StockQuirks(p: Product)
    ensures ProductErrors(p.(current_stock_level := Str("0")))["current_stock_level"] == ""
    ensures ProductErrors(p.(current_stock_level := Num(0)))["current_stock_level"] == "Stock level is required"
    ensures ProductErrors(p.(current_stock_level := Str("-1")))["current_stock_level"] == "Stock level must be a number"
    ensures ProductErrors(p.(current_stock_level := Str("2.5")))["current_stock_level"] == "Stock level must be a number"
  {
    assert "-1"[0] == '-';
    assert "2.5"[1] == '.';
  }

  /** The id check: the initial string "0" passes, and the NaN that parseInt
      makes of a non-numeric entry is "required". */
  lemma ProductIdQuirks(p: Product)
    ensures ProductErrors(p.(product_id := Str("0")))["product_id"] == ""
    ensures ProductErrors(p.(product_id := NaN))["product_id"] == "Product ID is required"
  {
  }

  /** After Clear the id passes (it is the string "0") and the other three
      fields are "required". */
  lemma BlankErrors()
    ensures ProductErrors(Blank) == map[
      "product_id" := "", "product_name" := "Product name is required",
      "product_description" := "Product description is required",
      "current_stock_level" := "Stock level is required"]
    ensures !AllClear(ProductErrors(Blank))
  {
    assert ProductErrors(Blank)["product_name"] != "";
  }

  /** The id field's `onChange`: `parseInt(value)` with no radix. The field then
      passes exactly when the text reads as a positive number, is "not a
      number" when it reads as a negative one and is "required" otherwise. */
  function ParseProductId(raw: string): (v: Value)
    ensures v.Num? || v.NaN?
    ensures DigitsCheck(v, "Product ID is required", "Product ID must be a number") ==
      if v.Num? && v.n > 0 then "" else if v.Num? && v.n < 0 then "Product ID must be a number"
      else "Product ID is required"
  {
    ParsedDigitsCheck(raw, 0, "Product ID is required", "Product ID must be a number");
    ParseInt(raw, 0)
  }

  /** The method and URL of the save request: PUT on the product in edit mode,
      POST on the collection otherwise. */
  datatype Target = Target(verb: Verb, url: string)

  function SaveTarget(isEditMode: bool, id: string): (t: Target)
    ensures t.verb == PUT <==> isEditMode
    ensures t.verb == POST <==> !isEditMode
    ensures isEditMode ==> t.url == Server + "/products/" + id
    ensures !isEditMode ==> t.url == Server + "/products"
  {
    if isEditMode then Target(PUT, Server + "/products/" + id) else Target(POST, Server + "/products")
  }

  /** `JSON.stringify({ product_id, product_name, product_description, current_stock_level })` */
  function ProductBody(p: Product): (body: Record)
    ensures body.Keys == {"product_id", "product_name", "product_description", "current_stock_level"}
    ensures body["product_id"] == p.product_id && body["product_name"] == p.product_name
    ensures body["product_description"] == p.product_description
    ensures body["current_stock_level"] == p.current_stock_level
  {
    map[
      "product_id" := p.product_id, "product_name" := p.product_name,
      "product_description" := p.product_description,
      "current_stock_level" := p.current_stock_level
    ]
  }

  /** The product a successful load shows: the four properties of the reply. */
  function LoadedProduct(data: Record): (p: Product)
    ensures p.product_id == Prop(data, "product_id") && p.product_name == Prop(data, "product_name")
    ensures p.product_description == Prop(data, "product_description")
    ensures p.current_stock_level == Prop(data, "current_stock_level")
  {
    Product(Prop(data, "product_id"), Prop(data, "product_name"),
            Prop(data, "product_description"), Prop(data, "current_stock_level"))
  }

  class ProductForm {
    /** The route's `id`, `None` on the add page. */
    const routeId: Option<string>
    var isEditMode: bool
    var product_id: Value
    var product_name: Value
    var product_description: Value
    var current_stock_level: Value
    /** The banner message; `''` shows nothing. */
    var error: Value
    var errors: Errors
    /** Every request issued, oldest first. */
    var requests: seq<Request>
    /** The route `navigate` last went to. */
    var location: Option<string>

    /** Edit mode is only ever entered for a route that names a product. */
    predicate Valid()
      reads this`isEditMode
    {
      isEditMode ==> routeId.Some? && routeId.value != ""
    }

    function Current(): Product
      reads this`product_id, this`product_name, this`product_description, this`current_stock_level
    {
      Product(product_id, product_name, product_description, current_stock_level)
    }

    constructor (routeId: Option<string>)
      ensures Valid() && this.routeId == routeId && !isEditMode
      ensures Current() == Blank
      ensures error == Str("") && errors == map[] && requests == [] && location == None
    {
      this.routeId := routeId;
      isEditMode := false;
      product_id, product_name, product_description, current_stock_level := Str("0"), Str(""), Str(""), Str("");
      error, errors, requests, location := Str(""), map[], [], None;
    }

    /** `fetchProductDetails(id)`: a successful reply fills the form, any other
        status shows "Failed to fetch product details". */
    method FetchProductDetails(id: string, reply: Reply<Record>)
      modifies this`product_id, this`product_name, this`product_description,
        this`current_stock_level, this`error, this`requests
      ensures requests == old(requests) + [Request(GET, Server + "/products/" + id, None)]
      ensures reply.Ok() && reply.body.Some? ==>
        Current() == LoadedProduct(reply.body.value) && error == old(error)
      ensures reply.Replied? && !reply.Ok() ==>
        Current() == old(Current()) && error == Str("Failed to fetch product details")
      ensures reply.Unreachable? || (reply.Ok() && reply.body.None?) ==>
        Current() == old(Current()) && error == Str(NetworkError)
    {
      requests := requests + [Request(GET, Server + "/products/" + id, None)];
      if reply.Unreachable? {
        error := Str(NetworkError);
      } else if !reply.Ok() {
        error := Str("Failed to fetch product details");
      } else if reply.body.None? {
        error := Str(NetworkError);
      } else {
        var data := reply.body.value;
        product_id, product_name := Prop(data, "product_id"), Prop(data, "product_name");
        product_description := Prop(data, "product_description");
        current_stock_level := Prop(data, "current_stock_level");
      }
    }

    /** The mount effect: with a route id the form enters edit mode and loads
        the product; without one nothing happens. */
    method Mount(reply: Reply<Record>)
      requires Valid()
      modifies this`isEditMode, this`product_id, this`product_name, this`product_description,
        this`current_stock_level, this`error, this`requests
      ensures Valid()
      ensures isEditMode <==> old(isEditMode) || (routeId.Some? && routeId.value != "")
      ensures (routeId.None? || routeId.value == "") ==>
        requests == old(requests) && Current() == old(Current()) && error == old(error)
      ensures routeId.Some? && routeId.value != "" ==>
        requests == old(requests) + [Request(GET, Server + "/products/" + routeId.value, None)]
      ensures routeId.Some? && routeId.value != "" && reply.Ok() && reply.body.Some? ==>
        Current() == LoadedProduct(reply.body.value) && error == old(error)
      ensures routeId.Some? && routeId.value != "" && reply.Replied? && !reply.Ok() ==>
        Current() == old(Current()) && error == Str("Failed to fetch product details")
      ensures routeId.Some? && routeId.value != "" && (reply.Unreachable? || (reply.Ok() && reply.body.None?)) ==>
        Current() == old(Current()) && error == Str(NetworkError)
    {
      if routeId.Some? && Truthy(Str(routeId.value)) {
        isEditMode := true;
        FetchProductDetails(routeId.value, reply);
      }
    }

    /** `validate()`: store the messages and report whether all are `''`. */
    method Validate() returns (valid: bool)
      modifies this`errors
      ensures errors == ProductErrors(Current())
      ensures valid == AllClear(errors)
    {
      errors := ProductErrors(Current());
      valid := AllClear(errors);
    }

    /** The `try` block of `handleSubmit`: save the product with the method and
        URL edit mode picks; success goes back to the list, 403 is "not
        authorized", any other status shows the server's error or a fallback. */
    method Send(reply: Reply<Record>)
      requires Valid()
      modifies this`error, this`requests, this`location
      ensures var t := SaveTarget(isEditMode, if isEditMode then routeId.value else "");
        requests == old(requests) + [Request(t.verb, t.url, Some(ProductBody(Current())))]
      ensures reply.Ok() ==> location == Some("/products") && error == old(error)
      ensures reply.Replied? && reply.status == 403 ==>
        error == Str("Not authorized to perform this action.") && location == old(location)
      ensures reply.Replied? && !reply.Ok() && reply.status != 403 && reply.body.Some? ==>
        error == Or(Prop(reply.body.value, "error"), Str("Failed to save product")) && location == old(location)
      ensures reply.Unreachable? || (!reply.Ok() && reply.status != 403 && reply.body.None?) ==>
        error == Str(NetworkError) && location == old(location)
    {
      var t := SaveTarget(isEditMode, if isEditMode then routeId.value else "");
      requests := requests + [Request(t.verb, t.url, Some(ProductBody(Current())))];
      if reply.Unreachable? {
        error := Str(NetworkError);
      } else if reply.Ok() {
        location := Some("/products");
      } else if reply.status == 403 {
        error := Str("Not authorized to perform this action.");
      } else if reply.body.None? {
        error := Str(NetworkError);
      } else {
        error := Or(Prop(reply.body.value, "error"), Str("Failed to save product"));
      }
    }

    /** `handleSubmit`: validate, and save only a valid form; edit mode saves
        with PUT on the route's product, add mode with POST. */
    method HandleSubmit(reply: Reply<Record>)
      requires Valid()
      modifies this`errors, this`error, this`requests, this`location
      ensures errors == ProductErrors(Current())
      ensures !AllClear(errors) ==>
        requests == old(requests) && error == old(error) && location == old(location)
      ensures AllClear(errors) && isEditMode ==>
        requests == old(requests) + [Request(PUT, Server + "/products/" + routeId.value, Some(ProductBody(Current())))]
      ensures AllClear(errors) && !isEditMode ==>
        requests == old(requests) + [Request(POST, Server + "/products", Some(ProductBody(Current())))]
      ensures AllClear(errors) && reply.Ok() ==> location == Some("/products")
      ensures AllClear(errors) && reply.Replied? && reply.status == 403 ==>
        error == Str("Not authorized to perform this action.") && location == old(location)
    {
      var valid := Validate();
      if valid {
        Send(reply);
      }
    }

    /** The id field's `onChange`. */
    method ChangeProductId(raw: string)
      modifies this`product_id
      ensures product_id == ParseProductId(raw)
    {
      product_id := ParseProductId(raw);
    }

    /** The stock field's `onChange`: the text is kept as it is. */
    method ChangeStock(raw: string)
      modifies this`current_stock_level
      ensures current_stock_level == Str(raw)
    {
      current_stock_level := Str(raw);
    }

    /** `handleClear`: back to the blank form, with no messages. The new state
        does not depend on the old one, so a second Clear changes nothing. */
    method HandleClear()
      modifies this`product_id, this`product_name, this`product_description,
        this`current_stock_level, this`errors
      ensures Current() == Blank && errors == map[]
    {
      product_id, product_name, product_description, current_stock_level := Str("0"), Str(""), Str(""), Str("");
      errors := map[];
    }
  }
}
