/**
  The write path of the product serializer (the three field validators and
  the read-only fields) and the login decision of the email/password token
  serializer. `authenticate` is a parameter; the parent token serializer,
  which issues the token pair, is not part of this model.
 */
module Serializers {
  import opened Wrappers
  import Users

  /** The `serializers.ValidationError` a field validator raises. */
  datatype ValidationError = ValidationError(message: string)

  const CategoryMissing := "Category does not exist."
  const PriceNotPositive := "Price must be greater than 0."
  const StockNegative := "Stock quantity cannot be negative."

  /** `validate_category_id`: the value must be the id of an existing category. */
  function ValidateCategoryId(categories: set<int>, value: int): (r: Result<int, ValidationError>)
    ensures r.Ok? <==> value in categories
    ensures r.Ok? ==> r.value == value
    ensures r.Err? ==> r.error == ValidationError(CategoryMissing)
  {
    if value !in categories then Err(ValidationError(CategoryMissing)) else Ok(value)
  }

  /** `validate_price`, on a price in cents: it must be positive. */
  function ValidatePrice(value: int): (r: Result<int, ValidationError>)
    ensures r.Ok? <==> value > 0
    ensures r.Ok? ==> r.value == value
    ensures r.Err? ==> r.error == ValidationError(PriceNotPositive)
  {
    if value <= 0 then Err(ValidationError(PriceNotPositive)) else Ok(value)
  }

  /** `validate_stock_quantity`: it must not be negative. */
  function ValidateStockQuantity(value: int): (r: Result<int, ValidationError>)
    ensures r.Ok? <==> value >= 0
    ensures r.Ok? ==> r.value == value
    ensures r.Err? ==> r.error == ValidationError(StockNegative)
  {
    if value < 0 then Err(ValidationError(StockNegative)) else Ok(value)
  }

  /** The fields `ProductSerializer.Meta` lists. */
  const ProductFields: set<string> :=
    {"id", "name", "description", "price", "category", "category_id", "stock_quantity", "image_url", "created_date"}

  /** `Meta.read_only_fields`, and the nested `category`, declared `read_only=True`. */
  const ReadOnlyFields: set<string> := {"id", "created_date", "stock_quantity", "category"}

  /** `category_id` is declared `write_only=True`. */
  const WriteOnlyFields: set<string> := {"category_id"}

  /** The part of the request data the serializer takes as input: its listed, writable fields. */
  function WritableData<V>(data: map<string, V>): (r: map<string, V>)
    ensures r.Keys == data.Keys * {"name", "description", "price", "category_id", "image_url"}
    ensures forall k :: k in r ==> r[k] == data[k]
  {
    map k | k in data && k in ProductFields && k !in ReadOnlyFields :: data[k]
  }

  /**
    The input never carries `id`, `created_date` or `stock_quantity`: a
    client cannot set the stock, which changes only through `reduce_stock`,
    so `validate_stock_quantity` is never given a value from a request.
   */
  lemma ReadOnlyFieldsIgnored<V>(data: map<string, V>)
    ensures "id" !in WritableData(data) && "created_date" !in WritableData(data)
    ensures "stock_quantity" !in WritableData(data)
    ensures WritableData(data).Keys <= {"name", "description", "price", "category_id", "image_url"}
  {
  }

  /** The fields a serialized product shows: all listed fields but the write-only ones. */
  function RepresentedFields(): (r: set<string>)
    ensures "category_id" !in r && "category" in r && "stock_quantity" in r
    ensures r + WriteOnlyFields == ProductFields
  {
    ProductFields - WriteOnlyFields
  }

  /** The `AuthenticationFailed` the login raises. */
  datatype AuthenticationFailed = AuthenticationFailed(detail: string)

  const InvalidCredentials := "Invalid credentials."
  const AccountInactive := "User account is not active."

  /** The validated data of a login request; `None` stands for a Python `None` value. */
  type Attrs = map<string, Option<string>>

  /** `attrs.get(key)`: a missing key reads as `None`. */
  function Get(attrs: Attrs, key: string): Option<string> {
    if key in attrs then attrs[key] else None
  }

  /**
    `CustomTokenObtainPairSerializer.validate`: authenticate the email and
    password; fail when no user comes back, then when the user is inactive;
    otherwise set `attrs["username"]` and hand the attrs to the parent
    validation (the `Ok` value is what the parent receives).
    `authenticate` stands for the call with this serializer's request
    (`self.context.get('request')`) and the current user table already bound.
   */
  function ValidateLogin(attrs: Attrs, authenticate: (Option<string>, Option<string>) -> Option<Users.User>)
    : (r: Result<Attrs, AuthenticationFailed>)
    ensures authenticate(Get(attrs, "email"), Get(attrs, "password")).None? ==>
      r == Err(AuthenticationFailed(InvalidCredentials))
    ensures r == Err(AuthenticationFailed(AccountInactive)) <==>
      (authenticate(Get(attrs, "email"), Get(attrs, "password")).Some? &&
       !authenticate(Get(attrs, "email"), Get(attrs, "password")).value.isActive)
    ensures r.Ok? <==>
      (authenticate(Get(attrs, "email"), Get(attrs, "password")).Some? &&
       authenticate(Get(attrs, "email"), Get(attrs, "password")).value.isActive)
    ensures r.Ok? ==> r.value.Keys == attrs.Keys + {"username"}
    ensures r.Ok? ==> r.value["username"] == authenticate(Get(attrs, "email"), Get(attrs, "password")).value.username
    ensures r.Ok? ==> forall k :: k in attrs && k != "username" ==> r.value[k] == attrs[k]
  {
    var user := authenticate(Get(attrs, "email"), Get(attrs, "password"));
    if user.None? then
      Err(AuthenticationFailed(InvalidCredentials))
    else if !user.value.isActive then
      Err(AuthenticationFailed(AccountInactive))
    else
      Ok(attrs["username" := user.value.username])
  }

  /**
    For one request context (one `authenticate`), attrs that agree on the
    email and password get the same decision, whatever else they carry,
    and succeed with the same username.
   */
  lemma LoginDependsOnCredentialsOnly(a1: Attrs, a2: Attrs,
                                      authenticate: (Option<string>, Option<string>) -> Option<Users.User>)
    requires Get(a1, "email") == Get(a2, "email") && Get(a1, "password") == Get(a2, "password")
    ensures ValidateLogin(a1, authenticate).Ok? == ValidateLogin(a2, authenticate).Ok?
    ensures ValidateLogin(a1, authenticate).Err? ==> ValidateLogin(a1, authenticate) == ValidateLogin(a2, authenticate)
    ensures ValidateLogin(a1, authenticate).Ok? ==>
      ValidateLogin(a1, authenticate).value["username"] == ValidateLogin(a2, authenticate).value["username"]
  {
  }
}
