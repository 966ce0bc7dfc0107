# Product catalog API: a Dafny model of its core logic

This project models the small amount of real logic in a Django/DRF
product-catalog API and proves properties of it:

- **Products** (`products.dfy`): the `Product` record as a class. `ReduceStock`
  is the guarded stock decrement: it raises on a non-positive quantity,
  decrements and saves when there is enough stock, and otherwise changes
  nothing. `Save` assigns the SKU `"SKU-" + upper(name[:3]) + "-" + (id or "")`
  once, before storage assigns the id. `Str` is the `"name (SKU: …)"` label.
  Prices are integer cents. Storage is reduced to the id it assigns on the
  first insert and a count of writes.
- **Users** (`users.dfy`): the `User` record and the `UserManager` class.
  `create_user` requires an email. `create_superuser` fills in the flag
  defaults with `setdefault`, checks `is_staff` and then `is_superuser`, and
  then delegates. Also modelled: `get_full_name` with its fallback to the
  email, and `__str__`.
- **Serializers** (`serializers.dfy`): the three field validators, the
  read-only and write-only field lists, and the login decision of the
  email/password token serializer.
- **Views** (`views.dfy`): the product viewset's permission choice per action
  and its exception-to-response mapping for `create`, `update` and `destroy`.
  Its cache-aside `list` is both a specification function (`ListCall`) and a
  method on a class that holds the cache and a count of queries.
- **Text** (`text.dfy`) and **Wrappers** (`wrappers.dfy`): the Python string
  operations the core uses (`isspace`, `strip`, ASCII `upper`, `str(int)`),
  plus `Option` and `Result`. A raised exception is modelled as an `Err` value.

Opaque collaborators are parameters:
- the id the database assigns on insert (`insertId`);
- `normalize_email` (`normalize`);
- `authenticate` (`authenticate`), standing for the call with the serializer's request and the current user table already bound;
- the generic DRF `create`/`update`/`destroy` outcome (`Outcome`);
- the generic list query (`query`, a function of the request).

Facts about the code that the model makes explicit:

- Superuser-implies-staff holds only for users built by `create_superuser`.
  `create_user` accepts `is_superuser=True` without `is_staff`
  (`Users.CreateUserAllowsNonStaffSuperuser`).
- `price > 0` is checked only by the serializer (`Serializers.ValidatePrice`);
  the `Product` class accepts any price.
- A missing category is rejected with "Category does not exist."
- `stock_quantity` is a read-only serializer field. So `validate_stock_quantity`
  never sees a value from a request (`Serializers.ReadOnlyFieldsIgnored`).
- A SKU generated on the first insert has an empty id segment, and later
  saves never fill it in (`Products.SaveTwiceWithoutSku`). Products whose
  names share an upper-cased three-character prefix therefore get the same
  first-insert SKU (`Products.SkuBeforeInsertIgnoresId`).

## Model

| member | source | states |
|---|---|---|
| `Products.ReduceResult` | products/models.py:30-37 | a quantity ≤ 0 raises `ValueError("Quantity must be greater than zero.")`; otherwise the call returns `True` exactly when `0 < quantity <= stock`, and `False` when the stock is short |
| `Products.StockAfter` | products/models.py:33-37 | a successful call lowers the stock by exactly the quantity; a failed or raising call leaves it unchanged; a non-negative stock stays non-negative; reducing by the full stock leaves 0 |
| `Products.StockNeverNegative` | products/models.py:25-37 | over any series of `reduce_stock` calls, a non-negative stock never goes below zero or above its start, and it falls by exactly the sum of the accepted quantities |
| `Products.Product.ReduceStock` | products/models.py:25-37 | result and new stock are `ReduceResult`/`StockAfter` of the old stock; only a successful call saves, and that save may generate the SKU and receive the id; a failed or raising call changes nothing |
| `Products.Product.Save` | products/models.py:39-45 | an absent or empty SKU is generated from the name and the id as it was before the write; a non-empty SKU is kept; a first insert receives its id; other fields are unchanged |
| `Products.GenerateSku` | products/models.py:44 | the SKU is `SKU-`, the upper-cased first ≤3 characters of the name, `-`, then the id segment; its length is exactly those parts; it is never empty |
| `Products.IdSegment` | products/models.py:44 | the id segment is empty exactly when the id is `None` or `0` (`self.id or ''`) |
| `Products.NamePrefix` | products/models.py:44 | `name[:3]` is the whole name when shorter than three characters, else its first three |
| `Products.WidgetSku` | products/models.py:43-44 | a product named "Widget" gets a SKU beginning `SKU-WID-` |
| `Products.SkuDeterminesId` | products/models.py:44 | for one name, two non-zero ids yield the same SKU only if they are equal |
| `Products.SkuBeforeInsertIgnoresId` | products/models.py:43-45 | before the first insert the SKU ends in a bare `-`, and names with the same upper-cased prefix get the same SKU |
| `Products.SaveTwiceWithoutSku` | products/models.py:43-45 | a product saved twice without a SKU keeps `SKU-WID-` from its first save although it now has an id |
| `Products.Product.Str` | products/models.py:22-23 | the label is the name, ` (SKU: `, the SKU or `N/A` when it is absent or empty, and `)` |
| `Serializers.ValidateCategoryId` | api/serializers.py:34-40 | accepts exactly the ids of existing categories and returns them unchanged; otherwise "Category does not exist." |
| `Serializers.ValidatePrice` | api/serializers.py:42-48 | accepts exactly positive prices, unchanged; otherwise "Price must be greater than 0." |
| `Serializers.ValidateStockQuantity` | api/serializers.py:50-56 | accepts exactly non-negative quantities, unchanged; otherwise "Stock quantity cannot be negative." |
| `Serializers.WritableData` | api/serializers.py:23-32 | the input keeps exactly the listed fields that are not read-only, each with its given value |
| `Serializers.ReadOnlyFieldsIgnored` | api/serializers.py:32 | `id`, `created_date` and `stock_quantity` never come from the input; only `name`, `description`, `price`, `category_id`, `image_url` can |
| `Serializers.RepresentedFields` | api/serializers.py:23-31 | the output shows every listed field except the write-only `category_id` |
| `Serializers.ValidateLogin` | api/serializers.py:64-81 | no authenticated user fails with "Invalid credentials." first; an inactive user fails with "User account is not active."; it succeeds exactly for an active user, and then `username` is set to that user's username and every other attr is kept |
| `Serializers.LoginDependsOnCredentialsOnly` | api/serializers.py:65-69 | for one request context, attrs agreeing on email and password get the same decision and, on success, the same username |
| `Users.CreateUserResult` | users/models.py:5-16 | fails with "The Email field is required" exactly when the email is missing or empty; otherwise the user has the normalized email, the given phone number, the password set, `username`, first and last name from the extra fields (`None`/empty when absent), and flags from the extra fields (active by default, not staff or superuser by default) |
| `Users.UserManager.CreateUser` | users/models.py:5-16 | returns `CreateUserResult` and saves the user only on success |
| `Users.SuperuserDefaults` | users/models.py:22-23 | `is_staff` and `is_superuser` default to `True` when absent; given values and all other fields are kept |
| `Users.CreateSuperuserResult` | users/models.py:18-30 | an explicitly falsy `is_staff` fails with its message before `is_superuser` is looked at; then a falsy `is_superuser` fails; every user it creates is staff and superuser |
| `Users.UserManager.CreateSuperuser` | users/models.py:18-30 | returns `CreateSuperuserResult`, so every created superuser has both flags, and saves only on success |
| `Users.SuperuserIsUserWithFlags` | users/models.py:18-30 | `create_superuser` succeeds exactly when neither flag is explicitly falsy and an email is given, and then equals `create_user` with both flags set and `phone_number` moved from the extra fields to its parameter |
| `Users.CreateUserAllowsNonStaffSuperuser` | users/models.py:5-16 | `create_user` with only `is_superuser=True` builds a superuser that is not staff |
| `Users.FullName` | users/models.py:38-42 | when first and last names are both blank the result is the email; otherwise it is the non-empty, whitespace-trimmed `"first last"` |
| `Users.FullNameFallsBackToStr` | users/models.py:38-48 | a user whose first and last names are blank has `get_full_name()` equal to `str(user)`, the email |
| `Text.StripTrims` | users/models.py:42 | `strip()` yields a slice of its input with only whitespace around it and no whitespace at its ends |
| `Text.TrimsIsStrip` | users/models.py:42 | that description determines `strip()`: any such slice is the stripped string |
| `Text.StripEmptyIffAllSpace` | users/models.py:42 | `strip()` returns the empty string exactly for all-whitespace input |
| `Text.IntToStringInjective` | products/models.py:44 | `str(id)` renders different integers differently |
| `Text.ParseNatToString` | products/models.py:44 | the decimal rendering of a natural number reads back as that number |
| `Views.GetPermissions` | api/views.py:43-51 | `IsAuthenticated` exactly for `create`, `update` and `destroy`; `IsAuthenticatedOrReadOnly` for every other action, `None` included |
| `Views.AnonymousOnlyReads` | api/views.py:43-51 | for every routed action and HTTP method, an anonymous caller is allowed exactly on GET, HEAD and OPTIONS, and an authenticated one always, `partial_update` included |
| `Views.HandleCreate` | api/views.py:53-62 | success passes through; `ValueError` becomes 400 with its text; any other exception 500 with a fixed message |
| `Views.HandleDetailWrite` | api/views.py:64-84 | `NotFound` becomes 404 "Product with ID {pk} not found."; any other exception 500 with the given prefix and the exception text |
| `Views.HandleUpdate` | api/views.py:64-73 | success passes through; `NotFound` gives 404 naming the key; anything else, `ValueError` included, gives 500 with "An error occurred during product update: " and its text |
| `Views.HandleDestroy` | api/views.py:75-84 | as `update`, with "An error occurred during product deletion: " |
| `Views.CreateHidesUnexpectedErrors` | api/views.py:61-62 | all unexpected exceptions in `create` give the same response, so their text never leaks |
| `Views.DetailWritesEchoErrors` | api/views.py:72-73 | unexpected exceptions with different texts give different `update`/`destroy` responses: their text is echoed |
| `Views.ListCall` | api/views.py:86-99 | only the fixed key `product_list` is read or written; a truthy cached value is returned as it is without a query; a falsy or missing one runs the query; query data is stored with timeout 900 s and returned; a failed query gives 500 with a fixed message and leaves the cache alone |
| `Views.ProductListView.List` | api/views.py:86-99 | returns the response of `ListCall`, leaves the cache as `ListCall` does, and counts one query exactly when `ListCall` runs it |
| `Views.CachedListIgnoresRequest` | api/views.py:90-97 | after a call stores truthy data, the next call returns that same response without a query, whatever its filters, search, ordering or page |
| `Views.FalsyListNotServed` | api/views.py:91-96 | falsy query data is stored but the next call queries again |
| `Views.FailedListRetried` | api/views.py:94-99 | a failed query leaves the cache unchanged and the next call queries again |

## Left out

- Storage: inserts, updates, querysets, unique constraints and the cascade
  delete from `Category` to `Product` are not modelled. Storage appears only
  as the id a first insert assigns, the product's count of writes, the
  manager's list of saved users and the set of existing category ids.
- `Products.Product.ReduceStock`: the read-modify-write race between
  concurrent reductions is not modelled. Calls are sequential.
- `Text.Upper`: maps only `a`–`z`. Python's full Unicode upper-casing is not
  modelled, including mappings that change length such as `ß` → `SS`.
- `Users.CreateUserResult`: a non-boolean value given for a flag is stored
  as its truthiness. Django's conversion of it on save is not modelled.
  A non-string value given for a name or phone field is treated as absent.
  Keyword arguments other than the seven user fields are not modelled.
- Column lengths (email ≤ 254, username ≤ 10, phone number ≤ 15, SKU ≤ 50,
  name ≤ 255): no code path in the modelled files checks them. The database
  enforces them, and it is not part of this model.
- `normalize_email`, `set_password` hashing, `authenticate` and JWT issuance
  by the parent token serializer: these are opaque parameters or values. The
  `Ok` attrs of `ValidateLogin` are what the parent receives. The token pair
  is not modelled.
- Cache expiry: the timeout is recorded with the entry, but there is no
  clock. A failure of `cache.set` itself is not modelled.
- Which framework exceptions reach the handlers (DRF validation errors,
  `Http404`) is not modelled. `Raised` is an abstract exception type.
- Filtering, search, ordering and pagination (api/filters.py, the pagination
  class): these are declarative library configuration. Requests carry their
  parameters only so that the cache key can be shown to ignore them.
- How `PrimaryKeyRelatedField` turns a `category_id` into a category before
  `validate_category_id` runs is not modelled. The validator takes an integer id.
- Prices are integer cents. The `Decimal` precision limits (10 digits,
  2 places) are not modelled.
- `Category.__str__`, URL routing and the admin configuration are not
  modelled. Routing appears only as the action-to-method pairs of
  `Views.Routed`.
