# catalog-management-app: the client components, modelled in Dafny

This project models the browser side of a small product-catalogue
application written as React function components. It covers seven of them:

- the registration and login forms;
- the product editor, which adds a product or edits an existing one;
- the product list, with stock marking, delete, search and paging;
- the signed-in user's profile page;
- the administrator's user editor;
- the administrator's user list.

Each component becomes a Dafny `class`. Every `useState` value is a field.
Each handler (`validate`, `handleSubmit`, `handleChange`, `handleClear`, the
fetch effects, `handleDelete`, the paging handlers) becomes a method whose
`ensures` gives the whole new state, except for the three handlers named at
the end of "## Left out". The pure parts become functions with
lemmas stated about them:

- the error maps the validators build;
- the request bodies;
- the record spreads;
- the `map` and `filter` over product and user rows;
- the render guards.

JavaScript values are a datatype (`JsValue.Value`) so that truthiness,
`String()`, `===`, `||` and `?.` behave as the components rely on them. The
two regular expressions the forms test, `/^\d+$/` and
`/^[^\s@]+@[^\s@]+\.[^\s@]+$/`, are written by hand:

- the digit pattern is `Patterns.AllDigits`;
- the email test `Patterns.IsEmail` is proved to decide exactly the
  pattern's language, which is `Patterns.MatchesEmailPattern`.

`parseInt` follows section 19.2.5 of ECMA-262 and is proved to read back
every integer it prints. Numbers are exact integers here, so that holds in
JavaScript only below 10^21 (see "## Left out").

The browser's I/O comes in as parameters:

- `fetch` comes in as a `Web.Reply`: `Unreachable` when the promise rejects,
  otherwise the status and the parsed body. The body is `None` when
  `response.json()` would reject.
- The decoded token is a `Web.Claims`, or `None` when `jwtDecode` throws.
- The `window.confirm` answer is a `bool`.
- The route's `id` is a constructor argument.
- The product list's `localStorage.getItem('token')` is the `token`
  parameter of `Products.ProductList.FetchProducts`, `None` when no token is
  stored.
- The login form's `localStorage` as it stands before a login is the
  `storage` argument of the `Login.LoginForm` constructor.

What the components do to the outside is kept in three fields:

- `navigate` sets a `location` field;
- every request issued is appended to a `requests` field, with its method,
  URL and body;
- the login form's `localStorage.setItem` writes go to its `storage` field,
  a map from key to string.

## Model

| member | source | states |
|---|---|---|
| Patterns.TestDigitsOnNumber | catalog-management-app/src/components/Product/ProductForm.js:48 | `/^\d+$/.test` on a number passes exactly when the number is not negative (it sees `String(n)`) |
| Patterns.IsEmailSound | catalog-management-app/src/Auth/RegistrationForm.js:21 | every string the hand-written email test accepts has a split local `@` domain `.` tld into runs without whitespace or `@` |
| Patterns.IsEmailComplete | catalog-management-app/src/Auth/RegistrationForm.js:21 | every string with such a split passes the hand-written test |
| Patterns.IsEmailMatchesPattern | catalog-management-app/src/Auth/RegistrationForm.js:21 | the hand-written test accepts exactly the language of the email regular expression |
| Patterns.OnlyStringsAreEmails | catalog-management-app/src/components/Profile/ProfilePage.js:55 | a value that is not a string never matches the email pattern, whatever `String()` makes of it |
| JsParseInt.ParseInt | catalog-management-app/src/components/Product/ProductForm.js:103 | `parseInt` always yields an integer or NaN |
| JsParseInt.ParseDigitString | catalog-management-app/src/components/Profile/ProfilePage.js:72 | a digit string is read in full as its decimal value, with radix 10 or with no radix |
| JsParseInt.ParseNegativeDigitString | catalog-management-app/src/components/Admin/EditUser.js:62 | a minus sign before a digit string gives the negated value |
| JsParseInt.ParseIntRoundTrip | catalog-management-app/src/components/Admin/EditUser.js:62 | `parseInt(String(n), 10)` and `parseInt(String(n))` are `n` for every integer; in JavaScript this holds only below 10^21 (see Left out) |
| Forms.DigitsCheckMeaning | catalog-management-app/src/components/Product/ProductForm.js:51 | the digits check gives "required" for a falsy value, `''` for a positive number or a digit string, and "must be a number" for anything else |
| Forms.EmailCheckMeaning | catalog-management-app/src/Auth/RegistrationForm.js:21 | the email check gives "required" for a falsy value, `''` for a string in the pattern's language, and "not valid" otherwise |
| Forms.ParsedDigitsCheck | catalog-management-app/src/components/Admin/EditUser.js:52 | on a `parseInt` result the digits check passes a positive number, calls a negative one not a number, and wants a value for 0 or NaN |
| Rows.RemoveIdMembers | catalog-management-app/src/components/Product/ProductList.js:89 | a row survives the `_id` filter exactly when it was in the list and its `_id` is not `id` |
| Rows.RemoveIdAppend | catalog-management-app/src/components/Product/ProductList.js:89 | the filter distributes over concatenation, so the kept rows stay in their order |
| Rows.RemoveIdNoMatch | catalog-management-app/src/components/Admin/AdminUsers.js:64 | when no row carries the id the filter removes nothing |
| Rows.RemoveOnlyMatch | catalog-management-app/src/components/Admin/AdminUsers.js:64 | when exactly one row carries the id, exactly that row goes and the others keep their order |
| Registration.RegistrationErrorKeys | catalog-management-app/src/Auth/RegistrationForm.js:17-23 | the error map always has exactly the six field keys |
| Registration.RegistrationValidIff | catalog-management-app/src/Auth/RegistrationForm.js:16-25 | the form is valid exactly when the four plain fields are non-empty, the email is in the pattern's language and the password has at least six characters |
| Registration.RegistrationRequiredMessages | catalog-management-app/src/Auth/RegistrationForm.js:18-22 | each plain field's "is required" message appears exactly when that field is empty |
| Registration.RegistrationEmailPasswordMessages | catalog-management-app/src/Auth/RegistrationForm.js:21-23 | an empty email is "required" and a non-matching one "not valid"; an empty password is "required" and one of 1 to 5 characters "too short" |
| Registration.RegisterBody | catalog-management-app/src/Auth/RegistrationForm.js:35 | the register body has exactly the six keys, each holding its own field as a string |
| Registration.RegistrationForm.constructor | catalog-management-app/src/Auth/RegistrationForm.js:6-13 | every field starts empty, with no messages, no requests and no navigation |
| Registration.RegistrationForm.Validate | catalog-management-app/src/Auth/RegistrationForm.js:16-26 | stores the error map of the current fields and returns whether every message is `''` |
| Registration.RegistrationForm.Send | catalog-management-app/src/Auth/RegistrationForm.js:31-48 | posts the six fields to `/auth/register`; success navigates to `/login`, a failure shows the server's `error` or "Registration failed", and a rejection shows the network error |
| Registration.RegistrationForm.HandleSubmit | catalog-management-app/src/Auth/RegistrationForm.js:28-50 | an invalid form issues no request and changes nothing but the messages; a valid one is sent as Send states |
| Login.LoginErrorKeys | catalog-management-app/src/Auth/LoginForm.js:16-18 | the error map always has exactly the two keys |
| Login.LoginValidIff | catalog-management-app/src/Auth/LoginForm.js:15-20 | the form is valid exactly when both fields are non-empty, and each empty field gets its "required" message |
| Login.ShortPasswordOnlyFailsRegistration | catalog-management-app/src/Auth/LoginForm.js:18 | a password of one to five characters passes login while registration calls it too short |
| Login.StoreSession | catalog-management-app/src/Auth/LoginForm.js:36-38 | storage gains `token`, `username` and `role` as `String()` of the reply's fields, and every other key is kept |
| Login.LoginForm.constructor | catalog-management-app/src/Auth/LoginForm.js:9-12 | both fields start empty, with no messages, no requests and no navigation |
| Login.LoginForm.Validate | catalog-management-app/src/Auth/LoginForm.js:15-21 | stores the error map and returns whether every message is `''` |
| Login.LoginForm.Send | catalog-management-app/src/Auth/LoginForm.js:26-46 | posts the credentials to `/auth/login`; success stores the session and navigates to `/products`, a failure shows the server's `error` or "Login failed", and a rejection shows the network error; only success touches storage |
| Login.LoginForm.HandleSubmit | catalog-management-app/src/Auth/LoginForm.js:23-48 | an empty field means no request, no storage change and no navigation; valid credentials are sent as Send states |
| ProductEditor.ProductErrorKeys | catalog-management-app/src/components/Product/ProductForm.js:47-51 | the error map always has exactly the four keys |
| ProductEditor.ProductValidIff | catalog-management-app/src/components/Product/ProductForm.js:46-54 | the form is valid exactly when the id and the stock are digit strings or positive numbers and the name and description are truthy |
| ProductEditor.ProductMessages | catalog-management-app/src/components/Product/ProductForm.js:48-51 | which of "required" and "must be a number" each field gets, both directions |
| ProductEditor.StockQuirks | catalog-management-app/src/components/Product/ProductForm.js:51 | the string "0" passes, the number 0 a load brings in is "required", and "-1" and "2.5" are not numbers |
| ProductEditor.ProductIdQuirks | catalog-management-app/src/components/Product/ProductForm.js:48 | the initial id "0" passes, and NaN is "required" |
| ProductEditor.BlankErrors | catalog-management-app/src/components/Product/ProductForm.js:88-92 | after Clear the id passes and the other three fields are "required", so the blank form is invalid |
| ProductEditor.ParseProductId | catalog-management-app/src/components/Product/ProductForm.js:103 | the id field holds an integer or NaN, and then passes exactly when positive, is "not a number" when negative, and is "required" otherwise |
| ProductEditor.SaveTarget | catalog-management-app/src/components/Product/ProductForm.js:61-62 | edit mode saves with PUT on `/products/{id}`, add mode with POST on `/products` |
| ProductEditor.ProductBody | catalog-management-app/src/components/Product/ProductForm.js:70 | the save body carries exactly the four fields, unchanged |
| ProductEditor.LoadedProduct | catalog-management-app/src/components/Product/ProductForm.js:32-36 | a load fills each field from the property of the same name |
| ProductEditor.ProductForm.constructor | catalog-management-app/src/components/Product/ProductForm.js:6-14 | starts in add mode with the blank form |
| ProductEditor.ProductForm.FetchProductDetails | catalog-management-app/src/components/Product/ProductForm.js:23-44 | GETs the product; success fills the form, another status shows "Failed to fetch product details", and a rejection shows the network error and keeps the form |
| ProductEditor.ProductForm.Mount | catalog-management-app/src/components/Product/ProductForm.js:16-21 | a non-empty route id enters edit mode and loads that product: success fills the form, another status shows "Failed to fetch product details", a rejection shows the network error, and a failed load keeps the form; without a route id nothing is requested or changed |
| ProductEditor.ProductForm.Validate | catalog-management-app/src/components/Product/ProductForm.js:46-54 | stores the error map and returns whether every message is `''` |
| ProductEditor.ProductForm.Send | catalog-management-app/src/components/Product/ProductForm.js:59-84 | saves with the target edit mode picks; success navigates to `/products`, 403 shows "Not authorized", other statuses show the server's error or "Failed to save product" |
| ProductEditor.ProductForm.HandleSubmit | catalog-management-app/src/components/Product/ProductForm.js:56-86 | an invalid form issues no request; a valid one is PUT on the route's product in edit mode and POSTed otherwise |
| ProductEditor.ProductForm.ChangeProductId | catalog-management-app/src/components/Product/ProductForm.js:103 | the id field takes `parseInt` of the typed text |
| ProductEditor.ProductForm.ChangeStock | catalog-management-app/src/components/Product/ProductForm.js:118 | the stock field keeps the typed text as a string |
| ProductEditor.ProductForm.HandleClear | catalog-management-app/src/components/Product/ProductForm.js:88-94 | the form becomes the blank form with no messages, whatever it held, so a second Clear changes nothing |
| Profile.EditableProjection | catalog-management-app/src/components/Profile/ProfilePage.js:28-34 | the edited copy has exactly the five keys: four fields as the user has them and `preferences?.page_size` |
| Profile.ProfileErrorKeys | catalog-management-app/src/components/Profile/ProfilePage.js:52-56 | the error map always has exactly the four keys |
| Profile.ProfileValidIff | catalog-management-app/src/components/Profile/ProfilePage.js:51-58 | the copy is valid exactly when both names are truthy, the email is in the pattern's language and the page size is a digit string or a positive number |
| Profile.BirthDateOptional | catalog-management-app/src/components/Profile/ProfilePage.js:52-56 | the birth date has no effect on any message |
| Profile.ProfileEmailMessage | catalog-management-app/src/components/Profile/ProfilePage.js:55 | a typed email gets "Invalid email format" exactly when it is non-empty and outside the pattern's language |
| Profile.ProfileDigitPageSize | catalog-management-app/src/components/Profile/ProfilePage.js:56 | every typed digit string passes the page-size check |
| Profile.ProfilePageSizeMessages | catalog-management-app/src/components/Profile/ProfilePage.js:56 | an empty page size is "required", "-3" and "2.5" are not numbers, and "0" passes |
| Profile.ParsedPreferences | catalog-management-app/src/components/Profile/ProfilePage.js:71-73 | `preferences` is an object with the one key `page_size`, holding an integer or NaN |
| Profile.ParsedPageSize | catalog-management-app/src/components/Profile/ProfilePage.js:72 | an accepted page size goes out as the number it spells, so "0" is sent as 0 |
| Profile.UpdatePayload | catalog-management-app/src/components/Profile/ProfilePage.js:69-74 | the payload's `preferences` is the parsed page size |
| Profile.UpdatePayloadFields | catalog-management-app/src/components/Profile/ProfilePage.js:69-74 | the payload carries every edited field unchanged and adds nothing but `preferences` |
| Profile.UpdatedUser | catalog-management-app/src/components/Profile/ProfilePage.js:88-94 | the updated user's `preferences` is the parsed page size |
| Profile.UpdatedUserFields | catalog-management-app/src/components/Profile/ProfilePage.js:88-94 | the updated user takes every edited field, keeps every field that was not edited, and gains nothing but `preferences` |
| Profile.ClearAfterUpdate | catalog-management-app/src/components/Profile/ProfilePage.js:117-124 | after a successful update, Clear shows the fields as typed and the page size as the number it was parsed to |
| Profile.ProfilePage.constructor | catalog-management-app/src/components/Profile/ProfilePage.js:6-12 | no user, no copy, loading, not editing |
| Profile.ProfilePage.FetchUserProfile | catalog-management-app/src/components/Profile/ProfilePage.js:15-46 | GETs `/auth/users/me`; success keeps the user and its projection, 401 navigates to `/login`, other statuses show "Failed to fetch profile"; loading ends in every case |
| Profile.ProfilePage.Validate | catalog-management-app/src/components/Profile/ProfilePage.js:51-59 | stores the error map of the edited copy and returns whether every message is `''` |
| Profile.ProfilePage.HandleChange | catalog-management-app/src/components/Profile/ProfilePage.js:61-64 | the named field takes the typed text and every other field is unchanged |
| Profile.ProfilePage.Apply | catalog-management-app/src/components/Profile/ProfilePage.js:86-104 | success replaces the user by the updated user and ends editing; 401 navigates to `/login`; other statuses show "Failed to update profile" |
| Profile.ProfilePage.Send | catalog-management-app/src/components/Profile/ProfilePage.js:68-104 | PUTs the payload on the user's `_id`, then applies the reply as Apply states |
| Profile.ProfilePage.HandleUpdate | catalog-management-app/src/components/Profile/ProfilePage.js:66-106 | an invalid copy issues no request and changes nothing but the messages; a valid one is sent |
| Profile.ProfilePage.HandleClear | catalog-management-app/src/components/Profile/ProfilePage.js:117-126 | the copy becomes the same projection of the user the load made, and the messages go |
| Profile.ProfilePage.Render | catalog-management-app/src/components/Profile/ProfilePage.js:128-130 | loading, then the error, then "not available" without a user, then the profile |
| UserEditor.LoadedUser | catalog-management-app/src/components/Admin/EditUser.js:26-29 | the loaded user keeps every field and gains `preferences.page_size`: the stored `Preferences.Page_size` when truthy, else 12 |
| UserEditor.EditUserErrorKeys | catalog-management-app/src/components/Admin/EditUser.js:47-52 | the error map always has exactly the five keys |
| UserEditor.EditUserValidIff | catalog-management-app/src/components/Admin/EditUser.js:46-54 | the user is valid exactly when the three names are truthy, the email is in the pattern's language and `preferences.page_size` is a digit string or a positive number |
| UserEditor.LoadedPageSize | catalog-management-app/src/components/Admin/EditUser.js:28-52 | a freshly loaded user's page size passes unless a stored truthy value is not a positive number or digit string |
| UserEditor.ChangedUser | catalog-management-app/src/components/Admin/EditUser.js:59-63 | a change keeps `preferences` an object |
| UserEditor.ChangedUserFields | catalog-management-app/src/components/Admin/EditUser.js:57-63 | only the named field changes; `preferences` changes only for `page_size`, and then only in its `page_size`, to `parseInt(value, 10)` |
| UserEditor.PageSizeChangeMessages | catalog-management-app/src/components/Admin/EditUser.js:52-62 | after typing a page size, a positive number passes, a negative one is not a number, and 0 or NaN is "required" |
| UserEditor.ClearedErrors | catalog-management-app/src/components/Admin/EditUser.js:97-104 | after Clear the four text fields are "required" and the page size 12 passes |
| UserEditor.UpdateBody | catalog-management-app/src/components/Admin/EditUser.js:76-79 | the body's `Preferences` is `user.preferences` |
| UserEditor.UpdateBodyFields | catalog-management-app/src/components/Admin/EditUser.js:76-79 | the body keeps every other field of the user |
| UserEditor.EditUser.constructor | catalog-management-app/src/components/Admin/EditUser.js:6-10 | no user, loading, no messages |
| UserEditor.EditUser.FetchUser | catalog-management-app/src/components/Admin/EditUser.js:14-41 | GETs the route's user; success shows the loaded user, 401 navigates to `/login`, other statuses show "Failed to fetch user"; loading ends in every case |
| UserEditor.EditUser.Validate | catalog-management-app/src/components/Admin/EditUser.js:46-55 | stores the error map and returns whether every message is `''` |
| UserEditor.EditUser.HandleChange | catalog-management-app/src/components/Admin/EditUser.js:57-64 | the user becomes the changed user and still carries a `preferences` object |
| UserEditor.EditUser.Apply | catalog-management-app/src/components/Admin/EditUser.js:82-93 | success navigates to `/admin-users`, 401 to `/login`, other statuses show "Failed to update user" |
| UserEditor.EditUser.Send | catalog-management-app/src/components/Admin/EditUser.js:68-93 | PUTs the update body on the route's id, then applies the reply as Apply states |
| UserEditor.EditUser.HandleUpdate | catalog-management-app/src/components/Admin/EditUser.js:66-95 | an invalid user issues no request and changes nothing but the messages; a valid one is sent |
| UserEditor.EditUser.HandleClear | catalog-management-app/src/components/Admin/EditUser.js:97-106 | the user becomes the blank user with page size 12, with no messages |
| UserEditor.EditUser.Render | catalog-management-app/src/components/Admin/EditUser.js:108-110 | loading, then the error, then "not found" without a user, then the form |
| Products.MarkProduct | catalog-management-app/src/components/Product/ProductList.js:43-48 | a product with stock `=== 0` gains `status: false` and keeps its other fields; any other product is returned as it is |
| Products.MarkOutOfStock | catalog-management-app/src/components/Product/ProductList.js:43-48 | the list keeps its length and each product is marked in place |
| Products.MarkOutOfStockMeaning | catalog-management-app/src/components/Product/ProductList.js:43-48 | a zero-stock product reads `status` false and every other property unchanged; any other product is unchanged |
| Products.MarkOutOfStockAppend | catalog-management-app/src/components/Product/ProductList.js:43 | marking distributes over concatenation, so the order is kept |
| Products.StringZeroStockUnmarked | catalog-management-app/src/components/Product/ProductList.js:44 | a stock of the string "0" is not `=== 0`, so that product keeps its status |
| Products.PressKeepsRange | catalog-management-app/src/components/Product/ProductList.js:162-166 | from a page in `[1, totalPages]` every enabled button leads to a page in that range |
| Products.DisabledMeaning | catalog-management-app/src/components/Product/ProductList.js:162-166 | Previous and Next are disabled exactly when they would leave the range, First and Last exactly when they would not move |
| Products.ProductList.constructor | catalog-management-app/src/components/Product/ProductList.js:7-17 | no products, loading, page 1 of 1, 12 per page |
| Products.ProductList.Apply | catalog-management-app/src/components/Product/ProductList.js:41-57 | success adopts the marked products and the server's page, totalPages and pageSize; 401 navigates to `/login`; other statuses show "Failed to fetch products" and keep the list |
| Products.ProductList.FetchProducts | catalog-management-app/src/components/Product/ProductList.js:22-64 | without a token it navigates to `/login` and requests nothing; a token that does not decode shows the network error and changes nothing else; otherwise it takes `isAdmin` from the claims, GETs the current page for the current query and applies the reply as Apply states (success adopts products and paging, 401 navigates to `/login`, other statuses show "Failed to fetch products", a rejection shows the network error, and every failure keeps the list and paging); loading ends in every case |
| Products.ProductList.HandleDelete | catalog-management-app/src/components/Product/ProductList.js:80-94 | sends the DELETE; once it resolves, whatever the status, every product with that `_id` goes; a rejection keeps the list and shows "Failed to delete product." |
| Products.ProductList.HandleSearchChange | catalog-management-app/src/components/Product/ProductList.js:96-99 | the search box and the query the next fetch uses both take the text |
| Products.ProductList.HandlePageChange | catalog-management-app/src/components/Product/ProductList.js:101-103 | the page becomes the one asked for |
| Products.ProductList.HandleFirstPage | catalog-management-app/src/components/Product/ProductList.js:105-107 | the page becomes 1 |
| Products.ProductList.HandleLastPage | catalog-management-app/src/components/Product/ProductList.js:109-111 | the page becomes totalPages |
| Products.ProductList.Press | catalog-management-app/src/components/Product/ProductList.js:162-166 | an enabled button moves to its target page, and a page in range stays in range |
| Products.ProductList.Render | catalog-management-app/src/components/Product/ProductList.js:113-132 | loading, then the error, then the table when there are products, else "No products available" |
| Admin.DeleteFailure | catalog-management-app/src/components/Admin/AdminUsers.js:70 | the message names the server's `message` when it is truthy, else "Unknown error" |
| Admin.AdminUsers.constructor | catalog-management-app/src/components/Admin/AdminUsers.js:7-12 | no users, loading, not admin, no logged-in id |
| Admin.AdminUsers.Apply | catalog-management-app/src/components/Admin/AdminUsers.js:32-39 | success adopts the server's users; 401 navigates to `/login`; other statuses show "Failed to fetch users" and keep the list |
| Admin.AdminUsers.FetchUsers | catalog-management-app/src/components/Admin/AdminUsers.js:15-46 | a non-administrator is sent to `/profile` and the list is never requested; the list is requested or changed only when `isAdmin` is truthy; for an administrator, success adopts the users, 401 navigates to `/login`, other statuses show "Failed to fetch users", a rejection shows the network error, and every failure keeps the list; loading ends in every case |
| Admin.AdminUsers.OwnRowHasNoDelete | catalog-management-app/src/components/Admin/AdminUsers.js:103-105 | the administrator's own row has no Delete button, and a row with a different id has one |
| Admin.AdminUsers.ApplyDelete | catalog-management-app/src/components/Admin/AdminUsers.js:63-75 | success removes the users with that id; any other outcome keeps the list; 401 navigates to `/login`; other statuses show the failure message |
| Admin.AdminUsers.HandleDelete | catalog-management-app/src/components/Admin/AdminUsers.js:51-77 | a declined confirmation sends nothing and changes nothing; otherwise the DELETE is sent: success removes the users with that id, 401 navigates to `/login`, other statuses show the failure message or the network error, and every failure keeps the list; the administrator's own row always survives |
| Admin.AdminUsers.Render | catalog-management-app/src/components/Admin/AdminUsers.js:79-113 | loading, then the error, then "Not authorized", then the table or "No users available." |
| Admin.DeleteRemovesExactlyOne | catalog-management-app/src/components/Admin/AdminUsers.js:63-64 | with unique ids, a successful delete removes exactly the chosen user and keeps the others in order |

## Left out

- `alert`, `console.error`, request headers and the bearer token they carry: no component reads anything back from them.
- The debounce `setTimeout`/`clearTimeout` around the product fetch, and the effect that focuses the search box: timing and focus are not state the model keeps. Each fetch is modelled as one call that runs to completion, with no interleaving.
- `formatDate` on the profile page: it depends on `Date` parsing and the local time zone.
- The profile page's Edit and Cancel buttons only set `isEditing` to true or false; they are kept as that field and not modelled as handlers.
- The plain text setters (`setUsername`, `setProductName` and so on) just assign the typed text; they are not modelled as methods.
- JSX beyond the render guards and the conditions named in the table: layout, labels and the per-field message paragraphs.
- Numbers are exact unbounded integers, where JavaScript numbers are 64-bit floats. Fractions and negative zero are not modelled. Above 2^53 `parseInt` rounds, and from 10^21 on `String()` writes an exponent ("1e+21"), which the digits test rejects. The members below rely on exact integers, so they describe JavaScript only for magnitudes below 10^21, and exactly only for safe integers (below 2^53):
- JsParseInt.ParseInt, JsParseInt.ParseDigitString, JsParseInt.ParseNegativeDigitString: the value read is exact; JavaScript rounds it above 2^53.
- JsParseInt.ParseIntRoundTrip: holds in JavaScript only below 10^21; `parseInt("1e+21")` is 1.
- Patterns.TestDigitsOnNumber: from 10^21 on JavaScript's `String(n)` is "1e+21" and fails the digits test, where the model passes every non-negative number.
- Forms.DigitsCheckMeaning, Forms.ParsedDigitsCheck: from 10^21 on a positive number is "not a number" in JavaScript, where the model passes it.
- UserEditor.PageSizeChangeMessages, ProductEditor.ParseProductId: a typed value of 10^21 or more passes in the model but is "not a number" in JavaScript.
- Profile.ParsedPageSize: a digit string is sent as its exact value, where JavaScript rounds above 2^53.
- A request's body is kept as the object passed to `JSON.stringify`, not as the text sent: on the wire a key holding `undefined` is dropped and NaN becomes `null`.
- Password length counts characters; JavaScript's `length` counts UTF-16 code units, so the two differ for characters outside the Basic Multilingual Plane.
- `===` on two objects compares contents here, where JavaScript compares references. The components only compare ids, which are strings or numbers.
- A reply's body is taken in the shape the component reads: `data.user` for the two user pages, `{products, page, totalPages, pageSize}` for the list, and `data.users` for the administrator's list. A body of another shape, on which the component would throw and show the network error, is not modelled.
- Spreading a value that is not an object (for example a missing `preferences` in the user editor) is not modelled. `UserEditor.ChangedUser` requires `preferences` to be an object, which every user the editor loads or clears has.
- `jwtDecode` is an external library: the decoded claims come in as `Web.Claims`, or as `None` when decoding throws.
- The Edit and Add buttons of the two lists only navigate to another page; they are not modelled.
- The route table, layout, header, footer, navigation menu and the read-only user list are not part of this model: they hold no logic beyond display.
- ProductEditor.ProductForm.HandleSubmit, Profile.ProfilePage.HandleUpdate and UserEditor.EditUser.HandleUpdate: each states the main outcomes of a valid send, and the full set of reply outcomes is stated by the `Send` method each one calls.
