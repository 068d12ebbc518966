# CarAdmin form logic, modelled in Dafny

CarAdmin is a React admin dashboard for a car catalogue. Almost all of it is layout and
fetch plumbing; this project models the three pieces that hold sequential, stateful or
decision logic, and proves what they do:

- **The product draft form** (`Overview`, `src/views/admin/addProduct/index.jsx`), in
  `add_product.dfy`: a `ProductForm` class with the page's nine state fields (name, price,
  model, location, category, isFeatured, the pending description line, the description list
  and the image file) and one method per handler: the load effect that fills the draft from a
  fetched product, the inputs' change handlers, adding a description line (guarded by a
  `trim` emptiness test, storing the untrimmed text), removing a line by position (copy the
  list, then `splice` the copy in place, modelled over an array), picking an image, and submit,
  which assembles a `NewProduct` and resets every field. `Display` is the `productId ? x : ""`
  mask on the bound inputs. `CategoryEnum` is the select's option list.
- **The registration form** (`Register`, `src/views/auth/register/index.jsx`), in
  `register.dfy`: a `RegisterForm` class holding the `show` flag and the `formData` record
  (a map from input name to value), the keyed update of `handleChange`, the password toggle,
  and `handleRegister`: the confirmation guard with its early return, the request body that
  leaves out `confirmPassword`, and the outcome that decides navigation.
- **The users table** (`ColumnsTable`, `src/views/admin/users/components/ComplexTable.js`),
  in `complex_table.dfy`: the column mapping and the per-cell if-chain, with cell values as a
  tagged union (boolean or other) and the rendering as a datatype.

`js_text.dfy` models the one library routine the forms depend on, JavaScript's
`String.prototype.trim` with the white-space set of ECMA-262 (sections 12.2 and 12.3), and
proves that `s.trim() !== ""` holds exactly when `s` has a non-white-space character.
`optional.dfy` holds the `Option` type used for `undefined`/`null`.

Network responses are inputs: the product fetch is `Failed` or `Fetched(responseData)`, the
registration response is `NetworkError` or `Response(ok)`. Side effects of the registration
handler (alerts, the posted body, pushed routes, logged errors) are returned as an `Effects`
value.

The model follows the code as written, including where it is narrower than a product form
might be expected to be: the load effect overwrites seven fields, not every field; added
description lines are stored untrimmed; submit sends the assembled product nowhere, does not
navigate and always resets; there is no guard against out-of-order fetch responses.

## Model

| member | source | states |
|---|---|---|
| JsText.Trim | src/views/admin/addProduct/index.jsx:53 | `trim` removes exactly the leading and trailing white space: the result is the contiguous middle of the input, everything before and after it is white space, and it starts and ends with a non-white-space character |
| JsText.TrimEmptyIffBlank | src/views/admin/addProduct/index.jsx:53 | `description.trim() !== ""` holds exactly when the pending line has a character that is not white space |
| AddProduct.Display | src/views/admin/addProduct/index.jsx:109-185 | with no truthy product id the five inputs are bound to "" (their `value` props) and the checkbox to false (`isChecked`), whatever the draft holds; with one they are bound to the draft; the pending line and the entry list are never masked |
| AddProduct.MaskHidesDraft | src/views/admin/addProduct/index.jsx:111-155 | with no product id, drafts that differ only in the masked fields display identically |
| AddProduct.Spliced | src/views/admin/addProduct/index.jsx:59-63 | removing at a valid index shortens the list by one and keeps the other entries in order (entry j comes from j before the index, from j+1 after it); an index past the end removes nothing |
| AddProduct.SplicedRemovesOneOccurrence | src/views/admin/addProduct/index.jsx:61 | removing at a valid index takes out exactly one occurrence of that entry and nothing else |
| AddProduct.CopyThenSplice | src/views/admin/addProduct/index.jsx:60-61 | copying the list into a fresh array and splicing one slot out of the copy yields exactly the spliced list |
| AddProduct.ProductForm.constructor | src/views/admin/addProduct/index.jsx:15-26 | the page starts with all nine fields at their defaults and keeps the route's product id |
| AddProduct.ProductForm.LoadProduct | src/views/admin/addProduct/index.jsx:27-50 | a fetch happens only for a truthy product id; fetched `responseData` overwrites exactly name, price, model, location, descriptionList, category and isFeatured, leaving the pending line and image; a failed fetch or a body without `responseData` leaves the state unchanged |
| AddProduct.ProductForm.HandleInput | src/views/admin/addProduct/index.jsx:112-166 | each input's change handler writes its own field and no other, masked or not |
| AddProduct.ProductForm.HandleAddDescription | src/views/admin/addProduct/index.jsx:52-57 | a non-blank pending line is appended untrimmed at the end of the list and the pending line becomes ""; a blank one changes nothing; no other field changes |
| AddProduct.ProductForm.HandleRemoveDescription | src/views/admin/addProduct/index.jsx:59-63 | the list becomes the spliced list and every other field is unchanged |
| AddProduct.ProductForm.HandleFileChange | src/views/admin/addProduct/index.jsx:65-69 | the image becomes the first selected file (none for an empty selection); nothing else changes |
| AddProduct.ProductForm.HandleSubmit | src/views/admin/addProduct/index.jsx:71-93 | the assembled product carries the current fields with `description` = the description list (not the pending line) and the image; afterwards all nine fields are at their defaults |
| AddProduct.SubmitTwice | src/views/admin/addProduct/index.jsx:71-93 | a second submit assembles the empty product and leaves the form at its defaults |
| Register.InitialFormData | src/views/auth/register/index.jsx:31-38 | the initial record has exactly the six input names as keys, each "" |
| Register.WithField | src/views/auth/register/index.jsx:43-45 | the keyed spread update sets the named field to the value and keeps every other field |
| Register.Project | src/views/auth/register/index.jsx:57-63 | the body lists the chosen keys in order, each paired with the form's value for it |
| Register.RequestBody | src/views/auth/register/index.jsx:57-63 | the request body is exactly firstName, lastName, email, phoneNumber and password with the form's values; `confirmPassword` is never sent |
| Register.PasswordInputType | src/views/auth/register/index.jsx:222-252 | both password inputs are of type "text" exactly while `show` holds, and "password" otherwise |
| Register.RegisterForm.constructor | src/views/auth/register/index.jsx:27-38 | the page starts with passwords hidden and the initial record |
| Register.RegisterForm.HandleClick | src/views/auth/register/index.jsx:28 | `show` is negated and the record unchanged |
| Register.RegisterForm.HandleChange | src/views/auth/register/index.jsx:43-45 | the record becomes the keyed update of the old one; `show` unchanged; every input name stays a key |
| Register.RegisterForm.HandleRegister | src/views/auth/register/index.jsx:47-80 | differing passwords: one alert, no request, no navigation; matching: the five-field body is posted, an ok response navigates exactly once to "/auth/sign-in", a failed or non-ok one navigates nowhere and logs one error |
| Register.ToggleTwice | src/views/auth/register/index.jsx:27-28 | two toggles restore the original `show` |
| ComplexTable.Columns | src/views/admin/users/components/ComplexTable.js:28-34 | the column list has one column per descriptor, in order, with Header = header, accessor = key and cellType = cellType |
| ComplexTable.RenderCell | src/views/admin/users/components/ComplexTable.js:107-144 | text exactly for a "text" column (any value, booleans too); status exactly for a boolean in any other column (true: check icon, green, "Active"; false: cancel icon, red, "Inactive"); a bar carrying the value exactly for a non-boolean in a "progress" column; the raw value exactly for a non-boolean in any other column |
| ComplexTable.BooleanInProgressColumnIsStatus | src/views/admin/users/components/ComplexTable.js:117-132 | a boolean in a "progress" column renders as a status and never as a progress bar |
| ComplexTable.RenderRow | src/views/admin/users/components/ComplexTable.js:107-158 | a row renders one cell per cell, in order, each by its own column's type and value |

## Left out

- HTTP: endpoint URLs, request headers, `fetch` itself and JSON parsing are not modelled; responses are abstract inputs (`FetchOutcome`, `HttpOutcome`).
- Asynchrony: the load effect and the registration request are modelled as completing in one step; the order in which overlapping responses arrive is not modelled (the source has no guard against stale responses).
- `console.error` in the product form and `e.preventDefault()` are not modelled; only the registration handler reports its logged errors, as a count.
- AddProduct.ProductForm.LoadProduct: a change of the route's id while the page stays mounted is not modelled. In the source the effect then runs again: a new fetch overwrites the seven loaded fields, the pending line, the image and any edits to other fields carry over, and the mask follows the new id. The model fixes the id when the form is constructed.
- AddProduct.ProductForm.LoadProduct: fields missing from a fetched product (which would store `undefined`) are not modelled; the fetched product always carries all seven fields.
- AddProduct.ProductForm.HandleRemoveDescription: `splice` with a negative or fractional index is not modelled; the page only passes the index of a rendered entry, a natural number.
- AddProduct.ProductForm.HandleFileChange: `undefined` (an empty selection) and `null` (after submit) are both "no image".
- Dynamic typing: `price` is kept as text although the server sends a number and the input stores a string; `category` is any string, and `CategoryEnum` only lists the select's options.
- ComplexTable.RenderCell: how React prints a boolean inside the text branch (it prints nothing) is not modelled; the model records that the text branch is chosen and with which value.
- react-table: sorting, the global filter, pagination and the `initialState.pageSize = 5` assignment are third-party code and not modelled; cells reach `RenderRow` already paired with their columns.
- JavaScript strings are sequences of UTF-16 code units; the model's strings are sequences of Unicode scalar values, so a string holding a lone surrogate cannot be represented. The white-space characters `trim` strips all lie in the Basic Multilingual Plane, so on every string the model can represent, `trim` behaves as in JavaScript.
- AddProduct.Display: what the category select displays when its bound value matches no option (React then shows the first option, "None") is not modelled; `View.category` is the bound `value` prop.
- Browser form validation is not modelled: all six registration inputs are required and the email input has type "email", so the browser blocks submission of an empty field or a malformed address before `handleRegister` runs; `HandleRegister` accepts any record.
- Styling, layout, colour-mode values and icons other than the status icon are presentation only.
- src/views/auth/signIn/index.jsx (token storage in localStorage, the timer-driven progress animation with floating-point steps, delayed navigation), src/views/admin/productDetails/index.jsx (a single fetch into state) and src/views/admin/productDetails/components/ProductCard.js (presentation, `toFixed(2)` float formatting) are not part of this model.
