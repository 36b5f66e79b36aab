# Cabin-booking dashboard: query and upsert planners

This project models the decision logic of a hotel/cabin-booking admin
dashboard. The logic sits between the React forms and a hosted
backend-as-a-service. There are three pieces, and each is a pure function
that returns a plan or an error. The backend's answers are parameters.

- **Booking list query planner** (`getBookings`, module `Bookings`). It
  turns `{filter, sortBy, page}` into a `QueryPlan`. Sort labels resolve
  to columns, and the column is checked against the selected-field
  allow-list. The direction defaults to `"asc"` and the filter operator
  defaults to `"eq"`. The row window follows the formula `getBookings` uses,
  `(page-1)*(PAGE_SIZE-1)`. A failed reply maps to "Bookings could not
  be loaded". The same module holds the row conditions of the
  today-activity query and the created-at and start-date windows. Each is
  proved equal to a plain predicate over a booking row.
- **Cabin upsert planner** (`createEditCabin`, module `Cabins`). It decides
  whether to upload the image. It strips every `/` from the generated
  object name and builds the public address. Then it issues exactly one
  insert or update, with only the `image` field rewritten. A run records
  its calls in order, so the proofs can state that a failed upload stops
  before any write. They also state the round trip: a written address is
  recognised as already uploaded.
- **Cabin form** (`CreateCabinForm`, module `CabinForm`). It derives the
  edit session and applies the field rules registered on the inputs. It
  also builds the submitted payload and dispatches the create or edit
  mutation.

`Results` holds `Option`/`Result` and the JavaScript truthiness tests.
`Strings` holds `startsWith` and single-character `replaceAll`.

Four behaviours of the code are easy to misread:
- An unmapped sort value is kept as written, and only then is it checked
  against the allow-list. So a raw column name such as `totalPrice` is
  accepted, and so are `cabins(name)` and `guests(fullName, email)`.
- Ordering is ascending only when the direction is exactly `"asc"`.
  Every other non-empty direction sorts descending.
- When a sort is given, any truthy `page` paginates. That is every
  non-zero integer, and a negative page gives a negative `from`. Without
  a sort the page is ignored.
- The `discount ≤ regularPrice` rule belongs to the form. `createEditCabin`
  itself validates nothing.

## Model

| member | source | states |
|---|---|---|
| `Bookings.SortFieldResolution` | src/services/apiBookings.js:20-31 | The amount labels resolve to `totalPrice` and the date labels to `created_at`. A raw allowed column is kept. A sort value passes the allow-list iff it is a mapped label or an allowed column. |
| `Bookings.ResolveSortField` | src/services/apiBookings.js:31 | A mapped label resolves to `totalPrice` or `created_at`, and any other value is kept unchanged. The resolved column is allowed iff the value was a mapped label or an allowed column. |
| `Bookings.ResolveSort` | src/services/apiBookings.js:29-39 | The sort is accepted iff its value is a label or an allowed column. A refusal carries "Invalid sort field: " plus the value as given. On success the column is allowed. The direction is the given one when non-empty and "asc" otherwise. |
| `Bookings.PlanFilter` | src/services/apiBookings.js:45-48 | The filter step applies to the given field and value. It uses the given operator when non-empty and "eq" otherwise. |
| `Bookings.PageWindow` | src/services/apiBookings.js:57-58 | The inclusive window holds exactly `PAGE_SIZE` rows. It starts at a non-negative row for page ≥ 1. |
| `Bookings.PlanQuery` | src/services/apiBookings.js:5-61 | The plan fails iff a sort is given whose value is refused. Otherwise the plan selects the base fields of `bookings` with an exact count. It filters iff a filter is given and orders iff a sort is given. It has a range iff a sort is given and the page is truthy. |
| `Bookings.GetBookings` | src/services/apiBookings.js:5-71 | A refused sort issues no query and throws the invalid-sort message. Otherwise exactly the planned query is issued. A backend error becomes "Bookings could not be loaded", and rows and count are returned unchanged. |
| `Bookings.PageWithoutSortIsIgnored` | src/services/apiBookings.js:50-61 | With no sort the plan has neither an ordering nor a range, whatever the page. |
| `Bookings.OrderIsAscendingOnlyForAsc` | src/services/apiBookings.js:37-54 | The order is ascending iff the direction is missing, empty or exactly "asc". |
| `Bookings.SortByDateSecondPage` | src/services/apiBookings.js:20-59 | "Sort by date", "asc", page 2 orders by `created_at` ascending over rows `PAGE_SIZE-1` to `2*PAGE_SIZE-2`. |
| `Bookings.ConsecutivePagesShareARow` | src/services/apiBookings.js:57-58 | Page k's last row is page k+1's first row. |
| `Bookings.ConsecutivePagesOverlapByOne` | src/services/apiBookings.js:57-58 | With `PAGE_SIZE ≥ 2`, two consecutive windows share exactly one row. |
| `Bookings.EveryRowIsOnSomePage` | src/services/apiBookings.js:57-58 | With `PAGE_SIZE ≥ 2`, every row index is inside the window of some page ≥ 1. |
| `Bookings.OneRowPagesNeverAdvance` | src/services/apiBookings.js:57-58 | With `PAGE_SIZE = 1`, every page shows row 0 only. |
| `Bookings.TodayActivityQuery` | src/services/apiBookings.js:121-133 | The `or(and(..),and(..))` condition holds of a row iff it is an unconfirmed stay starting today or a checked-in stay ending today. Rows are ordered by `created_at` ascending. |
| `Bookings.CreatedAfterQuery` | src/services/apiBookings.js:89-94 | The condition holds iff `date ≤ created_at ≤ end of today`. |
| `Bookings.StaysAfterQuery` | src/services/apiBookings.js:105-111 | The condition holds iff `date ≤ startDate ≤ today`. |
| `Bookings.RowsOrError` | src/services/apiBookings.js:96-101 | A backend error becomes "Bookings could not get loaded". Otherwise the rows are returned unchanged. |
| `Strings.RemoveAll` | src/services/apiCabins.js:20-23 | The result contains no removed character. Every other character keeps its count. A string without the character is returned unchanged. |
| `Strings.RemoveAllConcat` | src/services/apiCabins.js:20-23 | Removing a character distributes over concatenation, so the kept characters stay in order. |
| `Cabins.ObjectName` | src/services/apiCabins.js:20-23 | The generated object name contains no `/`. Its characters are those of `<random>-<image.name>` minus the slashes. |
| `Cabins.ObjectNameParts` | src/services/apiCabins.js:20-23 | The object name is the slash-free random part, "-", then the slash-free file name. |
| `Cabins.ObjectNameWithoutSlashes` | src/services/apiCabins.js:20-23 | When neither the random part nor the file name contains `/`, the object name is exactly `<random>-<name>`. |
| `Cabins.HasImagePath` | src/services/apiCabins.js:15 | Only a string can count as already stored: a file or a missing image never does. A string counts iff it starts with the project URL. |
| `Cabins.NeedsUpload` | src/services/apiCabins.js:15-19 | A picked file is always uploaded and a missing image never is. A string is uploaded iff it is non-empty and does not start with the project URL. |
| `Cabins.NameOf` | src/services/apiCabins.js:20 | The name part is the file's name for a picked file. For a string image it is "undefined", which is what `.name` of a string interpolates as. |
| `Cabins.PublicPath` | src/services/apiCabins.js:24 | The public address starts with the project URL followed by `/storage/v1/object/public/cabin-images/`. |
| `Cabins.ObjectNameAt` | src/services/apiCabins.js:24 | Reading an object name back from an address gives a name whose public address is that address. It fails only when the address lacks the bucket prefix. |
| `Cabins.PublicPathRoundTrip` | src/services/apiCabins.js:24 | Reading the name back from a built public address returns the original name. |
| `Cabins.IsTruthy` | src/services/apiCabins.js:19 | The `newCabin.image` test passes for every image except a missing one and the empty string. |
| `Cabins.PlanImage` | src/services/apiCabins.js:15-37 | The image is kept iff it is falsy or a string starting with the project URL. An uploaded image gets a slash-free generated name. Its new address starts with the project URL and names that object. |
| `Cabins.ImagePath` | src/services/apiCabins.js:17-37 | Without an upload `imagePath` is the image as given. After an upload it is an address under the project URL that names the generated object. |
| `Cabins.WrittenImageNeedsNoUpload` | src/services/apiCabins.js:15-37 | The image value written to the row never needs an upload when it is submitted again. |
| `Cabins.WriteCall` | src/services/apiCabins.js:46-56 | The write is an insert iff the id is falsy, otherwise an update of that id. The row equals the input record with only `image` replaced. |
| `Cabins.CreateEditCabin` | src/services/apiCabins.js:14-66 | An upload is the first call iff the image needs one, into `cabin-images` under the generated name. Without an upload the record is written unchanged. A failed upload throws "Image upload failed" with no write. Otherwise exactly one write comes last. A write error becomes "Cabin could not be created/edited", and the rows are returned otherwise. |
| `Cabins.UploadedImageIsWrittenAsItsAddress` | src/services/apiCabins.js:19-55 | After a successful upload the row's image is an address under the project URL that names the uploaded object. |
| `Cabins.ResubmissionUploadsNothing` | src/services/apiCabins.js:14-56 | When a run reaches its write, submitting the written row again issues just one write, of the same row, with no upload. |
| `CabinForm.EditId` | src/features/cabins/CreateCabinForm.jsx:13-14 | Without a cabin to edit (the `{}` default) there is no `editId`. A present `editId` is the cabin's own id. |
| `CabinForm.DefaultValues` | src/features/cabins/CreateCabinForm.jsx:13-19 | There are defaults iff the cabin to edit has a truthy id. The defaults are that cabin without its id. |
| `CabinForm.IsEditSession` | src/features/cabins/CreateCabinForm.jsx:13-15 | With no cabin to edit the form creates. Otherwise it is an edit session iff the cabin's id is present and non-zero. |
| `CabinForm.NoErrorsIffValid` | src/features/cabins/CreateCabinForm.jsx:79-163 | No field has a message iff the name is present, capacity and price are at least 1, and the discount is at most the price. The description must also be present outside an edit session, and the photo input must be a string or one file. |
| `CabinForm.FieldError` | src/features/cabins/CreateCabinForm.jsx:84-161 | Each field reports only its own messages. "This field is required" is reported exactly for an empty name, capacity, price or discount, and for an empty description outside an edit session. |
| `CabinForm.CapacityAndPriceRules` | src/features/cabins/CreateCabinForm.jsx:95-116 | Capacity and regular price pass iff present and at least 1. A present value below 1 gets its "at least 1" message. |
| `CabinForm.DiscountRule` | src/features/cabins/CreateCabinForm.jsx:126-131 | A present discount passes iff the regular price is present and `discount ≤ regularPrice`, so equality is accepted. A failure carries "Discount should be less than regular price". |
| `CabinForm.DescriptionRule` | src/features/cabins/CreateCabinForm.jsx:145-147 | The description fails iff it is empty outside an edit session. |
| `CabinForm.PhotoRule` | src/features/cabins/CreateCabinForm.jsx:155-161 | The photo input passes iff it is a string or a list of exactly one file. |
| `CabinForm.FirstImage` | src/features/cabins/CreateCabinForm.jsx:58-64 | There is no image iff `image_url` is missing, an empty string or an empty list. Otherwise it is the first file, or the first character of a string. |
| `CabinForm.OnSubmit` | src/features/cabins/CreateCabinForm.jsx:51-71 | Without an image nothing is dispatched. Otherwise exactly one mutation fires: an edit of `editId` in an edit session, a create otherwise. The payload is the form data with only `image` replaced by `image_url[0]`. |
| `CabinForm.HandleSubmit` | src/features/cabins/CreateCabinForm.jsx:73-78 | The submission is rejected with the field messages iff some rule fails, and `onSubmit` runs otherwise. |
| `CabinForm.ValidFormWithImageMutates` | src/features/cabins/CreateCabinForm.jsx:51-71 | A valid form reports a missing image only when the photo input is the empty string. In every other case it fires a mutation. |
| `CabinForm.DiscountAbovePriceIsRejected` | src/features/cabins/CreateCabinForm.jsx:126-131 | A discount above the regular price is rejected with the discount message, and no mutation fires. |
| `CabinForm.MutationId` | src/features/cabins/CreateCabinForm.jsx:24-38 | The create mutation hands `createEditCabin` no id, so its write is an insert. The edit mutation passes its `editId`. |
| `CabinForm.SubmissionWritesOnce` | src/features/cabins/CreateCabinForm.jsx:66-70 | When a dispatched submission carries a picked file whose upload fails, the run is that upload alone and throws "Image upload failed". Whenever no upload fails, exactly one write ends the run. It is an update of the edited cabin's id iff the form is an edit session, and the row is the form data with only the image replaced. |

## Left out

- Backend SDK calls: select, insert, update, upload, `.single()` and the exact-count semantics. They are not modelled as behaviour. Their answers (`Reply`, `UploadReply`, `WriteReply`) are parameters, and a run records the calls it would issue.
- `Math.random()`: the random prefix of the object name is a string parameter with no assumptions about its characters.
- `PAGE_SIZE` and `getToday`: their files are not part of this model. They are parameters (`pageSize`, `today`, `endOfToday`).
- Dates: they are modelled as ordered integers rather than ISO strings.
- `.or(...)` filter: the string syntax is modelled as a condition tree (`Cond`).
- `query[method]`: the dynamic dispatch records the operator name. An operator the client library does not have, which throws a `TypeError` there, is not modelled.
- `sortFieldMapping`: lookups of inherited object keys (`"constructor"`, `"toString"`) are not modelled. They would also be refused, with a different message.
- Form numbers: they are integers. In the browser a number input yields a string. `Boolean(page)` and `discount <= regularPrice` then follow JavaScript's coercion and string comparison rules, which are not reproduced.
- `CabinData`: it holds the six fields the form edits. Other columns that reach the form as edit defaults (such as `created_at`) and are sent back in the update are not modelled.
- `getBooking`, `updateBooking`, `deleteBooking`, `getCabins`, `deleteCabin`: each is a single pass-through call with error mapping.
- `src/services/apiSettings.js`: two sequential backend calls plus error mapping, with no decision logic.
- `src/features/authentication/Logout.jsx`: pure UI.
- React plumbing: rendering, react-hook-form internals beyond the registered rules, toasts, query-cache invalidation, `reset`, the disabled state while a mutation runs, and console logging.
- CabinForm.FirstImage: strings are sequences of Unicode characters, not UTF-16 code units. `image_url[0]` of a string starting with a character outside the Basic Multilingual Plane is a lone surrogate in the browser, while the model yields the whole character.
- The in-place rewrite of `sortBy`: it is modelled as a returned `ResolvedSort`.
