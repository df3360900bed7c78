# Real-estate listing: a verified model

This project models the core of a Next.js real-estate listing application in Dafny.

- The `properties` table as the migration creates it: columns, NOT NULL constraints, defaults, numeric ranges and the primary key.
- The `/api/properties` route:
  - GET reads the search parameters, builds the filtered query (`LIKE` city match included), orders it newest first, cuts one page and reformats every row;
  - POST turns form data into a row, inserts it, then uploads image files one by one.
- The client-side listing and agents tables: column sort toggle, status/type filters, pagination (`slice`, page count, Previous/Next, the "Showing x to y" line), sort icons and avatar initials.
- The form schemas and their submit helpers:
  - the create-listing form (lenient Zod schema, comma-list normalisation in `onSubmit`);
  - the shared strict Zod `propertySchema` and the floor-plan URL field;
  - the new property listing form (Yup);
  - the realtor agent form (Yup);
  - the user form (Zod);
  - the listing category form (Zod, with slug generation).

Values are Dafny datatypes and library behaviour is spelt out:

- Yup's `required` rejects the empty text.
- Yup's `email()` and `url()` let the empty text through.
- Zod's `.default` fills in absent values.
- A numeric input that cannot be read becomes `NaN` and fails every number rule.

The database, the JSON parser, the file upload, the clock, the UUID generator and the email/URL/UUID patterns are function parameters of the model.

`PropertiesRoute.HandleGet` and `PropertiesRoute.BuildQuery` are methods that assemble the query step by step, as the handler does, and are proved against the functions `Search` and `Selected`. `PropertiesRoute.HandlePost` collects the upload URLs in a loop, proved against `UploadedUrls`. The submitted create-listing form is a class, `NewListingForm.ListingForm`, whose `OnSubmit` rewrites its data in place.

Two behaviours of the POST handler are worth stating plainly:

- **POST status.** An absent `status` is stored as NULL, not as the column default `PENDING`, because the handler passes `formData.get('status')`, an explicit `null` (`PropertiesRoute.PostStoredRow`).
- **Uploaded images.** Uploaded images are only returned in the response: the stored row's `image_urls` stays `[]` (`PropertiesRoute.PostStoredRow`, `PropertiesRoute.HandlePost`).

## Model

| member | source | states |
|---|---|---|
| PropertiesTable.InsertRow | frontend/migrations/20230801000000_create_properties_table.ts:5-34 | An INSERT fails with a type error exactly when some value does not convert: integers out of 32-bit range, `decimal` overflow, a non-UUID id, `json` text that does not decode to a list of strings (narrower than PostgreSQL, admitted under "## Left out"). The timestamp columns take any instant. Otherwise it fails with a NOT NULL violation exactly when a NOT NULL column would be NULL, then with a unique violation exactly when the id is taken. On success the returned row is the stored row: it has a fresh id, and every omitted column holds its default (`PENDING`, `NONE`, `false`, `[]`, the current time). |
| PropertiesTable.InsertKeepsTableValid | frontend/migrations/20230801000000_create_properties_table.ts:5-34 | Whatever the clock reads, a successful insert keeps the table invariant: every row fits its column types, and ids are unique. |
| PropertiesTable.SuppliedValuesAreStored | frontend/migrations/20230801000000_create_properties_table.ts:5-34 | Column by column, a supplied value is what the returned row holds, and an explicit NULL is stored as NULL; JSON text is stored decoded. |
| PropertiesTable.Pow10 | frontend/migrations/20230801000000_create_properties_table.ts:8 | The bound of a `decimal(p, s)` column is a positive power of ten. |
| SqlLike.PercentMatchesAll | frontend/app/api/properties/route.ts:106 | The pattern `%` matches every string. |
| SqlLike.LeadingPercent | frontend/app/api/properties/route.ts:106 | `s LIKE '%' + r` holds exactly when some suffix of `s` matches `r`. |
| SqlLike.PlainThenPercent | frontend/app/api/properties/route.ts:106 | For wildcard-free `q`, `t LIKE q + '%'` holds exactly when `t` starts with `q`. |
| SqlLike.ContainsPattern | frontend/app/api/properties/route.ts:106 | For wildcard-free `q`, `s LIKE '%q%'` holds exactly when `q` is a substring of `s`. |
| SqlLike.WildcardSearchMatchesAll | frontend/app/api/properties/route.ts:105-107 | A city search of `%` is not escaped: it becomes `%%%`, which matches every city. |
| PropertiesRoute.NumberOf | frontend/app/api/properties/route.ts:17-36 | `Number(text)`: surrounding white space is dropped, blank text is 0, and an optional sign with digits and an optional fraction is its value; other text is unreadable. Its properties are stated by `NumberOfUnsigned`, `NumberOfMinus`, `NumberOfNegative`, `UnsignedValueWithPoint`, `NumberOfDecimalText` and the examples below. |
| PropertiesRoute.DecimalText | frontend/app/api/properties/route.ts:84-85 | Every natural number has a non-empty all-digit decimal text. |
| PropertiesRoute.NumberOfDecimalText | frontend/app/api/properties/route.ts:79-85 | `Number` reads the decimal text of `n` back as `n`. |
| PropertiesRoute.DigitsValueOfDecimalText | frontend/app/api/properties/route.ts:79-85 | The digit value of the decimal text of `n` is `n`. |
| PropertiesRoute.DotIndex | frontend/app/api/properties/route.ts:17 | The first decimal point of a text lies within it, and it is the end of the text when there is none. |
| PropertiesRoute.DotIndexIsFirst | frontend/app/api/properties/route.ts:17 | No decimal point comes before the one `DotIndex` finds. |
| PropertiesRoute.DotIndexAfterDigits | frontend/app/api/properties/route.ts:17 | The first point of digits followed by more text is the first point of that text, shifted by the digits. |
| PropertiesRoute.UnsignedValueWithPoint | frontend/app/api/properties/route.ts:17 | Digits, a point and digits read as the number with that whole part and that fraction. |
| PropertiesRoute.UnsignedValueOfDigits | frontend/app/api/properties/route.ts:17 | Digits without a point read as their value. |
| PropertiesRoute.NumberOfUnsigned | frontend/app/api/properties/route.ts:17 | Text without surrounding white space or a sign reads as its unsigned value. |
| PropertiesRoute.NumberOfMinus | frontend/app/api/properties/route.ts:30-31 | A leading minus sign negates the number that follows, and text that is not a number stays unreadable. |
| PropertiesRoute.NumberOfNegative | frontend/app/api/properties/route.ts:30-31 | A minus sign before the decimal text of `n` reads as `-n`. |
| PropertiesRoute.NegativeFraction | frontend/app/api/properties/route.ts:31 | A longitude of `-0.5` reads as -0.5. |
| PropertiesRoute.PriceWithCents | frontend/app/api/properties/route.ts:17 | A price of `12.50` reads as 12.5. |
| PropertiesRoute.ExponentIsNotRead | frontend/app/api/properties/route.ts:17 | Exponent notation such as `1e3` is outside the forms the model reads. |
| PropertiesRoute.Param | frontend/app/api/properties/route.ts:78-85 | `searchParams.get` finds a value exactly when the key occurs, and the value found belongs to that key. |
| PropertiesRoute.ReadQuery | frontend/app/api/properties/route.ts:78-85 | Well-formed parameters give a query whose page size is at least 1. |
| PropertiesRoute.DefaultTexts | frontend/app/api/properties/route.ts:84-85 | The fallback texts `1` and `10` read as 1 and 10, and `0` reads as 0. |
| PropertiesRoute.QueryDefaults | frontend/app/api/properties/route.ts:78-85 | With no parameters there are no filters, and the query asks for page 1 of 10 rows. |
| PropertiesRoute.PriceBoundPresence | frontend/app/api/properties/route.ts:79-80 | For any well-formed parameters, a price bound is set exactly when its parameter is present and not empty, and it is the number the parameter reads as. So an empty `minPrice` sets no bound, while `0` sets a bound of 0. |
| SqlLike.Like | frontend/app/api/properties/route.ts:106 | PostgreSQL `LIKE` with `%`, `_` and backslash escapes. Its meaning is stated by `PercentMatchesAll`, `LeadingPercent`, `PlainThenPercent` and `ContainsPattern`. |
| PropertiesRoute.Matches | frontend/app/api/properties/route.ts:93-107 | A row passes the type filter, both price bounds and the lower-cased city `LIKE` pattern, each only when the request gives it. `CityFilterIsSubstring` states the city test; `BuildQuery` is proved equal to filtering by it. |
| PropertiesRoute.Selected | frontend/app/api/properties/route.ts:110-118 | The rows of the table that match, in table order. `SelectedCount` states that the count query counts exactly these, and `BuildQuery` that the step-by-step query selects them. |
| PropertiesRoute.CityFilterIsSubstring | frontend/app/api/properties/route.ts:105-107 | For a city parameter without wildcard characters, a row passes the city filter exactly when the lower-cased parameter is a substring of its lower-cased city. |
| PropertiesRoute.SelectedCount | frontend/app/api/properties/route.ts:110-120 | The count query counts exactly the rows the list query selects. |
| PropertiesRoute.BuildQuery | frontend/app/api/properties/route.ts:91-107 | Adding each WHERE clause only when its parameter is given selects exactly the rows matching every given filter, in table order. |
| PropertiesRoute.Newest | frontend/app/api/properties/route.ts:124 | `ORDER BY created_at DESC`, as the stable sort by creation time. `ResultRowsNewestFirst` and `NewestListingComesFirst` state its order; `Ordering.SortByCorrect` that it is a permutation. |
| PropertiesRoute.ResultRows | frontend/app/api/properties/route.ts:123-126 | Page `page` of `count` rows of the newest-first matches. `ResultRowsMatch`, `ResultRowsNewestFirst`, `ResultRowsArePage` and `EveryMatchIsOnAPage` state what it holds. |
| PropertiesRoute.Window | frontend/app/api/properties/route.ts:125-126 | `LIMIT count OFFSET offset` returns at most `count` rows. |
| PropertiesRoute.ResultRowsMatch | frontend/app/api/properties/route.ts:91-126 | Every returned row is in the table and matches every filter. |
| PropertiesRoute.ResultRowsNewestFirst | frontend/app/api/properties/route.ts:123-126 | Returned rows are in non-increasing `created_at` order. |
| PropertiesRoute.WindowNewestFirst | frontend/app/api/properties/route.ts:124-126 | A window of a newest-first list is newest first. |
| PropertiesRoute.ResultRowsArePage | frontend/app/api/properties/route.ts:88-126 | The rows returned for page `p` are page `p` (`count` rows per page) of the newest-first matching rows. |
| PropertiesRoute.EveryMatchIsOnAPage | frontend/app/api/properties/route.ts:88-193 | Every matching row appears, at its own position, on one of pages `1 .. totalPages`. |
| PropertiesRoute.WindowHoldsEveryRow | frontend/app/api/properties/route.ts:88-126 | Offset windows of `count` rows cover every row of a list. |
| PropertiesRoute.NewestListingComesFirst | frontend/app/api/properties/route.ts:123-126 | A newly inserted matching listing, newer than every other row, is the first row of page 1. |
| PropertiesRoute.NegativeOffset | frontend/app/api/properties/route.ts:84-88 | The offset `(page - 1) * count` is negative exactly when the page is below 1. |
| PropertiesRoute.ImageUrls | frontend/app/api/properties/route.ts:129-141 | `image_urls` text is JSON-decoded. Undecodable text becomes a one-element list, or the empty list when it is empty. A decoded list is kept. NULL gives the empty list. |
| PropertiesRoute.FloorPlans | frontend/app/api/properties/route.ts:130-150 | Decodable `floor_plans` text gives the decoded list; undecodable text gives the empty list. A decoded list is kept. NULL gives the empty list. |
| PropertiesRoute.FormatRow | frontend/app/api/properties/route.ts:128-185 | The camelCase listing of one row, with `image_urls` and `floor_plans` decoded by `ImageUrls` and `FloorPlans`. `FormatRowRoundTrip` states that no column is lost. |
| PropertiesRoute.FormatRowRoundTrip | frontend/app/api/properties/route.ts:152-184 | Formatting a row renames its columns without losing any of them: mapping the listing back gives the row. |
| PropertiesRoute.FormatAll | frontend/app/api/properties/route.ts:128 | The formatted list has one listing per row, in row order. |
| PropertiesRoute.Search | frontend/app/api/properties/route.ts:187-195 | The GET response: the formatted result rows and the pagination, or a failure for a page below 1. `SearchPagination` states the pagination, `ResultRowsArePage` the rows, `NegativeOffset` the failure, and `HandleGet` is proved equal to it. |
| PropertiesRoute.SearchPagination | frontend/app/api/properties/route.ts:110-194 | For a page of at least 1 the search succeeds. `total` is the number of matching rows, and it is the same for every page. `page` and `count` are echoed. `totalPages` is the fewest pages of `count` rows that hold `total`. |
| PropertiesRoute.HandleGet | frontend/app/api/properties/route.ts:75-204 | The handler's response is the search result for the parsed query. |
| PropertiesRoute.FormGet | frontend/app/api/properties/route.ts:15-41 | `formData.get` is absent exactly when no entry has the key, and a found value belongs to that key. |
| PropertiesRoute.TextCell | frontend/app/api/properties/route.ts:15-16 | A form value for a text column: missing is NULL, text is stored as given, and a file fails the insert (admitted under "## Left out"). `PostStoredRow` and `PostNeedsTitle` state its effect on the stored row. |
| PropertiesRoute.IntegerCell | frontend/app/api/properties/route.ts:19-23 | `Number(value)` for an integer column: missing and blank are 0, a whole number is stored, anything else does not convert. `NumberOfDecimalText` states that the decimal text of a number reads back as itself. |
| PropertiesRoute.DecimalCell | frontend/app/api/properties/route.ts:17 | `Number(value)` for a decimal column: missing is 0, otherwise the number read. `PostStoredRow` states that price, latitude and longitude are stored as `NumberOf` of their text. |
| PropertiesRoute.FlagCell | frontend/app/api/properties/route.ts:32-35 | `value === 'true'`. `PostStoredRow` states that each flag is stored true exactly when its value is the text `true`. |
| PropertiesRoute.JsonCell | frontend/app/api/properties/route.ts:40 | `value || '[]'`: missing and empty text become `[]`, other text is passed on, and a file fails the insert (admitted under "## Left out"). `PostStoredRow` states that absent floor plans are stored as the empty list. |
| PropertiesRoute.PostRow | frontend/app/api/properties/route.ts:12-44 | The values POST inserts, column by column, without `image_urls`. `PostStoredRow`, `PostNeedsTitle` and `PropertiesTable.SuppliedValuesAreStored` state the stored row. |
| PropertiesRoute.PostStoredRow | frontend/app/api/properties/route.ts:12-45 | A stored POST row has the generated id and both timestamps equal to the request time. Each flag is true exactly when its form value is `true`. A given price, latitude or longitude is stored as the number `Number` reads from its text, signed and fractional values included; absent ones, like absent parking spaces, become 0. Absent floor plans become `[]`. `image_urls` is `[]`. An absent status is NULL. |
| PropertiesRoute.PostNeedsTitle | frontend/app/api/properties/route.ts:15-72 | A form without a title always makes the insert fail. |
| PropertiesRoute.UploadedUrls | frontend/app/api/properties/route.ts:47-56 | The URLs the upload loop collects, in entry order, skipping an upload that returns nothing or the empty text (`if (imageUrl)`). `UploadedUrlsAppend` and `UploadedUrlsExactly` state which URLs and in what order; `HandlePost`'s loop is proved to compute it. |
| PropertiesRoute.UploadedUrlsAppend | frontend/app/api/properties/route.ts:47-56 | URLs are collected in form-entry order. |
| PropertiesRoute.UploadedUrlsExactly | frontend/app/api/properties/route.ts:49-55 | A URL is collected exactly when it is not the empty text and some `image_` file entry's upload returned it. |
| PropertiesRoute.HandlePost | frontend/app/api/properties/route.ts:6-73 | A failed insert leaves the table unchanged and answers with the failure. Otherwise the row is appended and the response holds the row and the non-empty URLs the uploads returned, in entry order. |
| Ordering.LessIsStrictTotalOrder | frontend/app/listing/listing/page.tsx:123-129 | The `<` the comparator uses on column values is irreflexive, transitive and total. |
| Ordering.BeforeFacts | frontend/app/listing/listing/page.tsx:125-129 | The ascending and descending comparators are consistent orders. |
| Ordering.InsertMultiset | frontend/app/listing/listing/page.tsx:119-130 | Inserting into the sorted prefix adds exactly that one element. |
| Ordering.InsertOrdered | frontend/app/listing/listing/page.tsx:119-130 | Inserting into an ordered list keeps it ordered. |
| Ordering.SortByCorrect | frontend/app/listing/listing/page.tsx:119-130 | The sort is a permutation of its input, ordered by the comparator. |
| Ordering.Insert | frontend/app/listing/listing/page.tsx:119-130 | One step of the stable insertion sort. `InsertMultiset`, `InsertOrdered` and `InsertWithKey` state its effect. |
| Ordering.SortBy | frontend/app/listing/listing/page.tsx:119-130 | `[...rows].sort(comparator)` with the ascending or descending comparator of the page. `SortByCorrect` states permutation and order, `SortByStable` stability. |
| Ordering.SortByEqualKeys | frontend/app/listing/listing/page.tsx:120 | A comparator that always answers 0 leaves the order unchanged. |
| Ordering.InsertWithKey | frontend/app/listing/listing/page.tsx:119-130 | Inserting an element puts it before every element with its own key and moves no other element of that key. |
| Ordering.SortByStable | frontend/app/listing/listing/page.tsx:119-130 | The sort is stable: for any key, the elements with that key come out in their input order. |
| TableControls.SortData | frontend/app/listing/listing/page.tsx:106-109 | A click sorts by the clicked column. It sorts descending exactly when that column was already sorted ascending. |
| TableControls.SecondClickReverses | frontend/app/users/agents/page.tsx:96-99 | Clicking the same column twice reverses the direction. |
| TableControls.SortRows | frontend/app/listing/listing/page.tsx:119-130 | The sorted rows, on the listing page and on the agents page alike, are a permutation of their input, ascending or descending by the chosen column. They are unchanged when no column is chosen. |
| TableControls.CeilDiv | frontend/app/listing/listing/page.tsx:133 | `Math.ceil(n / k)` is the fewest pages of `k` rows that hold `n` rows. |
| TableControls.Slice | frontend/app/listing/listing/page.tsx:135 | `Array.prototype.slice` with ECMAScript's reading of negative and out-of-range bounds. `PageItemsWindow` states the window it cuts from page 1 on. |
| TableControls.PageItems | frontend/app/listing/listing/page.tsx:134-135 | The rows of the current page: the slice from the start index, `itemsPerPage` long. `PageItemsAtMost`, `PageItemsWindow` and `EveryRowOnAPage` state what it holds. |
| TableControls.TotalPages | frontend/app/listing/listing/page.tsx:133 | `Math.ceil(rows / itemsPerPage)`. `CeilDiv` characterises it as the fewest pages, and `EveryRowOnAPage` states that every row is on one of them. |
| TableControls.PageItemsAtMost | frontend/app/listing/listing/page.tsx:134-135 | A page never holds more than `itemsPerPage` rows. |
| TableControls.PageItemsWindow | frontend/app/listing/listing/page.tsx:134-135 | From page 1 on, a page is the rows from its start index, cut at the end of the list; past the end it is empty. |
| TableControls.EveryRowOnAPage | frontend/app/listing/listing/page.tsx:133-135 | Every row appears, at its own position, on one of pages `1 .. totalPages`. |
| TableControls.Previous | frontend/app/listing/listing/page.tsx:250 | Previous never goes below page 1 and never moves forward. |
| TableControls.Next | frontend/app/listing/listing/page.tsx:269 | Next never passes `totalPages` and moves at most one page. |
| TableControls.NavigateStaysInRange | frontend/app/listing/listing/page.tsx:250-270 | Starting from a page in `[1, totalPages]`, any sequence of Previous, Next and numbered-button clicks stays in that range. |
| TableControls.Navigate | frontend/app/listing/listing/page.tsx:250-270 | The current page after a run of Previous, Next and numbered-button clicks. `NavigateStaysInRange` states that it stays within 1 to `totalPages`. |
| TableControls.ShowingMatchesPage | frontend/app/listing/listing/page.tsx:244 | On an existing page, "Showing x to y" counts exactly the rows displayed, and at least one. |
| ListingPage.FilterProperties | frontend/app/listing/listing/page.tsx:112-116 | The filtered rows are exactly the rows matching both filters, with their multiplicity and in order. "all" on both filters keeps everything. |
| ListingPage.SortedRows | frontend/app/listing/listing/page.tsx:119-130 | `sortedProperties`: the filtered listings sorted by the chosen column. `TableControls.SortRows` states permutation and order. |
| ListingPage.VisibleRows | frontend/app/listing/listing/page.tsx:132-135 | `paginatedProperties`: the current page of `sortedProperties`. `VisibleRowsMatch` states its size and that every row passes both filters. |
| ListingPage.ClickColumn | frontend/app/listing/listing/page.tsx:106-109 | A header click: the sort toggle applied to the page state. `TableControls.SortData` and `SecondClickReverses` state the toggle. |
| ListingPage.SelectStatus | frontend/app/listing/listing/page.tsx:152 | The status selector sets the status filter. `FilterProperties` states the filter's effect. |
| ListingPage.SelectType | frontend/app/listing/listing/page.tsx:165 | The type selector sets the type filter. `FilterProperties` states the filter's effect. |
| ListingPage.ClickPrevious | frontend/app/listing/listing/page.tsx:250 | Previous: `Math.max(1, page - 1)`. `PreviousNextClamp` states the clamp. |
| ListingPage.ClickNext | frontend/app/listing/listing/page.tsx:269 | Next: `Math.min(totalPages, page + 1)`. `PreviousNextClamp` states the clamp, page 0 with no matching rows included. |
| ListingPage.VisibleRowsMatch | frontend/app/listing/listing/page.tsx:112-135 | A page shows at most `itemsPerPage` rows, each a listing that passes both filters. |
| ListingPage.PreviousNextClamp | frontend/app/listing/listing/page.tsx:250-269 | Previous never goes below 1, and Next never passes the page count. With no matching rows Next sets page 0. |
| AgentsPage.VisibleAgents | frontend/app/users/agents/page.tsx:134-136 | `paginatedAgents`: the current page of the sorted agents. `PageSizeShowsFirstRows` states what a fresh page shows; `TableControls.SortRows` states the sort. |
| AgentsPage.ClickColumn | frontend/app/users/agents/page.tsx:96-99 | A header click: the sort toggle applied to the page state. `IconAfterClick` states the icons it leads to. |
| AgentsPage.ClickPrevious | frontend/app/users/agents/page.tsx:228 | Previous: `Math.max(1, page - 1)`. `PreviousNextStayInRange` states it keeps the page in range. |
| AgentsPage.ClickNext | frontend/app/users/agents/page.tsx:247 | Next: `Math.min(totalPages, page + 1)`. `PreviousNextStayInRange` states it keeps the page in range. |
| AgentsPage.ChangePageSize | frontend/app/users/agents/page.tsx:148-152 | The entries selector sets the page size, returns to page 1 and keeps the sorting. |
| AgentsPage.PageSizeShowsFirstRows | frontend/app/users/agents/page.tsx:134-152 | After a page-size change the table shows the first `value` sorted agents. |
| AgentsPage.PreviousNextStayInRange | frontend/app/users/agents/page.tsx:228-247 | Previous and Next keep a page in `[1, totalPages]` inside that range. |
| AgentsPage.SortIcon | frontend/app/users/agents/page.tsx:114-131 | A header shows ChevronUp exactly when its column is sorted ascending, and ChevronDown exactly when it is sorted descending. Otherwise it shows ArrowUpDown. |
| AgentsPage.IconAfterClick | frontend/app/users/agents/page.tsx:96-131 | After a click only the clicked header shows a chevron. It points down exactly when it pointed up before. |
| AgentsPage.FirstLetters | frontend/app/users/agents/page.tsx:195 | Each initial is a character of one of the words, and there is at most one per word. |
| AgentsPage.Initials | frontend/app/users/agents/page.tsx:195 | Avatar initials never contain a space, and there is at most one letter per space-separated piece. |
| AgentsPage.FirstLettersOfWords | frontend/app/users/agents/page.tsx:195 | For non-empty words, the initials are exactly each word's first letter. |
| AgentsPage.InitialsOfWords | frontend/app/users/agents/page.tsx:195 | For a name of words joined by single spaces, the initials are the words' first letters. |
| AgentsPage.FirstLettersOfNonEmptyWords | frontend/app/users/agents/page.tsx:195 | For any words, the letters are exactly the first letters of the non-empty words, in order; an empty word adds nothing. |
| AgentsPage.InitialsExactly | frontend/app/users/agents/page.tsx:195 | For any name, double, leading and trailing spaces included, the initials are exactly the first letters of its non-empty space-separated pieces, in order. |
| Text.Lower | frontend/app/api/properties/route.ts:106 | `toLowerCase` on ASCII letters: same length, each upper-case letter lowered, nothing else changed. |
| Text.Trim | frontend/app/listing/create-new-listing/page.tsx:68 | `trim()`. `TrimProperties` states that exactly the surrounding white space goes, `TrimIdempotent` that a second trim changes nothing. |
| Text.Split | frontend/app/listing/create-new-listing/page.tsx:68 | `split(c)` on one character: one more piece than separators, none holding the separator. `JoinSplit` and `SplitJoin` state that it and `Join` undo each other. |
| Text.Join | frontend/app/listing/create-new-listing/page.tsx:68 | `join(sep)`. `JoinSplit` and `SplitJoin` state that it and `Split` undo each other. |
| Text.TrimProperties | frontend/components/components/PropertyFormFields.tsx:501 | `trim` leaves no white space at either end and keeps only characters of its input. |
| Text.TrimIdempotent | frontend/app/listing/create-new-listing/page.tsx:68 | Trimming twice is trimming once. |
| Text.JoinSplit | frontend/components/components/PropertyFormFields.tsx:500-501 | Splitting on a separator and joining with it gives the text back. |
| Text.SplitJoin | frontend/app/users/agents/page.tsx:195 | Joining separator-free pieces and splitting gives the pieces back. |
| CategoryForm.DashRuns | frontend/app/listing/create-listing-category/page.tsx:50 | `replace(/\s+/g, '-')`: each run of white space becomes one hyphen. `DashRunsWithoutWhitespace` and `SlugOfTwoWords` state its effect. |
| CategoryForm.KeepSlugChars | frontend/app/listing/create-listing-category/page.tsx:50 | `replace(/[^a-z0-9-]/g, '')`: only slug characters are kept, in order. `SlugifyUsesSlugChars` and `PunctuationGivesEmptySlug` state its effect. |
| CategoryForm.Slugify | frontend/app/listing/create-listing-category/page.tsx:50 | The slug of a name: lower-cased, white-space runs as hyphens, other characters dropped. `SlugifyUsesSlugChars`, `SlugifyIdempotent` and `SlugOfTwoWords` state its properties. |
| CategoryForm.SlugifyUsesSlugChars | frontend/app/listing/create-listing-category/page.tsx:50 | Every generated slug uses only `[a-z0-9-]`. |
| CategoryForm.DashRunsWithoutWhitespace | frontend/app/listing/create-listing-category/page.tsx:50 | Text without white space is unchanged by the white-space replacement. |
| CategoryForm.SlugifyIdempotent | frontend/app/listing/create-listing-category/page.tsx:50 | Slugifying a slug changes nothing. |
| CategoryForm.SlugOfTwoWords | frontend/app/listing/create-listing-category/page.tsx:50 | A run of spaces becomes one hyphen: `to  let` gives `to-let`. |
| CategoryForm.PunctuationGivesEmptySlug | frontend/app/listing/create-listing-category/page.tsx:50 | A name of punctuation gives the empty slug. |
| CategoryForm.Issues | frontend/app/listing/create-listing-category/page.tsx:14-27 | Each issue is reported exactly when its rule fails: name shorter than 2, description shorter than 10, slug shorter than 2, slug not matching `^[a-z0-9-]+$`. |
| CategoryForm.SafeParse | frontend/app/listing/create-listing-category/page.tsx:14-31 | Parsing succeeds, unchanged, exactly when all four rules hold. Otherwise it fails with the non-empty issue list. |
| CategoryForm.PunctuationSlugIsRejected | frontend/app/listing/create-listing-category/page.tsx:21-50 | The slug of `!` fails both slug checks. |
| CategoryForm.OnNameChange | frontend/app/listing/create-listing-category/page.tsx:48-52 | A name edit sets the name and the slug derived from it; nothing else changes. |
| CategoryForm.NameChangeSlugHasSlugChars | frontend/app/listing/create-listing-category/page.tsx:21-52 | After a name edit the slug fails the pattern only when it is empty, and so only alongside the length check. |
| Validation.Failing | frontend/app/listing/create-new-listing/page.tsx:14-43 | The reported fields are exactly the schema's fields whose rule fails, kept in schema order: the result is a subsequence of the schema order. |
| Validation.FailingCounts | frontend/app/listing/create-new-listing/page.tsx:14-43 | A failing field is reported as often as the schema lists it, a passing one never. |
| NewListingForm.Position | frontend/app/listing/create-new-listing/page.tsx:14-43 | Every field the schema checks occurs in the schema order. |
| NewListingForm.AllRulesHoldIsValid | frontend/app/listing/create-new-listing/page.tsx:14-43 | The rules spelt out field by field imply validity. |
| NewListingForm.Issues | frontend/app/listing/create-new-listing/page.tsx:14-43 | A field is reported exactly when its rule fails. |
| NewListingForm.SafeParse | frontend/app/listing/create-new-listing/page.tsx:14-53 | Parsing succeeds exactly when every rule holds, with the defaults filled in. Otherwise it fails with the non-empty issue list. |
| NewListingForm.ParsedValuesAreComplete | frontend/app/listing/create-new-listing/page.tsx:24-38 | Parsed values have a status, heating and cooling type from their enums and all four flags, and parse again to themselves. |
| NewListingForm.DefaultsFailIdentity | frontend/app/listing/create-new-listing/page.tsx:15-62 | The defaults fail title, price, property type, bedrooms and bathrooms. |
| NewListingForm.DefaultsFailDwelling | frontend/app/listing/create-new-listing/page.tsx:21-62 | Of square feet, lot size, year built, status and address, the defaults fail only the address. |
| NewListingForm.DefaultsFailPlace | frontend/app/listing/create-new-listing/page.tsx:26-62 | The defaults fail city, state, postal code and country, and not the absent latitude. |
| NewListingForm.DefaultsFailRest | frontend/app/listing/create-new-listing/page.tsx:31-62 | Of longitude, parking spaces, heating type, cooling type and agent id, the defaults fail only the agent id. |
| NewListingForm.DefaultValuesIssues | frontend/app/listing/create-new-listing/page.tsx:14-62 | `safeParse` of the `defaultValues` object as written fails on exactly the eleven required fields, in schema order. |
| NewListingForm.Entries | frontend/app/listing/create-new-listing/page.tsx:68 | The pieces of a comma-separated list, trimmed, with empty ones dropped. `EntriesAreClean` and `NormalizeListKeepsEntries` state what they are. |
| NewListingForm.NormalizeList | frontend/app/listing/create-new-listing/page.tsx:68 | The list joined back with commas. `NormalizeListKeepsEntries` states that it keeps exactly the entries, `NormalizeListIdempotent` that a second pass changes nothing. |
| NewListingForm.NormalizeField | frontend/app/listing/create-new-listing/page.tsx:67-72 | Only a present, non-empty value is normalised. `NormalizeFieldIdempotent` states that a second pass changes nothing. |
| NewListingForm.EntriesAreClean | frontend/app/listing/create-new-listing/page.tsx:68-71 | Every entry of a normalised list is non-empty, trimmed and comma-free. |
| NewListingForm.NormalizeListKeepsEntries | frontend/app/listing/create-new-listing/page.tsx:68-71 | A normalised list holds exactly the original entries, in order. |
| NewListingForm.NormalizeListIdempotent | frontend/app/listing/create-new-listing/page.tsx:68-71 | Normalising twice is normalising once. |
| NewListingForm.NormalizeFieldIdempotent | frontend/app/listing/create-new-listing/page.tsx:67-72 | Normalising an optional field twice is normalising it once. |
| NewListingForm.ListingForm.constructor | frontend/app/listing/create-new-listing/page.tsx:65 | The submit handler holds the values a successful `safeParse` returned, and they are valid. |
| NewListingForm.ListingForm.OnSubmit | frontend/app/listing/create-new-listing/page.tsx:65-75 | `onSubmit` rewrites the image and floor-plan lists in their normal form; every other field is left as it was. |
| PropertySchema.Position | frontend/components/components/schemas/propertySchema.ts:3-32 | Every field the schema checks occurs in the schema order. |
| PropertySchema.Issues | frontend/components/components/schemas/propertySchema.ts:3-32 | A field is reported exactly when its rule fails. |
| PropertySchema.SafeParse | frontend/components/components/schemas/propertySchema.ts:3-32 | Parsing succeeds exactly when every rule holds, with defaults filled in; otherwise it fails with the non-empty issue list. |
| PropertySchema.ParsedValuesAreComplete | frontend/components/components/schemas/propertySchema.ts:13-27 | Parsed values have a status, heating and cooling type from their enums and all four flags, and parse again to themselves. |
| PropertySchema.ValidRules | frontend/components/components/schemas/propertySchema.ts:3-32 | Validity implies each field's rule. |
| PropertySchema.StrictIsStricter | frontend/components/components/schemas/propertySchema.ts:3-32 | Whatever the shared schema accepts, the create-listing form's schema accepts too. |
| PropertySchema.FractionalBedroomsRejected | frontend/components/components/schemas/propertySchema.ts:8 | A bedroom count of 2.5 is rejected, and the bedrooms are reported. |
| PropertySchema.EmptyDescriptionAndZeroPrice | frontend/components/components/schemas/propertySchema.ts:5-6 | An empty description and a price of 0 are accepted. |
| FloorPlansField.Display | frontend/components/components/PropertyFormFields.tsx:500 | The list shown joined with `, `, and an absent list as the empty text. `NothingShowsEmpty` and `ParseDisplay` state its properties. |
| FloorPlansField.Parse | frontend/components/components/PropertyFormFields.tsx:501 | Typed text read back as one trimmed entry per comma-separated piece, and the empty text as []. `ParsePieces` and `ParseDisplay` state its properties. |
| FloorPlansField.ParsePieces | frontend/components/components/PropertyFormFields.tsx:501 | Empty text reads as no plans. Otherwise there is one trimmed, comma-free entry per comma-separated piece, empty pieces included. |
| FloorPlansField.EmptyPieceKept | frontend/components/components/PropertyFormFields.tsx:501 | `a,,b` reads as three entries, the middle one empty. |
| FloorPlansField.LeadingSpacePieces | frontend/components/components/PropertyFormFields.tsx:501 | A leading space does not change the trimmed pieces. |
| FloorPlansField.SplitDisplayed | frontend/components/components/PropertyFormFields.tsx:500-501 | Splitting the shown text of comma-free entries gives them back up to surrounding spaces. |
| FloorPlansField.ParseDisplay | frontend/components/components/PropertyFormFields.tsx:500-501 | Showing non-empty, trimmed, comma-free URLs and reading the text back gives the list. |
| FloorPlansField.NothingShowsEmpty | frontend/components/components/PropertyFormFields.tsx:500-501 | An absent or empty list shows as empty text, which reads back as the empty list. |
| PropertyListingForm.Position | app/new-property-listing/page.tsx:70-128 | Every field the schema checks occurs in the schema order. |
| PropertyListingForm.Issues | app/new-property-listing/page.tsx:70-128 | A field is reported exactly when its rule fails. |
| PropertyListingForm.Validate | app/new-property-listing/page.tsx:70-132 | Validation succeeds, unchanged, exactly when every rule holds. Otherwise it fails with the non-empty issue list. |
| PropertyListingForm.AgentDetailsOptional | app/new-property-listing/page.tsx:115-122 | Dropping the agent details, or leaving them all unset, keeps a valid form valid. |
| PropertyListingForm.ZeroPriceRejected | app/new-property-listing/page.tsx:75 | A price of 0 is rejected, and the price is reported. |
| PropertyListingForm.DefaultsFailListing | app/new-property-listing/page.tsx:71-139 | Of the listing fields, the defaults fail title, description and price. |
| PropertyListingForm.DefaultsFailPlace | app/new-property-listing/page.tsx:77-148 | The defaults fail every location field, and not the bedroom count of 0. |
| PropertyListingForm.DefaultsFailBuilding | app/new-property-listing/page.tsx:86-173 | Of bathrooms, square feet, year built, images, virtual tour and owner id, the defaults fail only the owner id. |
| PropertyListingForm.DefaultsFailOwner | app/new-property-listing/page.tsx:109-177 | The defaults fail owner name, contact number and email. |
| PropertyListingForm.DefaultsPassClosing | app/new-property-listing/page.tsx:115-190 | The defaults pass the agent email, listing date and listing status. |
| PropertyListingForm.DefaultsFailPeople | app/new-property-listing/page.tsx:109-190 | Of the owner, agent and listing-detail fields, the defaults fail exactly the three owner fields. |
| PropertyListingForm.DefaultValuesIssues | app/new-property-listing/page.tsx:70-191 | Validating the `defaultValues` object as written fails on exactly title, description, price, the five location fields and the four owner fields, in schema order. |
| RealtorAgentForm.Position | app/new-realtor-agents/page.tsx:17-24 | Every field the schema checks occurs in the schema order. |
| RealtorAgentForm.Issues | app/new-realtor-agents/page.tsx:17-24 | A field is reported exactly when its rule fails. |
| RealtorAgentForm.Validate | app/new-realtor-agents/page.tsx:17-24 | Validation succeeds, unchanged, exactly when every rule holds. Otherwise it fails with the non-empty issue list. |
| RealtorAgentForm.ContactNumberIsTenLong | app/new-realtor-agents/page.tsx:20 | The contact number passes exactly when it is ten characters long. |
| RealtorAgentForm.EmailNeedsAnAddress | app/new-realtor-agents/page.tsx:21 | The email passes exactly when it is present, non-empty and an address. |
| RealtorAgentForm.UntouchedFormFailsEverywhere | app/new-realtor-agents/page.tsx:17-24 | A form left untouched fails on every field. |
| UserForm.Position | frontend/app/users/page.tsx:11-16 | Every field the schema checks occurs in the schema order. |
| UserForm.Issues | frontend/app/users/page.tsx:11-16 | A field is reported exactly when its rule fails. |
| UserForm.SafeParse | frontend/app/users/page.tsx:11-16 | Parsing succeeds exactly when every rule holds, with the role defaulted to USER. Otherwise it fails with the non-empty issue list. |
| UserForm.ParsedUserHasRole | frontend/app/users/page.tsx:15 | A parsed user has a role, USER or AGENT, and parses again to itself. |
| UserForm.DefaultValuesIssues | frontend/app/users/page.tsx:11-27 | `safeParse` of the `defaultValues` object as written fails on the name, the email and the password, and not on the role. |

## Left out

- Network, database connection and response serialisation.
  - The database is a sequence of rows.
  - A handler's response is a datatype.
  - HTTP status codes are the `Found`/`SearchFailed` and `Created`/`PostFailed` variants.
- JSON parsing, file upload (`uploadImageToFileSystem`), the clock, `uuidv4` and the email, URL and UUID patterns of Zod and Yup are function parameters.
  - Their own behaviour is not modelled.
- File naming during upload is not modelled; the property id passed to the upload is ignored.
- Numbers are exact: integer columns hold integers and decimal columns hold reals on the server side, and the forms hold exact reals.
  - Floating point and `Infinity` are not modelled.
  - The migration's decimal bounds become a number of integer digits; rounding to the column's scale (two digits for the price, eight for the coordinates) is not modelled.
- PropertiesRoute.NumberOf reads the decimal forms of `Number` (optional sign, digits, optional fraction, blank text as 0). Exponent, hexadecimal, binary, octal and `Infinity` texts, which `Number` also reads, are treated as unreadable.
- PropertiesTable.InsertRow: a `json` column accepts only text that `parseJson` decodes to a list of strings. PostgreSQL's `json` type stores any valid JSON, so for a `floorPlans` of `{}`, `5`, `[1,2]` or `"a.png"` the source stores the text and answers 201, where the model fails the insert with `InvalidValue` and `HandlePost` answers `PostFailed`. Reading such a value back (an object or a number where the page expects a list of URLs) is outside the model as well.
- PropertiesRoute.TextCell: a file sent under a text key (`title`, `status`, `videoUrl`, …) makes the cell fail to convert, so the insert fails. In the source, `formData.get` hands the `File` to the database driver, which serialises a plain object as its JSON text; the code in this repository does not show that step, so the model does not claim it.
- PropertiesRoute.JsonCell: the same holds for a file under `floorPlans`, which `|| '[]'` passes on because a file is truthy.
- HandlePost: where a numeric field's text is unreadable, the model fails the insert. For an integer column this matches PostgreSQL, which rejects `NaN`. A decimal column stores `NaN`, so there the source answers 201 where the model answers `PostFailed`; so it does for the exponent and hexadecimal forms above.
- PropertiesRoute.ReadQuery: `minPrice` and `maxPrice` may be any text `NumberOf` reads, signed and fractional ones included. `page` and `count` must be whole numbers, and `count` at least 1 (`WellFormedParams`).
  - A fractional page or count, `count` of 0 (which divides by zero) and `NaN` from unreadable text are outside the model.
  - A page below 1, which makes the offset negative and the query fail, is modelled (`SearchFailed`).
- PropertiesRoute.ResultRowsNewestFirst: rows with equal `created_at` are kept in table order.
  - PostgreSQL does not fix their order, so the model picks one of the orders the database may return.
- `varchar(255)` length limits and PostgreSQL returning numeric columns as strings are not modelled.
- A `LIKE` pattern ending in a lone backslash is an error in PostgreSQL; `SqlLike.Like` treats it as matching nothing.
- `toLowerCase` is modelled on ASCII letters only.
- Validation messages (texts of Zod and Yup errors) are not modelled; issues are the names of failing fields.
- PropertySchema: `imageFiles` (`z.instanceof(File)`) is not modelled, since files are outside the model.
- PropertySchema.AsListingInput does not carry floor plans over, because the two schemas type them differently (a list and a text).
- PropertyListingForm: the nested `location`, `features`, `owner_details` and `listing_details` objects are always present, as the form always supplies them.
  - Fields without rules (`furnished` and the other feature flags, `videos`, `utilities`, `nearby_amenities`, `expiry_date`) are left out.
- React rendering, state hooks and event wiring become pure state-transition functions (`ClickColumn`, `ClickNext`, `OnNameChange`, …), except the create-listing submit handler, which is a class method.
- The dummy data lists and the console logging of the pages are not modelled.
- ListingPage: a listing's `price`, `bedrooms`, `bathrooms` and `area` are integers, where the page types them `number`. The page's own data holds whole numbers only, and the sort only compares values, so the rows shown and their order are the same.
- AgentsPage: an agent's `rating` is held in tenths (`ratingTenths`, 4.8 as 48), so ratings with more than one decimal digit are not modelled.
- Text lengths count Unicode characters. JavaScript's `.length`, `n[0]`, the `min`/`max` length rules of Zod and Yup and string `<` work on UTF-16 code units, so for text outside the Basic Multilingual Plane (emoji, for instance) the length rules (title, description, password, contact number, category name), the avatar initial and the sort order of the model differ from the source.
- NewListingForm.DefaultValuesIssues is about the `defaultValues` object as written. On the page, a number input registered with `valueAsNumber` and left empty hands over `NaN`, which `z.number().optional()` rejects, so a submission of the untouched form also reports those number fields.

