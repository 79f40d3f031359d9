# Cart summaries: a verified model of `transform_cart_data`

This project models the transformation step of the fake-store ETL pipeline,
`transform_cart_data` in `dags/utils/transform.py`. The step reads carts in input
order. Each cart has a `userId`, a `date` string and a list of products. It builds
one summary row per user:

- `user_id`;
- `latest_cart_date`, the latest date among that user's carts;
- `top_category`, the product category counted most often for that user.

Ties in `top_category` go to the category that was counted first. When nothing
was counted, `top_category` is `None`.

Files:

- `wrappers.dfy` (`Wrappers`): `Option` and `Result`.
- `sequences.dfy` (`Sequences`): `Distinct` (first occurrences in order), which is
  how the insertion order of a Python `dict` is stated, and `IndexOf` (position of
  the first occurrence), with lemmas relating the two.
- `cart_spec.dfy` (`CartSpec`): the specification.
  - Records, parsed carts, per-user state and rows.
  - The record fold as functions: `Refresh`, `CountCategory`/`CountAll`, `ObserveCart`, `States`.
  - The read-out: `FirstMaxIndex`, `TopCategory`, `Summarize`, `Rows`, `Summaries`.
  - Date parsing: `ParseAll`, `Transform`.
  - Independent reference definitions: `StateOf` (a user's state from the maximum of
    their dates and the stream of their resolved categories), `CountsOf` (the tally
    of a category stream: each category with its number of occurrences),
    `Occurrences`, and `IsFirstMax`.
- `cart_properties.dfy` (`CartProperties`): lemmas connecting the fold with the
  reference definitions, and the properties of the output rows.
- `transform.dfy` (`Transform`): the imperative code.
  - Class `UserData` is the `user_data` dictionary. It holds a map of entries and
    the insertion order of its keys as a sequence. Each entry keeps its categories
    in first-counted order beside their counts.
  - `UserData.Observe` is the body of the record loop. `UserData.CountProducts` is
    the product loop. `UserData.Finalize` is the row loop.
  - `TransformCartData` is the whole function. Each method is proved equal to its
    specification function.

Two external calls become parameters:

- `parse: string -> Option<Timestamp>` stands for
  `datetime.strptime(date, '%Y-%m-%dT%H:%M:%S.%fZ')`. `None` stands for the
  `ValueError` that aborts the run. Timestamps are `nat`, ordered as the parsed
  datetimes are.
- `lookup: ProductId -> Option<Category>` stands for `get_product_category`. Its
  mapping of request errors to `None` is already included.

Python's `if category:` is `Truthy`: a present, non-empty string.

## Model

| member | source | states |
|---|---|---|
| Transform.UserData.constructor | dags/utils/transform.py:22 | `user_data` starts empty: no users, no entries, nothing seen |
| Transform.UserData.Observe | dags/utils/transform.py:24-45 | processing one parsed record keeps the dictionary equal to the fold over all records seen so far, keys in first-seen order |
| Transform.UserData.CountProducts | dags/utils/transform.py:38-45 | the product loop leaves the entry equal to counting, in order, every product whose lookup is truthy |
| Transform.UserData.Finalize | dags/utils/transform.py:48-59 | the row loop yields exactly the rows of the specification: one per entry, in insertion order |
| Transform.TransformCartData | dags/utils/transform.py:14-63 | the whole function returns the rows of `Transform`, or the error for the first record whose date does not parse |
| CartSpec.ParseAll | dags/utils/transform.py:24-27 | parsing succeeds exactly when every date parses, and then gives each record's cart in order; on failure the error names the first bad record |
| CartSpec.Transform | dags/utils/transform.py:14-63 | the run fails exactly when some date does not parse; a failure points at a record whose date does not parse |
| CartSpec.ObserveCart | dags/utils/transform.py:29-45 | one record adds its user to the keys and leaves every other user's entry unchanged |
| CartSpec.States | dags/utils/transform.py:22-45 | the dictionary after the record loop has exactly the users that occur in the input as keys |
| CartSpec.UserIds | dags/utils/transform.py:24-25 | the user of each record, in input order |
| CartSpec.Dates | dags/utils/transform.py:29-36 | a user's dates are nonempty exactly when the user occurs, and are exactly the dates of that user's records |
| CartSpec.MaxOf | dags/utils/transform.py:34-36 | the running maximum is one of the dates and no date exceeds it |
| CartSpec.StateOf | dags/utils/transform.py:29-45 | the reference state of a user is well formed: keys in order without repeats, every count at least 1 |
| CartSpec.CountAllWellFormed | dags/utils/transform.py:42-45 | counting categories keeps an entry well formed |
| CartSpec.CountAllKeepsDate | dags/utils/transform.py:38-45 | counting products never changes the entry's `latest_cart_date` |
| CartSpec.StatesWellFormed | dags/utils/transform.py:29-45 | every entry of the dictionary is well formed |
| CartSpec.FirstMaxIndex | dags/utils/transform.py:52 | the chosen key is one of the keys |
| CartSpec.Truthy | dags/utils/transform.py:41 | `if category:`; pinned down by `ResolvedTruthy` (an empty category is never counted) and `LookupFailuresIgnored` (every falsy answer acts as `None`) |
| CartSpec.Resolved | dags/utils/transform.py:38-41 | the categories one cart contributes, in product order; pinned down by `ResolvedSnoc` (one more product adds its category exactly when truthy), `ResolvedTruthy` and `StreamCount` |
| CartSpec.Users | dags/utils/transform.py:29-33 | the keys of `user_data` in insertion order; pinned down by `UsersSnoc` (a record appends its user only when new), `OneRowPerUser` and `RowsFollowFirstSeenOrder` |
| CartSpec.Refresh | dags/utils/transform.py:29-36 | a new user's entry, or the known entry with the date moved forward only when strictly later; pinned down by `NewEntryMatches`, `KnownEntryMatches` and `LatestCartDateIsMax` |
| CartSpec.CountCategory | dags/utils/transform.py:42-45 | one increment, or a new key at 1 appended to the key order; pinned down by `CountCategoryCounts` and `CountCategoryKeys` |
| CartSpec.CountAll | dags/utils/transform.py:38-45 | counting a stream of categories in order; pinned down by `CountAllCounts` (occurrence counts), `CountAllKeys` (first-counted order), `CountAllWellFormed` and `CountAllKeepsDate` |
| CartSpec.TopCategory | dags/utils/transform.py:51-54 | `max(categories, key=categories.get)` or `None`; pinned down by `TopOfStream`, `TopCategoryNoneIff` and `TopCategoryIsFirstMax` |
| CartSpec.Summarize | dags/utils/transform.py:55-59 | the row of one entry: its user, date and top category; pinned down by `RowsSummarizeStates` |
| CartSpec.Rows | dags/utils/transform.py:49-59 | one row per entry, in the given order, each summarising its entry |
| CartSpec.Summaries | dags/utils/transform.py:48-59 | there is one row per distinct user, the k-th for the k-th user first seen |
| CartProperties.CountAllCounts | dags/utils/transform.py:42-45 | the incremental counts equal the occurrence counts of the whole category stream |
| CartProperties.CountAllKeys | dags/utils/transform.py:42-45 | the incremental key order equals the first occurrences of the category stream |
| CartProperties.NewEntryMatches | dags/utils/transform.py:29-33 | a first record for a user creates the user's reference state |
| CartProperties.KnownEntryMatches | dags/utils/transform.py:34-45 | a later record for a user moves from the reference state before it to the reference state after it |
| CartProperties.ObservedUserState | dags/utils/transform.py:29-45 | the state of a record's user after the record: new entry, or the later date and the extended category stream |
| CartProperties.OtherUsersUnchanged | dags/utils/transform.py:29-45 | a record for one user leaves every other user's state unchanged |
| CartProperties.StatesMatchReference | dags/utils/transform.py:22-45 | after the record loop, each user's entry is that user's reference state: maximum date, categories in first-counted order, occurrence counts |
| CartProperties.OneRowPerUser | dags/utils/transform.py:49-59 | a user has a row exactly when the user occurs in the input, and no two rows share a user |
| CartProperties.RowsFollowFirstSeenOrder | dags/utils/transform.py:49-59 | rows appear in the order in which their users first occur in the input |
| CartProperties.RowsSummarizeStates | dags/utils/transform.py:49-59 | every row summarises its user's reference state |
| CartProperties.LatestCartDateIsMax | dags/utils/transform.py:29-36 | `latest_cart_date` is the date of one of the user's records and no record of the user is later |
| CartProperties.ResolvedTruthy | dags/utils/transform.py:41 | an empty category is never counted |
| CartProperties.StreamCount | dags/utils/transform.py:38-45 | a category occurs in a user's stream as often as that user's products resolve to it |
| CartProperties.CountsAreOccurrences | dags/utils/transform.py:38-45 | a user has a count for category c exactly when c is non-empty and some product resolves to it, and the count is that number of products |
| CartProperties.StreamPrefix | dags/utils/transform.py:38-45 | a user's stream over a prefix of the input is a prefix of the stream over the whole |
| CartProperties.CountsOnlyIncrease | dags/utils/transform.py:42-45 | a counted category stays counted, and its count never decreases as records are added |
| CartProperties.ParseStopsAtFirstFailure | dags/utils/transform.py:24-26 | the first record whose date does not parse decides the error, whatever follows |
| CartProperties.NoRowsIffNoRecords | dags/utils/transform.py:22-63 | a run that does not abort yields no rows exactly when it is given no records |
| CartProperties.LookupFailuresIgnored | dags/utils/transform.py:38-45 | replacing every falsy lookup answer by `None` changes nothing: failed or empty lookups are skipped |
| CartProperties.StreamEmpty | dags/utils/transform.py:38-45 | a user's stream is empty exactly when none of the user's products has a truthy category |
| CartProperties.FirstMaxIndexIsFirstMax | dags/utils/transform.py:52 | the chosen key has a count at least every key's count, and strictly more than every key before it |
| CartProperties.TopOfStream | dags/utils/transform.py:51-54 | over a tally built from a stream, `top_category` is `None` exactly for the empty stream, and is otherwise its most frequent category, first counted among equals |
| CartProperties.TopCategoryNoneIff | dags/utils/transform.py:51-54 | `top_category` is `None` exactly when no product of the user has a truthy category |
| CartProperties.FirstMaxUnique | dags/utils/transform.py:52 | at most one category of a stream is its first maximum, so the tie-break rule decides a single category |
| CartProperties.TopCategoryIsFirstMax | dags/utils/transform.py:52 | `top_category` has the largest count of the user's categories, ties go to the category counted first, and it is the only category with that property |
| Sequences.Distinct | dags/utils/transform.py:29-33 | insertion order: the same elements without repeats, no longer than the input |
| Sequences.DistinctOrder | dags/utils/transform.py:49 | in insertion order, x comes before y exactly when x first occurs before y |
| Sequences.DistinctFollowsFirstOccurrence | dags/utils/transform.py:49 | the keys in insertion order are ordered by their first occurrence |

## Left out

- The HTTP mechanics of `get_product_category` (session, environment URL, JSON decoding, logging) are replaced by the `lookup` parameter. With current `requests` versions a JSON decoding error is a `RequestException` and becomes `None`, which `lookup` covers. A response body that decodes to something other than an object (`null`, a list) makes `product.get` raise an uncaught `AttributeError` that aborts the run; that abort is not modelled.
- A category that is not a string (any JSON value the API returns) is not modelled. Categories are strings, and truthiness is "present and non-empty".
- `strptime` calendar validation and microseconds are replaced by the `parse` parameter into `nat`. The `ValueError` it raises becomes a `Failure` naming the record.
- pandas `iterrows` and the output `DataFrame` are replaced by a sequence of records in and a sequence of rows out. A missing `userId`, `date`, `products` or `productId` field (a `KeyError`) is not modelled.
- A product's `quantity` is ignored, as in the code: each product occurrence counts once.
- The code does not memoise lookups. It calls `get_product_category` once per product occurrence, and the model does the same. Because `lookup` is a fixed function, a cache would not change any result.
- `UserData.Observe` builds the updated entry in a local value and writes it back once after the product loop. The code updates the nested dictionary in place. The two are indistinguishable because no one else holds the entry.
- Logging, the Airflow DAG (`dags/fake_store_etl.py`), extraction (`dags/utils/extract.py`) and loading (`dags/utils/load.py`) are not part of this model.
- User and product ids are unbounded integers. In the pipeline they arrive as pandas `int64` values. The code only compares ids for equality and passes them on, so their representation does not matter.
