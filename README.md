# Lesson booking cart — a Dafny model

The app is a single-page Vue application (`app.js`). It lists after-school
lessons: subject, location, price, remaining spaces. It lets a customer search
and sort them, put them in a cart, and place an order with a name and a phone
number. This project models the app's state and the operations that change it.

- **Lessons are objects.** `Lessons.Lesson` is a class whose only mutable field
  is `spaces`.
  - `lessons` (everything loaded) and `searchResults` (what the search shows)
    are sequences of these objects.
  - The front-end search filter returns the very objects held in `lessons`.
  - A search answered by the backend returns new objects.
  - `addToCart` takes a space off whichever object it is handed. That object
    may be one of `searchResults`.
- **Cart lines are values.** A `CartLine` is a copy of the lesson's fields, taken
  when it was added, plus its own line id (`cartId`). There is no quantity field:
  adding the same lesson twice gives two lines, and removing a line gives back
  one space.
- **The app's state** is the class `AppState.App`. Its methods are
  `addToCart`, `removeFromCart`, `submitOrder`, `validateForm`,
  `toggleSortOrder`, and the local effects of `fetchLessons` and
  `handleSearch`. Its computed values `cartTotal`, `isCheckoutValid` and
  `sortedLessons` are functions.
- **Network results are arguments.**
  - A GET's outcome is `Option<seq<LessonData>>`, where `None` means `fetch`
    threw.
  - The order POST's outcome is `OrderResponse`: accepted, refused or a network
    error.
  - The line id (`Date.now() + Math.random()`) and the order timestamp
    (`new Date().toISOString()`) are passed in as well.

The invariant at the centre is conservation. For a lesson held in `lessons`,
its `spaces` plus the number of cart lines carrying its id is called `Held`.
Adding a stored lesson and removing any line both keep `Held` unchanged, as long
as lesson ids are unique. The model also states where conservation breaks.
Booking a lesson object that is not the stored one leaves the stored lesson's
spaces alone. It still adds a line with that lesson's id. So the stored lesson's
`Held` goes up by one (`AddToCart`, `DetachedCopyScenario`).

Some things the code does not do:
- The cart has no quantity field, so each add is its own line, and a remove
  gives back one space.
- The order payload has no quantity.
- Nothing stops a second submission while one is in flight.
- A successful order does not reload the lessons.

The two "first position with this id, or -1" searches stay separate.
`Lessons.LessonIndex` looks at lesson objects, so it reads the heap.
`Cart.LineIndex` looks at cart-line values. Merging them would take a search
generic over a heap-reading predicate, which costs more than it saves.

## Model

| member | source | states |
|---|---|---|
| AppState.App.constructor | app.js:4-24 | The initial state: no lessons, an empty cart, no query or results, sorted by subject ascending, empty form and errors, no order submitted, loading. |
| AppState.App.AddToCart | app.js:121-130 | With spaces left: exactly one line is appended, holding the lesson's fields as they were before the decrement plus the given line id. That lesson object loses exactly one space. Otherwise nothing changes. Spaces never go below 0. The total rises by the price. `Held` is conserved for every stored lesson when the object is in `lessons` and ids are unique. Another stored object with the same id gains one in `Held`. Unique line ids stay unique given a fresh id. |
| AppState.App.RemoveFromCart | app.js:133-144 | An absent line id changes nothing. Otherwise the first line with that id is spliced out and the others keep their order. Exactly the first stored lesson with the line's lesson id, if there is one, gains one space, and no other lesson changes. The line is removed even when no lesson matches. The total drops by the removed line's price. `Held` is conserved under unique ids. With unique line ids, the id is gone afterwards, so a second removal is a no-op. |
| AppState.App.SubmitOrder | app.js:162-200 | When checkout is not valid, nothing is sent and nothing changes. Otherwise the order sent is `BuildOrder` of the form and cart. Only an accepted response clears the cart, resets the form to empty strings and sets `orderSubmitted`. A refused or failed request leaves everything as it was. |
| AppState.App.ValidateForm | app.js:213-216 | Each error is '' exactly when that field's pattern matches, and is otherwise the fixed message. |
| AppState.App.ToggleSortOrder | app.js:208-210 | The sort order flips and always differs from the old one. |
| AppState.App.FetchLessons | app.js:64-80 | The lessons become fresh objects holding, in order, the normalised fetched records, or the demo lessons when the request threw. Loading is over either way. |
| AppState.App.HandleSearch | app.js:99-118 | A blank query empties the results, and then a non-empty blank query shows an empty sorted list. Otherwise a backend answer becomes fresh objects, in order and not normalised. A failed request yields the front-end filter over the stored objects. |
| AppState.App.CartTotal | app.js:50-52 | `cartTotal`: the fold of line prices, 0 for an empty cart. `CartTotalIsListedPrices` ties it to the order's listed prices. |
| AppState.CartTotalIsListedPrices | app.js:50-52 | `cartTotal` equals the sum of the prices listed in an order built from the cart, a sum defined independently over the payload. |
| AppState.App.IsCheckoutValid | app.js:55-59 | Valid exactly when `validateForm` would show no error for either field and the cart is not empty. |
| AppState.App.SortedLessons | app.js:28-47 | The result is a permutation of `searchResults` when the query is non-empty, and of `lessons` otherwise. |
| AppState.Materialize | app.js:68-69 | One fresh object per record, in order, each holding exactly that record. |
| AppState.DemoBookingScenario | app.js:121-144 | With the demo data, booking Piano twice gives two lines and 3 spaces. Removing the first line gives one line, 4 spaces and a total of 50. |
| AppState.DetachedCopyScenario | app.js:121-130 | Booking a copy of a stored lesson leaves the stored lesson at 5 spaces and raises its `Held` by one. |
| Lessons.Lesson.constructor | app.js:68-72 | A lesson object built from a record holds exactly that record (`Snapshot`). |
| Lessons.Lesson.Snapshot | app.js:123-126 | The object's fields as a value: what `{...lesson}` copies into a cart line. |
| Lessons.NormalizeId | app.js:69-72 | A record with an `_id` gets that as its `id`. Without one the record is unchanged. No field other than `id` changes. |
| Lessons.Normalize | app.js:69-72 | Same length and order, and each record is normalised on its own. |
| Lessons.NormalizeIdempotent | app.js:69-72 | Normalising twice is normalising once. |
| Lessons.NormalizedIdsAreBackendIds | app.js:69-72 | After normalising, a record's id is its `_id` if it had one, else its own id. |
| Lessons.DemoLessons | app.js:83-95 | Ten lessons with 5 spaces each, positive prices and pairwise distinct ids. |
| Lessons.DemoLessonsNormalized | app.js:69-95 | The demo data is left unchanged by normalisation. |
| Lessons.LessonIndex | app.js:137 | The first position whose id matches, or -1 when none does. |
| Lessons.FindLesson | app.js:137 | `find`: null exactly when no lesson has the id, otherwise the object at the first matching position. |
| Chars.LowerChar | app.js:112-113 | ASCII lower-casing: the result is never upper case. An upper-case letter becomes the lower-case letter at the same alphabet position. Other characters are kept, and letters stay letters. |
| Chars.Lower | app.js:112-113 | Character-by-character lower-casing of the same length. |
| Chars.LowerIdempotent | app.js:112-113 | Lower-casing twice is lower-casing once. |
| Cart.Total | app.js:50-52 | The empty cart totals 0. |
| Cart.TotalNonNegative | app.js:50-52 | With non-negative prices the total is non-negative. |
| Cart.TotalConcat | app.js:50-52 | The total of two carts joined is the sum of their totals. |
| Cart.TotalPush | app.js:123-126 | Pushing a line raises the total by its price. |
| Cart.TotalMiddle | app.js:50-52 | A line anywhere in the cart contributes exactly its price. |
| Cart.TotalSplice | app.js:142 | Splicing out a line lowers the total by its price. |
| Cart.Booked | app.js:137 | At most one per line, and 0 exactly when no line carries the id. |
| Cart.BookedConcat | app.js:137 | Booked counts add up over joined carts. |
| Cart.BookedPush | app.js:123-126 | A pushed line counts once for its own lesson id and for no other. |
| Cart.BookedSplice | app.js:142 | A spliced-out line stops counting for its lesson id, and for no other. |
| Cart.LineIndex | app.js:134 | The first position with the line id, or -1 when none has it. |
| Cart.FindLine | app.js:134 | `findIndex` computes exactly that position. |
| Cart.PushKeepsIdsUnique | app.js:123-126 | Pushing a line with a new id keeps line ids unique. |
| Cart.SpliceRemovesId | app.js:133-144 | With unique line ids, splicing out the found line keeps them unique and leaves no line with that id. |
| Checkout.MatchesPlus | app.js:56-57 | `/^[class]+$/.test(s)`: one character of the class, then the rest matched the same way. `MatchesPlusIff` characterises it. |
| Checkout.NameValid | app.js:56 | The name pattern `^[A-Za-z\s]+$`. `CheckoutValidIff` spells it out. |
| Checkout.PhoneValid | app.js:57 | The phone pattern `^\d+$`. `CheckoutValidIff` spells it out. |
| Checkout.CheckoutValid | app.js:55-59 | Both patterns match and the cart has a line. `CheckoutValidIff` and `NoErrorsMeansValid` characterise it. |
| Checkout.MatchesPlusIff | app.js:56-57 | `^[class]+$` accepts exactly the non-empty strings whose every character is in the class. |
| Checkout.CheckoutValidIff | app.js:55-59 | Valid exactly when the name is non-empty ASCII letters and whitespace, the phone is non-empty digits, and the cart is non-empty. |
| Checkout.NameError | app.js:214 | '' exactly when the name pattern matches, else the fixed name message. |
| Checkout.PhoneError | app.js:215 | '' exactly when the phone pattern matches, else the fixed phone message. |
| Checkout.NoErrorsMeansValid | app.js:55-59 | Checkout is valid exactly when neither field shows an error and the cart is non-empty. |
| Checkout.Items | app.js:170-174 | One `{lessonId, subject, price}` per cart line, in cart order. |
| Checkout.ItemsPriceConcat | app.js:170-175 | Listed prices add up over joined lists. |
| Checkout.ItemsConcat | app.js:170-174 | The payload lines of joined carts are the joined payload lines. |
| Checkout.ItemsPriceIsTotal | app.js:170-175 | The prices listed in the order add up to the cart total. |
| Checkout.BuildOrder | app.js:166-177 | The customer's fields are copied. One entry per line, in order. The total equals both the cart total and the sum of the listed prices. The timestamp is the one given. |
| Sorting.Toggled | app.js:208-210 | The toggled order differs from the original. |
| Sorting.ToggleTwice | app.js:208-210 | Toggling twice is the identity. |
| Sorting.StrLess | app.js:42-44 | JavaScript's `<` on strings: lexicographic by character, a proper prefix first. The three lemmas below make it a strict total order. |
| Sorting.Greater | app.js:42-44 | `aValue > bValue` on two key values of one kind. The lemmas below make it a strict total order. |
| Sorting.StrLessIrreflexive | app.js:42-44 | No string is below itself under JavaScript string comparison. |
| Sorting.StrLessTransitive | app.js:42-44 | String comparison is transitive. |
| Sorting.StrLessTotal | app.js:42-44 | Of two different strings, one is below the other. |
| Sorting.KeyOf | app.js:32-39 | Subject and location give text keys. Price and spaces give numbers. |
| Sorting.GreaterIrreflexive | app.js:42-44 | `>` on key values is irreflexive. |
| Sorting.GreaterTransitive | app.js:42-44 | `>` on key values is transitive. |
| Sorting.GreaterTotal | app.js:42-44 | Two different key values of one kind are ordered one way or the other. |
| Sorting.CompareValues | app.js:41-45 | The comparator answers 1 or -1, never 0. |
| Sorting.Compare | app.js:31-46 | On lessons, the comparator answers 1 or -1, never 0. |
| Sorting.CompareTies | app.js:41-45 | Equal keys give -1 both ways round, so the comparator is not consistent. |
| Sorting.CompareDistinct | app.js:41-45 | Different keys give opposite answers. |
| Sorting.ValuesCompareDistinct | app.js:41-45 | On different values of one kind, the answers are opposite, and -1 means the first goes strictly first in the chosen direction. |
| Sorting.PrecedesTransitive | app.js:41-45 | Strictly before in the chosen direction is transitive. |
| Sorting.LessonsOf | app.js:31 | The lessons of the key-paired list, position by position. |
| Sorting.LessonBagOf | app.js:31 | The multiset of those lessons, counted with multiplicity. |
| Sorting.WithKeys | app.js:32-39 | Each lesson is paired with its own key value, in order. |
| Sorting.Insert | app.js:31-46 | Insertion adds exactly the inserted pair. |
| Sorting.InsertAll | app.js:31-46 | Inserting a list adds exactly its pairs. |
| Sorting.InsertLessons | app.js:31-46 | Insertion adds exactly the inserted lesson. |
| Sorting.InsertAllLessons | app.js:31-46 | Inserting a list adds exactly its lessons. |
| Sorting.Sort | app.js:31-46 | The sorted copy is a permutation of the input objects. |
| Sorting.SortEmpty | app.js:31 | Sorting an empty list gives an empty list. |
| Sorting.InsertMembers | app.js:31-46 | Every element after insertion is the new pair or an old one. |
| Sorting.InsertFrontOrdered | app.js:41-45 | Putting a preceding pair in front keeps a list strictly ordered. |
| Sorting.ConsOrdered | app.js:41-45 | A head preceding every element keeps the list strictly ordered. |
| Sorting.InsertOrdered | app.js:31-46 | Inserting a value different from every listed value keeps the list strictly ordered. |
| Sorting.InsertAllOrdered | app.js:31-46 | Inserting pairwise-different values keeps the list strictly ordered. |
| Sorting.SortOrdered | app.js:28-47 | With pairwise-distinct keys, the result is strictly ascending, or strictly descending, by the chosen key. |
| Search.TrimStart | app.js:100 | Drops exactly the leading whitespace. |
| Search.TrimEnd | app.js:100 | Drops exactly the trailing whitespace. |
| Search.Trim | app.js:100 | `trim`: trailing then leading whitespace dropped. It is built from TrimStart and TrimEnd. |
| Search.IsBlank | app.js:100 | `!query.trim()`. `BlankIffAllSpace` characterises it. |
| Search.BlankIffAllSpace | app.js:100-103 | A query trims to '' exactly when every character of it is whitespace. |
| Search.DigitChar | app.js:114-115 | A digit below ten becomes a digit character. |
| Search.Digits | app.js:114-115 | A non-empty run of digits that starts with "0" only when it is "0". |
| Search.DecimalString | app.js:114-115 | Non-empty. It starts with '-' exactly when the number is negative. The rest is a non-empty run of digits that starts with "0" only when it is "0". |
| Search.DigitsRoundTrip | app.js:114-115 | Reading the digits back gives the number. |
| Search.DecimalStringRoundTrip | app.js:114-115 | Reading the decimal string back as a signed number gives the integer. |
| Search.DecimalStringInjective | app.js:114-115 | Different numbers have different decimal strings. |
| Search.Contains | app.js:112-115 | `hay.includes(needle)`: the needle occurs at some position, so the empty needle is found everywhere. |
| Search.Matches | app.js:112-115 | The filter's test: the lower-cased subject or location contains the lower-cased query, or the decimal price or spaces contains the query as typed. |
| Search.Keep | app.js:111-116 | What the filter keeps of one lesson: that lesson exactly when it matches, otherwise nothing. |
| Search.FallbackSearch | app.js:111-116 | No longer than the input. It holds exactly the stored objects that match. |
| Search.FallbackSearchConcat | app.js:111-116 | Filtering joined lists is joining the filtered lists, so order is kept. |
| Search.FallbackSearchSingle | app.js:111-116 | A single lesson is kept exactly when it matches. Together with the previous row, this makes the result the subsequence of matching lessons. |

## Left out

- `updateLessonSpaces` (app.js:147-159): the PUT that reports spaces to the backend is fire-and-forget. Nothing local depends on it.
- The network parts of `fetchLessons`, `handleSearch` and `submitOrder`. Only their local effect is modelled, with the outcome as an argument.
- Async interleaving between an `await` and its continuation. Each method is modelled as running to completion.
- `setTimeout` in `submitOrder` (app.js:191-194), which later clears `orderSubmitted` and switches view. Timing is outside the model.
- `navigateTo` and `currentView`: UI navigation.
- The `alert` and `console` calls: side effects on the UI and the log.
- `render` and the other render functions, `mounted` and the `$watch` on `searchQuery`: UI and framework glue. The form inputs and the sort menu write `checkoutData`, `searchQuery` and `sortBy` directly, so these are public fields.
- `backendUrl`: it only forms request URLs.
- `Date.now() + Math.random()` and `new Date().toISOString()` are nondeterministic. They are parameters.
- `Number()` coercion and non-integer prices: floating point. Prices and spaces are integers, as in the demo data.
- A missing `_id` or `id` property is modelled as the empty string, which is falsy just as `undefined` is.
- Sorting.Sort: does not reproduce the engine's order when keys tie. With a comparator that is not consistent, that order is implementation-defined (section 23.1.3.30 of ECMA-262). The model sorts by insertion and proves only the permutation, and strict order when keys are distinct.
- Sorting.StrLess: compares Unicode scalar values. JavaScript's `>` on strings compares UTF-16 code units. The two orders differ once a character above U+FFFF meets one in U+E000–U+FFFF. For example, JavaScript puts "🎹" below "Ａ", and the model puts it above.
- Chars.Lower and Search.TrimStart / Search.TrimEnd: use ASCII case folding and ASCII whitespace. JavaScript's `toLowerCase`, `trim` and `\s` also cover non-ASCII characters.
- Search.DecimalString: covers integers only, not the exponent or fraction forms of `toString`.
- Search.FallbackSearch: matches `includes` on strings of characters, not UTF-16 code units.
- AppState.App.HandleSearch: a backend answer that is not an array is not modelled. The records are taken as they come, with no id normalisation, just as the code does.
