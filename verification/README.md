# Skip-hire booking page: a Dafny model

This project models the logic of a single-page React booking page for waste skips.
It covers three pieces of that page:

- the HTTP service layer, which builds the skip-by-location request and turns the response into data or an error;
- the `useSkips` hook, which maps raw API skip records to display records (adding a VAT-inclusive price) and runs the loading/success/error state machine;
- the page component's integer helpers: screen-size breakpoints, carousel paging, the "Showing a-b of n" caption, page slicing, size-threshold styling and captions, and the booking-state handlers.

Everything is pure functions over immutable datatypes. Prices are exact `real`s.
Foreign calls are function-typed parameters:
- `fetch` is `Request -> Transport<T>`;
- `URLSearchParams` component encoding is `encode: string -> string`;
- `toFixed(2)` money formatting is `money: real -> string`;
- `JSON.stringify` is `stringify: D -> string`.

Modules, one per concern:

| file | module | models |
|---|---|---|
| `wrappers.dfy` | `Wrappers` | `Option` (null / NaN) and `Result` (value or thrown error) |
| `text.dfy` | `Text` | decimal rendering of integers and split/join, each with its inverse |
| `api.dfy` | `Api` | `skip-hire/src/services/api.js` |
| `skip_transform.dfy` | `SkipTransform` | `transformSkipData` in `skip-hire/src/hooks/useSkips.js` |
| `skip_fetch.dfy` | `SkipFetch` | the `fetchSkips` / `refetchSkips` state machine in `useSkips.js` |
| `carousel.dfy` | `Carousel` | breakpoints, paging and slicing in `src/App.jsx` |
| `skip_visuals.dfy` | `SkipVisuals` | styling, animation classes, image and caption buckets in `src/App.jsx` |
| `booking.dfy` | `Booking` | selection, back, continue and step handlers in `src/App.jsx` |

Behaviours a reader might not expect, as the code has them:

- Starting a fetch does not reset the records. `fetchSkips` sets `loading` and clears `error` but leaves the previous `skips` visible until the request settles (`SkipFetch.Step`).
- A successful fetch does not write `error`; it keeps the value the start of the same cycle left, which is null.
- The postcode is not checked for being non-empty. Any string is sent.
- "Success" means `response.ok`. The model takes it as a flag of the reply rather than a status range.

## Model

| member | source | states |
|---|---|---|
| `Api.LocationParams` | skip-hire/src/services/api.js:34-36 | the query entries are `postcode` first, then `area` exactly when the area is non-empty, and nothing else |
| `Api.QueryRoundTrip` | skip-hire/src/services/api.js:35-38 | a serialised parameter list reads back entry by entry as encoded `[name, value]` pairs, provided the encoder escapes `&` and `=` |
| `Api.LocationEndpointParses` | skip-hire/src/services/api.js:34-38 | the endpoint is `/skips/by-location?` followed by a query that reads back to the postcode entry, plus the area entry iff the area is non-empty |
| `Api.BuildConfig` | skip-hire/src/services/api.js:10-16 | as written: caller headers replace the merged headers, no caller headers give only the JSON content type, method and body pass through |
| `Api.BuildConfigMerged` | skip-hire/src/services/api.js:10-16 | corrected merge: the content type is always present, every caller header is kept, JSON is the content type unless the caller overrides it, no other headers appear |
| `Api.SpreadDropsContentType` | skip-hire/src/services/api.js:10-16 | a caller passing its own headers loses `Content-Type` as written but keeps it under the corrected merge |
| `Api.ConfigsAgreeWithoutHeaders` | skip-hire/src/services/api.js:10-16 | without caller headers the as-written and corrected configurations are equal |
| `Api.LocationEndpoint` | skip-hire/src/services/api.js:35-38 | the endpoint starts with `/skips/by-location?` and carries a non-empty query after it |
| `Api.RequestFor` | skip-hire/src/services/api.js:8-16 | the URL is the base URL followed by the endpoint, and the configuration is the merged one |
| `Api.StatusMessage` | skip-hire/src/services/api.js:21-23 | the message starts with `API Error: ` and ends with the status text, and reads back to exactly that status code and text |
| `Api.Settle` | skip-hire/src/services/api.js:19-28 | a rejected fetch is rethrown unchanged; a non-ok reply fails with a message carrying its status and text; an ok reply yields the decoded body |
| `Api.NotOkIgnoresBody` | skip-hire/src/services/api.js:21-25 | a non-ok reply fails identically whatever its body holds, so the body is never read |
| `Api.ApiRequest` | skip-hire/src/services/api.js:7-29 | the outcome of the request to base URL + endpoint, per transport case: network error unchanged, status error message, or the body |
| `Api.GetSkipsByLocation` | skip-hire/src/services/api.js:34-39 | the location lookup settles the fetch of base URL + location endpoint with the JSON content type and no method or body |
| `Api.Get` | skip-hire/src/services/api.js:44 | GET settles the fetch of base URL + endpoint with the JSON content type and no method or body, as written and corrected alike |
| `Api.Post` | skip-hire/src/services/api.js:45-48 | POST sends method `POST` and the stringified data as body with the JSON content type, as written and corrected alike |
| `Api.Put` | skip-hire/src/services/api.js:49-52 | PUT sends method `PUT` and the stringified data as body with the JSON content type, as written and corrected alike |
| `Api.Delete` | skip-hire/src/services/api.js:53 | DELETE sends method `DELETE` and no body with the JSON content type, as written and corrected alike |
| `SkipTransform.PriceAfterVat` | skip-hire/src/hooks/useSkips.js:16 | `p + p*v/100` equals `p*(1+v/100)`; zero VAT gives the net price; non-negative price and VAT never lower it; positive ones raise it |
| `SkipTransform.TransformSkip` | skip-hire/src/hooks/useSkips.js:17-36 | the display price is `£` and the formatted gross price, and the gross price is the net price scaled by `1 + vat/100` |
| `SkipTransform.UntransformSkip` | skip-hire/src/hooks/useSkips.js:18-35 | renaming the pass-through fields back recovers the raw record exactly, so id, size, VAT, net price and every renamed field are copied unchanged |
| `SkipTransform.LabelsEncodeSize` | skip-hire/src/hooks/useSkips.js:19-22 | the name is the size followed by ` YARD SKIP CONTAINER` and the capacity the size followed by ` cubic yards`; both read back to the size |
| `SkipTransform.Transform` | skip-hire/src/hooks/useSkips.js:14-38 | the output has the input's length and element `i` is the transform of input element `i` alone |
| `SkipTransform.TransformAppend` | skip-hire/src/hooks/useSkips.js:15 | transforming a concatenation is concatenating the transforms, so order is kept and neighbours do not interact |
| `SkipTransform.UntransformAll` | skip-hire/src/hooks/useSkips.js:15-37 | undoing every display record recovers the raw list |
| `SkipTransform.TransformInjective` | skip-hire/src/hooks/useSkips.js:15-37 | different raw lists never give the same display list |
| `SkipTransform.EightYardExample` | skip-hire/src/hooks/useSkips.js:16-27 | an 8 yard skip at 200 with 20% VAT gets gross price 240, name `8 YARD SKIP CONTAINER` and capacity `8 cubic yards` |
| `SkipFetch.InitialState` | skip-hire/src/hooks/useSkips.js:9-11 | the hook starts with no records, loading, and no error |
| `SkipFetch.Step` | skip-hire/src/hooks/useSkips.js:40-53 | start: loading, no error, old records kept; success: not loading, error untouched, records are the transforms of the data; failure: not loading, the message stored, no records |
| `SkipFetch.CycleOutcome` | skip-hire/src/hooks/useSkips.js:40-53 | after a cycle loading is cleared, the error is absent iff the request succeeded, and the records are the transformed data on success and empty on failure |
| `SkipFetch.CycleForgetsPriorState` | skip-hire/src/hooks/useSkips.js:42-51 | a cycle's end state does not depend on the state it started from |
| `SkipFetch.StartIdempotent` | skip-hire/src/hooks/useSkips.js:42-43 | starting twice is the same as starting once |
| `SkipFetch.RefetchAfterFetch` | skip-hire/src/hooks/useSkips.js:56-58 | a manual re-fetch with the same parameters and server answer reaches the same state as the original fetch, from any state |
| `SkipFetch.HttpErrorState` | skip-hire/src/hooks/useSkips.js:44-51 | an HTTP error status yields no records, not loading, and the error `API Error: <status> <statusText>` |
| `SkipFetch.EmptyAnswerState` | skip-hire/src/hooks/useSkips.js:44-51 | an empty answer yields no records, not loading and no error |
| `SkipFetch.NetworkFailureState` | skip-hire/src/hooks/useSkips.js:47-51 | a rejected network call stores that rejection's own message |
| `SkipFetch.FetchSkips` | skip-hire/src/hooks/useSkips.js:40-53 | after a fetch loading is cleared; on success there is no error and the records are the transformed answer; on failure there are no records and the error is the failure's message |
| `SkipFetch.RefetchSkips` | skip-hire/src/hooks/useSkips.js:56-58 | a manual re-fetch ends in the same settled state a fetch for the hook's postcode and area does |
| `SkipFetch.RunCyclesSettles` | skip-hire/src/hooks/useSkips.js:40-62 | over any sequence of whole cycles an error never shows alongside records, and the final state is the last cycle's result alone |
| `Carousel.ScreenSizeFor` | src/App.jsx:188-197 | small iff width < 640, medium iff 640 <= width < 1024, large iff width >= 1024 |
| `Carousel.SkipsPerPage` | src/App.jsx:152-156 | one skip per page exactly on small screens, three otherwise, so always at least one |
| `Carousel.SkipsPerPageMonotone` | src/App.jsx:188-197 | a wider window never shows fewer skips per page |
| `Carousel.TotalPages` | src/App.jsx:230 | the page count is the least `t` with `t*perPage >= n`, and zero exactly when there are no skips |
| `Carousel.JsRem` | src/App.jsx:233 | JavaScript `%`: NaN for a zero divisor, otherwise the remainder has the dividend's sign and is smaller in magnitude than the divisor |
| `Carousel.JsRemQuotient` | src/App.jsx:233 | the remainder is what the truncated quotient leaves: `a == q*b + r` |
| `Carousel.NextSlide` | src/App.jsx:232-234 | NaN exactly when there are no pages; from any non-negative index the next index is a valid page |
| `Carousel.PrevSlide` | src/App.jsx:236-238 | NaN exactly when there are no pages; from any non-negative index the previous index is a valid page |
| `Carousel.SlidesStayInRange` | src/App.jsx:232-238 | on an in-range index, next and previous stay in range, wrapping from the last page to the first and back |
| `Carousel.NoPagesGivesNaN` | src/App.jsx:232-238 | with no pages both buttons make the index NaN |
| `Carousel.SlidesInverse` | src/App.jsx:232-238 | next then previous, and previous then next, return to the starting index |
| `Carousel.NextTimesAdvances` | src/App.jsx:232-234 | `k` presses of next from an in-range index land on `(idx + k) mod totalPages` |
| `Carousel.NextCycleReturns` | src/App.jsx:232-234 | `totalPages` presses of next return to the starting page |
| `Carousel.Dots` | src/App.jsx:641-646 | no dots unless there are at least two pages; otherwise one dot per page, dot `i` leading to page `i` |
| `Carousel.Resize` | src/App.jsx:188-200 | a resize sets the screen size the window width selects and leaves the carousel index as it was |
| `Carousel.GoToSlide` | src/App.jsx:240-242 | the index becomes the one asked for and the screen size is unchanged |
| `Carousel.DotsReachEveryPage` | src/App.jsx:640-646 | some dot leads to a page iff there are at least two pages and that page is in range |
| `Carousel.PageSlice` | src/App.jsx:507 | page `p` holds the skips from position `p*perPage` onward, at most `perPage` of them; exactly `perPage` when the list is long enough, and at least one when the page starts inside the list |
| `Carousel.Pages` | src/App.jsx:504-507 | one slice per page index, `totalPages` of them |
| `Carousel.PagesPartition` | src/App.jsx:504-507 | the pages concatenate to the skip list, so each skip appears exactly once and in order, and no page is empty |
| `Carousel.ShowingRange` | src/App.jsx:442 | the caption's last number never exceeds the skip count and the range spans fewer than `perPage` steps |
| `Carousel.ShowingRangeBounds` | src/App.jsx:442 | on a valid page of a non-empty list, `1 <= first <= last <= n`, and `first..last` is exactly the slice that page shows |
| `Carousel.CaptionAsWritten` | src/App.jsx:442 | as written, the caption's last number never exceeds the skip count, but nothing bounds the first |
| `Carousel.StaleIndexCaption` | src/App.jsx:230-242 | five skips, four presses of next on a small screen, then widening to 1280 px: two pages remain and the caption reads `Showing 13-5 of 5` |
| `Carousel.ClampPage` | src/App.jsx:230-242 | the clamped index is a valid page whenever there is one, leaves a valid index alone, and takes an index past the end to the last page |
| `Carousel.CaptionBounds` | src/App.jsx:442 | with the index clamped, a non-empty list gives `1 <= first <= last <= n`, exactly the slice the shown page holds, and the as-written caption whenever the index is already valid |
| `SkipVisuals.SkipStyling` | src/App.jsx:35-93 | the scale is always 1.0, the hover scale 0.05 more, and the rotation lies in [-2, 3] |
| `SkipVisuals.StylingByBucket` | src/App.jsx:38-83 | width, height and rotation are the entries of the bucket picked by the 4/6/8/10/12/14/16/20 thresholds |
| `SkipVisuals.StylingMonotone` | src/App.jsx:38-83 | a bigger skip is never drawn narrower or shorter |
| `SkipVisuals.Tier` | src/App.jsx:99-111 | the animation size tier is the bucket of the 6/12/16 thresholds |
| `SkipVisuals.TierMonotone` | src/App.jsx:99-111 | the size tier never decreases as size grows |
| `SkipVisuals.StylingBucketFixesTier` | src/App.jsx:38-111 | sizes in the same styling bucket share an animation tier |
| `SkipVisuals.Round` | src/App.jsx:115 | `Math.round` gives the integer within half of its argument, halves rounding up |
| `SkipVisuals.ScaleClassOfOne` | src/App.jsx:113-116 | the scale class of the constant scale is `scale-100` |
| `SkipVisuals.RotationClass` | src/App.jsx:118-124 | the class starts with `rotate-` and is followed by `n` exactly when the rotation is negative |
| `SkipVisuals.RotationClassParses` | src/App.jsx:118-124 | `rotate-n<abs>` for negative and `rotate-<r>` otherwise; the class reads back to the rotation, so distinct rotations get distinct classes |
| `SkipVisuals.EntranceNumber` | src/App.jsx:127 | the entrance suffix `(index % 3) + 1` is 1, 2 or 3 |
| `SkipVisuals.EntrancePeriodic` | src/App.jsx:127 | cards three apart share an entrance and neighbouring cards differ |
| `SkipVisuals.SkipAnimationClasses` | src/App.jsx:126-130 | the wrapper class is always `skip-container-wrapper` |
| `SkipVisuals.AnimationClassesShape` | src/App.jsx:96-131 | the container classes name the entrance digit and the depth tier; the image classes name the size tier, `scale-100` and the styling's rotation class |
| `SkipVisuals.SkipImageBySize` | src/App.jsx:19-32 | any size outside {4,6,8,10,12,14,16,20,40} gets the default picture |
| `SkipVisuals.ImagePreimages` | src/App.jsx:19-32 | for each picture, exactly the sizes that show it, in both directions |
| `SkipVisuals.ServesLabel` | src/App.jsx:569-572 | the Serves caption is the entry of the 6/10/14/20 bucket in the list `1-2`, `2-4`, `4-6`, `6-8`, `8+` people |
| `SkipVisuals.MaxWeightLabel` | src/App.jsx:575-581 | the weight caption reads `Approx <kg>kg` for the weight of the same 6/10/14/20 bucket, 20 kg per bucket from 20 to 100 |
| `SkipVisuals.CaptionsMonotone` | src/App.jsx:569-581 | the caption bucket and the weight never decrease as size grows |
| `Booking.InitialWizard` | src/App.jsx:134-144 | the page opens on step 2 (Select Skip) with nothing selected, no booked skip and postcode NR32 |
| `Booking.SelectSkip` | src/App.jsx:212-215 | the selection and the booking's skip id both become the id; no other booking field and not the step change |
| `Booking.Back` | src/App.jsx:698 | Back clears the selection and changes nothing else |
| `Booking.Continue` | src/App.jsx:706 | Continue advances the step by one with no upper bound and changes nothing else |
| `Booking.GoToStep` | src/App.jsx:364 | clicking a progress circle sets that step and changes nothing else |
| `Booking.HandlersKeepSelectionConsistent` | src/App.jsx:212-215 | all four handlers preserve "a shown selection equals the booking's skip id" |
| `Booking.LastSelectionWins` | src/App.jsx:212-215 | selecting twice is the same as selecting only the second skip |
| `Booking.BackKeepsBookedId` | src/App.jsx:698 | after Back the booking still records the previously selected id |
| `Booking.ContinueAdvances` | src/App.jsx:706 | `k` presses of Continue advance the step by exactly `k` and leave the booking alone |
| `Booking.ContinuePassesLastStep` | src/App.jsx:162-169 | four presses from the opening step reach step 6, past the last of the six steps (ids 0 to 5) |

## Left out

- JSX rendering is not modelled. This covers CSS class strings other than those computed by the modelled helpers and the progress-bar width `calc`. All of it is presentational, and the width is floating point.
- `src/components/SkipContainerSkeleton.jsx` is not part of this model. It is a presentational placeholder with a timer-driven shimmer index.
- `vite.config.js` is not modelled. It is build configuration.
- The `useSkips` default arguments (`NR32`, `Lowestoft`) are not modelled: the page always passes both, so `SkipFetch.FetchSkips` takes them as parameters.
- The autoplay `setInterval`, the scroll `setTimeout` and the `useEffect` scheduling are not modelled: they are timers and effect ordering. A change of postcode or area, or a re-fetch, is modelled as one call of `SkipFetch.FetchSkips`.
- Fetch cycles that overlap are not modelled. When postcode or area changes mid-request, a stale response can overwrite a newer cycle's result, and this is asynchronous interleaving. `SkipFetch.Step` does allow replaying events in any order, but only whole cycles carry proved properties.
- The DOM, `localStorage`, `matchMedia` and the theme effects (`toggleTheme`, the init effect) are not modelled. They are browser side effects.
- `fetch`, `response.json()`, `URLSearchParams` percent-encoding, `Number.prototype.toFixed` and `JSON.stringify` are parameters, not definitions. They are foreign calls, and `toFixed` is float formatting.
- Image assets are modelled as the tags `Container1`..`Container6`.
- JavaScript numbers are modelled as `int` for ids, sizes, days, status codes and indices, and as `real` for prices. Non-integral sizes, `NaN` fields from malformed records and IEEE rounding are not modelled. Records arrive already decoded, so the transform itself never throws; a throwing transform is covered by the failure event.
- The `forbidden` field is modelled as a list of category names. It is only copied, so its type does not affect any property.
- `SkipVisuals.SkipAnimationClasses`: its own contract states only the wrapper class. The full shape of the other two class strings is stated by `SkipVisuals.AnimationClassesShape`.

## Findings

| source | as written | input that shows it | evidently intended | confidence | as-written member | corrected member |
|---|---|---|---|---|---|---|
| skip-hire/src/services/api.js:10-16 | `...options` is spread after `headers`, so a caller's `options.headers` replaces the merged header object | `options = { headers: { Authorization: 'token' } }` sends no `Content-Type` | caller headers merged over the JSON content type | medium, not executed; no caller in this code base passes headers | `Api.SpreadDropsContentType` (on `Api.BuildConfig`) | `Api.BuildConfigMerged` |
| src/App.jsx:230-242 | the carousel index is never clamped when the page count shrinks, and the caption at line 442 is computed from it directly | 5 skips on a 320 px window, next pressed four times (page 4 of 5), window widened to 1280 px (2 pages) | the index kept within the current page count | high, not executed | `Carousel.StaleIndexCaption` (on `Carousel.CaptionAsWritten`) | `Carousel.CaptionBounds` (on `Carousel.Caption` with `Carousel.ClampPage`) |

`Api.RequestFor`, and through it every request in the model, uses `Api.BuildConfigMerged`. `Api.ConfigsAgreeWithoutHeaders` and the contracts of `Api.GetSkipsByLocation`, `Api.Get`, `Api.Post`, `Api.Put` and `Api.Delete` show that this changes nothing for the requests this code actually sends.

The carousel caption in the model is `Carousel.Caption`, which shows the page the clamped index selects; `Carousel.CaptionBounds` also shows it agrees with the as-written caption whenever the index is already valid.
