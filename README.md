# Device inspector page: refresh-rate estimator and card helpers

The page (`script.js`) reports what a browser reveals about its device. Most of it
queries browser APIs and writes the results into DOM cards. The part with logic
of its own is modelled here.

- **Refresh-rate estimator.** `estimateRefreshRate` starts a sampling session.
  The `animate` callback then runs once per animation frame. Each frame turns
  the time since the previous frame into a rate, `1000 / delta` Hz. That rate
  goes into an analysis buffer, which holds at most 50 rates in a quick session,
  and into a 50-slot sliding window for the bar chart. Once the session's budget
  has elapsed, the page reports the folded average of the analysis buffer. The
  budget is 350 ms for the quick estimate on load and 2000 ms for the full test.
  The estimator is the class `RefreshRate.Estimator` with the methods `Start`
  and `Tick`. `Damping` holds the fold, exactly as the page writes it.
- **Card helpers**, each a pure mapping:
  - `setText` maps a value to its text and class list;
  - `handleErrorText` shows an error on a card;
  - `checkAPISupport` picks the support wording;
  - `checkMediaQuery` ranks the HDR and colour-gamut levels;
  - the Windows build classification in `getOSInfo` labels the OS version;
  - `msToMinSec` and the battery thresholds give the battery text and colours;
  - `calcTime` gives the page-load timings.

The modules are:

- `JsText`: the JavaScript text primitives these helpers rely on:
  - the decimal text of a number;
  - `parseInt` without a radix;
  - the whitespace set of `String.prototype.trim`.
- `Damping`: the fold and its bounds.
- `RefreshRate`: the estimator.
- `Cards`: `setText`, `handleErrorText`, `checkAPISupport` and `checkMediaQuery`.
- `OsInfo`: the OS version line.
- `Battery`: the battery card.
- `Timing`: `calcTime`.

Host inputs become parameters:

- the animation-frame timestamp and `performance.now()` are `real` arguments of `Tick` and `Start`;
- the set of media queries that match is an argument of `CheckMediaQuery`;
- the Battery Status API's values are arguments of the `Battery` functions.

The fold at script.js:347 adds, at each step, the running total capped at 300 to the next rate capped at 300. It therefore clamps the running total as well as each sample. The model keeps it exactly so, and `Tick` reports the unrounded value, which the page rounds with `Math.round` before showing it. The comment beside the fold describes a per-sample cap. That clamped mean is defined beside the fold as `ClampedMean`, and the difference is recorded under Findings.

## Model

| member | source | states |
|---|---|---|
| RefreshRate.Estimator.constructor | script.js:36-40 | At page load no session is running and the analysis buffer is empty. The visualisation buffer holds 50 zeros, and the last frame time is the load time. |
| RefreshRate.Estimator.Start | script.js:314-330 | A full request while a session runs leaves the state unchanged. Otherwise, including a quick request during a session, a session starts: it is marked running, the analysis buffer is emptied and the last frame time is the start time. The mode, start time and 350/2000 ms budget are recorded, and the 50 bars are kept. |
| RefreshRate.Estimator.Tick | script.js:331-350 | The frame timestamp always becomes the last frame time. A non-positive delta leaves both buffers unchanged and continues. A positive delta records 1000/delta: always in a full session, and in a quick session only while fewer than 50 rates are held. The rate goes last in the 50 bars and the other 49 are the previous entries 2..50. The session continues while elapsed < budget. At or past the budget it stops, returns the fold's average with "Quick Est."/"Avg", and empties the analysis buffer only for a full session. The reported average lies in [0, 600]. The invariant keeps 50 bars, positive rates and at most 50 rates in a quick session. |
| RefreshRate.SlideWindow | script.js:341-342 | Appending a rate to the 50 bars and dropping the first keeps 50 bars. The new rate is last and the others move one place forward. |
| Damping.Average | script.js:347 | An empty analysis buffer is reported as 0. |
| Damping.ReduceBounds | script.js:347 | For non-negative rates the folded total lies in [0, 600]. |
| Damping.AverageBounds | script.js:347 | For non-negative rates the reported average is non-negative and at most 600/n, hence at most 600. |
| Damping.ReduceSaturated | script.js:347 | Once the running total of a prefix reaches 300, the fold's result is 300 plus the last rate clamped to 300. Every rate in between is forgotten. |
| Damping.ReduceBelowCap | script.js:347 | While the per-sample clamped sum stays at or below 300, the fold as written and the clamped sum agree, and so do the two averages. |
| Damping.OutlierDamped | script.js:347 | Three 60 Hz frames report 60 Hz. A 1000 Hz outlier among them is held to 120 Hz, below the arithmetic mean. |
| Damping.SteadyRateUnderreported | script.js:347 | A steady 120 Hz quick session of 42 frames is reported as 10 Hz by the fold as written. The per-sample clamped mean gives 120 Hz. |
| Damping.ClampedMean | script.js:347 | The clamped mean is 0 for an empty buffer; otherwise it times the count equals the per-sample clamped sum. |
| Damping.ClampedMeanBounds | script.js:347 | The clamped mean of non-negative rates lies in [0, 300]. |
| Damping.ClampedMeanOfSteadyRate | script.js:347 | At a steady rate within the cap, the clamped mean is that rate. |
| Cards.DisplayTextShows | script.js:55 | A missing value, or a value made only of whitespace, is shown as "N/A". Any other value is shown as its own text. |
| Cards.AddClass | script.js:57-58 | Adding a class keeps the list free of duplicates and keeps the existing classes in order. Afterwards the list holds exactly the old classes plus the new one. |
| Cards.ClassList | script.js:56-58 | The class list has no duplicates and starts with the base class name. |
| Cards.ClassListMembers | script.js:56-58 | The list holds exactly the base class (if non-empty), "code-text" for code values, and `value-<status>` for a non-empty status. |
| Cards.StatusCard | script.js:55-58 | A card with a value that is not all whitespace and a status shows that value, leading whitespace included, under exactly "card-value" and the status class. |
| Cards.HandleErrorText | script.js:76-78 | An error card shows the message as `setText` shows it: "N/A" when it is blank, and the message otherwise. Its classes are exactly "card-value" and "value-error". |
| Cards.DefaultErrorCard | script.js:76-78 | With no message, the error card reads "Error or N/A" under "card-value" and "value-error". |
| Cards.CheckApiSupport | script.js:69-75 | The result is the condition's truthiness. The card reads Supported/Not Supported exactly when `availability` is true (the default), and Available/Not Available otherwise. The positive word is used exactly when the condition is truthy. The class list is exactly "card-value" followed by value-success when supported, or value-warning when not. |
| Cards.CheckMediaQuery | script.js:288-308 | Without `matchMedia` the card shows "Media Query API N/A" under exactly "card-value" and "value-error". Otherwise its classes are exactly "card-value" and one status class, and it has a success status exactly when the high, p3 or rec2020 query matches, and a neutral status exactly when none of them does. |
| Cards.CascadeIsFirstMatch | script.js:290-304 | The card shows the message and status of the first level that matches, in the order high, p3, rec2020, standard, srgb, then the fallback. A higher level wins whatever lower levels also match. |
| Cards.FirstMatch | script.js:292-301 | The level picked is the first whose query matches; none before it matches. |
| OsInfo.TrailingDigitCount | script.js:447 | Counts the maximal run of digits at the end of the version text. |
| OsInfo.DotDigitsSuffix | script.js:447 | The `/\.([0-9]+)$/` group, when found, is a non-empty run of digits that a dot introduces at the very end. |
| OsInfo.DotDigitsSuffixOf | script.js:447 | Any text ending in a dot and a digit run has exactly that run captured. |
| OsInfo.Field | script.js:447 | The dot-separated field taken by `split('.')[n]` contains no dot. |
| OsInfo.FieldOfDotFree | script.js:447 | A text without a dot is one field: field 0 is the whole text and every later field is undefined. |
| OsInfo.FieldOfDotted | script.js:447 | For a dot-free `a`, field 0 of `a.b` is `a`, and field n+1 of `a.b` is field n of `b`. |
| OsInfo.BuildOfDotDigits | script.js:447 | A version ending in a dot and the decimal text of a build number has that build. |
| OsInfo.BuildOfThirdField | script.js:447 | A version `a.b.<build><tail>` whose tail has no dot and neither starts nor ends with a digit has that build, read by `parseInt` from the third field. |
| OsInfo.WindowsName | script.js:448-450 | A build ≥ 22000 is "Windows 11 Family", and 10240..21999 is "Windows 10 Family". A lower build, or NaN, is plain "Windows". |
| OsInfo.VersionText | script.js:445-455 | An empty platform version is "N/A". A non-Windows version is shown unchanged. A Windows version is shown followed by the family of its build in parentheses. |
| OsInfo.Parenthesised | script.js:451 | The labelled text is the version, then " (", then the note, then ")". |
| OsInfo.WindowsBuildLabel | script.js:445-451 | A Windows version ending in `.<build>` is labelled with the family of that build number. |
| Battery.MsToMinSec | script.js:497-502 | Infinity and 0 give "?". For a positive duration the seconds lie in 0..59 and minutes·60000 + seconds·1000 ≤ ms < minutes·60000 + (seconds+1)·1000. |
| Battery.StateSuffix | script.js:486-487 | While charging the text is " (Charging)" when the time to full is Infinity. Otherwise it is the countdown of that time (seconds × 1000 as milliseconds), then " to full, Charging)". While discharging it is " (Discharging)", or the countdown of the time left followed by " left, Discharging)". |
| Battery.TimeToFullBrackets | script.js:497-502 | While charging (script.js:486) with a positive time to full of t seconds, the text names whole minutes m and seconds s in 0..59 with 60·m + s ≤ t < 60·m + s + 1. |
| Battery.TimeLeftBrackets | script.js:497-502 | The same while discharging (script.js:487), for the time left. |
| Battery.CountdownTextReadsBack | script.js:501 | The countdown text is the minutes' digits, "m ", the seconds' digits and "s". `parseInt` reads the minutes back from the whole text and the seconds from the part after "m ". |
| Battery.LevelBarColor | script.js:491 | The bar is error-coloured at or below 10 % while discharging, and warning-coloured above 10 % up to 20 % while discharging. It is success-coloured when charging or above 20 %. |
| Battery.StatusClass | script.js:494 | The card's status is "error" exactly at or below 20 % while discharging, and "neutral" otherwise. |
| Timing.CalcTime | script.js:895 | The result is "N/A" exactly unless both marks are positive and end > start. Otherwise it is exactly the decimal text of end − start (digits only, no leading zero) followed by " ms", and that number reads back with `parseInt` as end − start. |
| JsText.NatText | script.js:895 | The decimal text of a natural number is non-empty, all digits, and has no leading zero. |
| JsText.DigitsValueOfNatText | script.js:895 | The digits written for n have the value n. |
| JsText.TrimStart | script.js:55 | Trimming the start leaves a suffix that does not begin with whitespace, and everything removed was whitespace. |
| JsText.TrimEnd | script.js:55 | Trimming the end leaves a prefix that does not end with whitespace, and everything removed was whitespace. |
| JsText.TrimEmptyIffAllSpace | script.js:55 | `trim()` gives the empty string exactly when every character is whitespace. |
| JsText.LeadingDigits | script.js:447 | `parseInt` reads the longest run of digits at the head of the text. |
| JsText.LeadingHexDigits | script.js:447 | After a "0x" prefix, `parseInt` reads the longest run of hexadecimal digits. |
| JsText.ParseMagnitude | script.js:447 | The unsigned part of `parseInt` is never negative. |
| JsText.ParseIntUnsigned | script.js:447 | Text starting with a digit but not with "0x"/"0X" is read as its leading decimal digit run. |
| JsText.ParseIntHex | script.js:447 | Text starting with "0x"/"0X" is read as the hexadecimal digit run after the prefix, or NaN when none follows. |
| JsText.ParseIntSignedHex | script.js:447 | "0x1A" reads as 26 and " -0x1A" as −26: whitespace and a sign come before the prefix. |
| JsText.ParseIntNegative | script.js:447 | Text starting with a minus sign and a digit, with no "0x" after the sign, is read as the negated decimal digit run. |
| JsText.ParseIntOfNatText | script.js:447 | `parseInt` reads back the decimal text of n as n when what follows is empty or starts with a non-digit. For n = 0 that must also not be "x"/"X", which would start a hexadecimal number. |

These specification functions have no row of their own. The rows named here state their properties:

- `Damping.Reduce` (the reduce at script.js:347): `ReduceBounds`, `ReduceSaturated`, `ReduceBelowCap`, `OutlierDamped` and `SteadyRateUnderreported`.
- `Cards.SetText` (script.js:48-59): `DisplayTextShows`, `ClassList`, `ClassListMembers` and `StatusCard`.
- `OsInfo.Build` (the whole expression at script.js:447): `BuildOfDotDigits` and `BuildOfThirdField`.
- `Battery.CountdownText` (script.js:501) and `JsText.IntText`: `CountdownTextReadsBack` and `StateSuffix`.
- `JsText.ParseInt` and `JsText.ParseTrimmed`: the `ParseInt…` rows above.

## Left out

- DOM work is not modelled: element lookup, `textContent`/`className` writes, the button's disabled state, "Testing..." text, canvas drawing in `drawFpsVisualizer`, and the early return of `setText` when the element does not exist.
- The host scheduler is not modelled. This covers `requestAnimationFrame`/`cancelAnimationFrame`, the `fpsRafId` bookkeeping (script.js:336, 344, 353-354), and the frame handle not stored on the skip path. Frames are explicit `Tick` calls.
- RefreshRate.Estimator.Tick: requires a running session. The page only calls `animate` from the animation-frame chain a running session keeps alive.
- The unused `frameCount` counter (script.js:332) is not modelled.
- Numbers are exact reals and unbounded integers. IEEE rounding, `Math.round` and `toFixed` are not modelled. The displayed "N Hz" text and the battery percentage text are left out; only the "Quick Est."/"Avg" label is kept.
- JsText.ParseInt: integers are exact. Values beyond 2^53, which JavaScript rounds to the nearest double, are not rounded here.
- JsText.IntText: the text of negative minutes or seconds, which only a negative duration gives, has no read-back lemma.
- Cards.SetText: the text of `String(value)` for non-string values is taken as given. A class name holding several space-separated classes is treated as one class.
- Cards.HandleErrorText: an explicit `null` message, which `setText` shows as "N/A", is not distinguished from a given string.
- Battery.MsToMinSec: a NaN duration is not modelled. The Battery Status API reports numbers or Infinity.
- Browser probes, the speed test, the report assembly and `localStorage` are not part of this model.

## Findings

| source | as written | input that shows it | evidently intended | confidence | as-written member | corrected member |
|---|---|---|---|---|---|---|
| script.js:347 | the reducer clamps the running total as well as each sample, so once the total reaches 300 only the last sample still counts | a quick session of 42 frames at a steady 120 Hz: the fold gives 420, reported as 10 Hz | each frame's contribution capped at 300, then averaged, giving 120 Hz | not executed | Damping.SteadyRateUnderreported | Damping.ClampedMeanOfSteadyRate |

`Tick` keeps the fold as written, because that is the number the page shows. The corrected mean `ClampedMean` is defined and bounded beside it. `ReduceBelowCap` states where the two agree.
