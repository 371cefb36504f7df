# Promotional banner client: verified model

This project models the logic of a small single-page client. The client shows a dismissible, time-limited promotional banner and offers an admin form that edits it. Three components are modelled:

- **The banner** (`Banner.tsx`) is module `BannerComponent`. It holds a countdown state machine over `timeLeft`, the live one-second intervals and the calls made to `onTimerEnd`. The pure functions `Restarted`, `Ticked`, `Closed` and `Unmounted` define each transition. The class `Banner` updates the same state in place, and each of its methods is proved against the matching function. The lemmas say what sequences of ticks do.
- **The admin form** (`Dashboard.tsx`) is module `Dashboard`. Its pure parts are the ordered validator `Check`, the JavaScript `trim`, and the single-field update `ApplyChange`. `Check` states the description rule with `IsBlank`; `ValidateForm` uses `Trim` as the component does, and `TrimEmptyIffBlank` connects the two. The class `AdminForm` holds the draft, `isSubmitting` and `error`. The inline error is one of four fixed messages, kept as a `FormError` whose `Message()` is the displayed text. It models the seeding effect, `handleChange`, `validateForm` and `handleSubmit`. Submission is split at the `await`: `BeginSubmit` runs up to the call and `FinishSubmit` runs after it settles.
- **The root** (`App.tsx`) is module `App`. It holds the patch merge `{...bannerData, ...patch}`, the render gate, and the class `Root`. `Root` owns `bannerData`, `isLoading`, the toasts raised and the bodies of the write requests. The update and the timer-end handler are split at the `await`, as the form's submission is: `BeginUpdate` and `TimerEndFlip` run up to the request, and `FinishUpdate` runs after it settles. `Update` and `TimerEnd` are the whole handlers when nothing happens in between. The module ends with scenario methods that wire the three components together.

Every HTTP request is a `Response` that the caller supplies: `Ok(record)` or `Failed`. A promise returned by a callback settles as `Resolved` or `Rejected`. A JavaScript number is a `Num`: an integer, or `NonInteger` for fractions, NaN and infinities.

In these places the code does something a reader might not expect; the model follows the code:

- Manual close does not cancel the interval (`Banner.tsx:38-41`). A banner left mounted after a close therefore calls `onTimerEnd` again at the next second (`CloseThenTickFiresTwice`). In the running application this does not happen. The handler hides the record at once, the root stops rendering the banner, and unmounting clears the interval (`TimerEndFlip`, `CloseThenUnmountFiresOnce`, `SaleBannerClosed`).
- The validator always requires a link matching `^https?://.` or `^www\..`. An empty link is rejected too, not only a malformed non-empty one.
- The root's update catches every error and never rejects. So the form's own failure message (`Dashboard.tsx:71`) is never shown through the root (`SubmitThroughRoot`). Only the error toast signals a failed update.
- The seeding effect replaces the draft whenever the root's record changes. This includes the optimistic hide on timer end, so unsaved edits in the form are overwritten while the request is in flight, and again by the server's record when it succeeds (`TimerEndReseedsForm`).

## Model

| member | source | states |
|---|---|---|
| `BannerComponent.Restarted` | src/components/Banner.tsx:20-36 | one run of the effect, after the previous run's cleanup: `timer` and `timeLeft` become the new timer, nothing is called, and from at most one live interval the result has exactly one for a positive timer and none otherwise |
| `BannerComponent.Mounted` | src/components/Banner.tsx:18-23 | mounting starts from `useState(timer)` and runs the effect once: the state is well formed, `timeLeft` is the timer, nothing has been called, and an interval is live iff the timer is positive |
| `BannerComponent.Ticked` | src/components/Banner.tsx:23-31 | one firing of the live interval's callback calls `onTimerEnd` iff an interval is live and `timeLeft <= 1`, at most once; a firing that calls it leaves no live interval; it never adds an interval, never changes the timer, and keeps the invariant |
| `BannerComponent.Closed` | src/components/Banner.tsx:38-41 | `handleClose` sets `timeLeft` to 0 and calls `onTimerEnd` once, but leaves the live interval count and the timer as they were |
| `BannerComponent.Unmounted` | src/components/Banner.tsx:34 | the cleanup of a well-formed banner leaves no live interval and changes neither `timeLeft`, the timer nor the number of calls |
| `BannerComponent.RestartResets` | src/components/Banner.tsx:20-36 | starting or restarting sets `timeLeft` to exactly the timer, leaves exactly one live interval for a positive timer and none otherwise (the previous one is cleared first), and calls nothing |
| `BannerComponent.StepKeepsWellFormed` | src/components/Banner.tsx:20-41 | every event (prop change, second, close, unmount) keeps at most one interval live and `0 <= timeLeft <= timer` for a positive timer |
| `BannerComponent.RunKeepsWellFormed` | src/components/Banner.tsx:20-41 | the same holds after any sequence of events |
| `BannerComponent.QuietTicks` | src/components/Banner.tsx:22-35 | with no live interval, any number of seconds changes nothing |
| `BannerComponent.TicksWhileCounting` | src/components/Banner.tsx:24-31 | while more than `k` seconds are left, `k` ticks only decrement `timeLeft` by `k`; no call, interval kept |
| `BannerComponent.NoFireBeforeExpiry` | src/components/Banner.tsx:22-32 | from `timer = n >= 1`, the first `j < n` ticks call nothing and leave `n - j` on the clock with the interval live |
| `BannerComponent.CountdownFiresOnce` | src/components/Banner.tsx:22-32 | from `timer = n >= 1`, after `n` ticks (and after any number more) `onTimerEnd` has been called exactly once, `timeLeft` is 0 and no interval is live |
| `BannerComponent.NonPositiveTimerNeverFires` | src/components/Banner.tsx:21-22 | a timer of 0 or less starts no interval, so no tick changes anything or calls `onTimerEnd` |
| `BannerComponent.CloseThenTickFiresTwice` | src/components/Banner.tsx:24-41 | a close does not cancel the interval: one more second calls `onTimerEnd` a second time |
| `BannerComponent.CloseThenUnmountFiresOnce` | src/components/Banner.tsx:34-41 | a close followed by unmounting calls `onTimerEnd` once, however many seconds follow |
| `BannerComponent.Banner.constructor` | src/components/Banner.tsx:18-23 | mounting sets `timeLeft` to the timer, starts an interval iff the timer is positive, and has called nothing |
| `BannerComponent.Banner.Restart` | src/components/Banner.tsx:20-36 | the state after a restart is `Restarted` of the old state: `timeLeft` is the new timer and at most one interval is live |
| `BannerComponent.Banner.Tick` | src/components/Banner.tsx:23-31 | a tick at `timeLeft > 1` decrements by exactly 1 and calls nothing; at `timeLeft <= 1` it sets 0, clears the interval and calls `onTimerEnd` once; without an interval nothing happens |
| `BannerComponent.Banner.Close` | src/components/Banner.tsx:38-41 | `timeLeft` becomes 0, `onTimerEnd` is called once, the interval is left as it was |
| `BannerComponent.Banner.Unmount` | src/components/Banner.tsx:34 | the cleanup leaves no live interval and changes nothing else |
| `Dashboard.Trim` | src/components/Dashboard.tsx:45 | `trim()` never lengthens the string, and neither end of a non-empty result is white space; white space is `IsJsWhitespace`, the ECMAScript white-space and line-terminator characters |
| `Dashboard.TrimDropsOnlyWhitespace` | src/components/Dashboard.tsx:45 | the input is a blank prefix, then the trimmed string, then a blank suffix: `trim()` removes white space and nothing else |
| `Dashboard.TrimStart` | src/components/Dashboard.tsx:45 | the result is a suffix of the input, what was dropped is all white space, and the result is empty or starts with a non-white-space character |
| `Dashboard.TrimEnd` | src/components/Dashboard.tsx:45 | the result is a prefix of the input, what was dropped is all white space, and the result is empty or ends with a non-white-space character |
| `Dashboard.TrimEmptyIffBlank` | src/components/Dashboard.tsx:45-48 | `description.trim()` is empty exactly when every character is JavaScript white space |
| `Dashboard.MessagesDistinct` | src/components/Dashboard.tsx:44-74 | the four form errors display four different texts, so recording which error is shown is the same as recording the text |
| `Dashboard.LinkPatterns` | src/components/Dashboard.tsx:49-52 | `/^https?:\/\/.+/` and `/^www\..+/` (`IsValidLink`, built from `PrefixThenChar`): a link of at most four characters, the empty link included, fails; a passing link starts with `http` or `www.`; after `http://`, `https://` or `www.`, a non-empty rest passes iff its first character is not one of the four line terminators `.` excludes |
| `Dashboard.IsNonNegativeInteger` | src/components/Dashboard.tsx:56 | over `Num`, the timer passes iff neither `timer < 0` nor `!Number.isInteger(timer)` holds: an integer of at least 0 passes; a negative integer, a fraction, NaN or an infinity fails |
| `Dashboard.Check` | src/components/Dashboard.tsx:44-61 | validation passes iff the description is not blank, the link matches one of the two patterns and the timer is a non-negative integer; a blank description reports "Description is required." whatever the link and timer; "Link must be a valid URL." is reported only when the description passes, and "Timer must be a non-negative integer." only when both pass |
| `Dashboard.ApplyChange` | src/components/Dashboard.tsx:31-42 | the named field takes the checkbox's boolean, the number input's `Number(value)` or the raw string; every other field, `id` included, is unchanged |
| `Dashboard.AdminForm.constructor` | src/components/Dashboard.tsx:16-23 | the draft starts as `{description:"", link:"", timer:60, isVisible:false}`, not submitting, no error |
| `Dashboard.AdminForm.SeedFrom` | src/components/Dashboard.tsx:25-29 | a non-null record replaces the whole draft; `null` leaves it alone |
| `Dashboard.AdminForm.HandleChange` | src/components/Dashboard.tsx:31-42 | the draft becomes `ApplyChange` of the old draft |
| `Dashboard.AdminForm.ValidateForm` | src/components/Dashboard.tsx:44-61 | returns true iff `Check` finds nothing, in which case `error` is untouched; otherwise `error` is the first failing check's message |
| `Dashboard.AdminForm.BeginSubmit` | src/components/Dashboard.tsx:63-69 | on a failed validation nothing is sent and only `error` changes; otherwise `onUpdateBanner` is called once with the full draft, the form is submitting and the error is cleared; the draft never changes |
| `Dashboard.AdminForm.FinishSubmit` | src/components/Dashboard.tsx:68-74 | `isSubmitting` ends false; `error` ends null on success and "Failed to update banner. Please try again." on rejection |
| `Dashboard.BlankDescriptionIsBlocked` | src/components/Dashboard.tsx:44-65 | a draft with an empty description, a valid link and a valid timer is blocked with "Description is required." and `onUpdateBanner` is not called |
| `App.Merge` | src/App.tsx:45 | every key present in the patch overrides the current value, every absent key keeps it |
| `App.FullPatch` | src/components/Dashboard.tsx:69 | the whole draft passed to `onUpdateBanner` as a `Partial<BannerData>` has every key present except `id` when the draft has none, and merging it over the draft itself gives the draft back |
| `App.MergeNoChange` | src/App.tsx:45 | an empty patch posts the current record unchanged |
| `App.MergeIdempotent` | src/App.tsx:45 | merging a patch twice equals merging it once |
| `App.MergeTwice` | src/App.tsx:45 | two successive merges equal one merge of the overlaid patches |
| `App.MergeFullDraft` | src/App.tsx:45 | a submitted draft replaces the current record; only `id` falls back to the current record when the draft has none |
| `App.HideBannerFlips` | src/App.tsx:56-59 | `{isVisible:false}` merged over the record, before or after the local flip, is the record with only `isVisible` false |
| `App.Render` | src/App.tsx:62-83 | while loading only the spinner; otherwise the banner is rendered iff the record is non-null and visible, with its description, link and timer as props, and the form always gets the record |
| `App.Root.constructor` | src/App.tsx:19-20 | no record, loading, nothing raised or sent |
| `App.Root.FetchSettled` | src/App.tsx:22-38 | success stores the response; failure leaves the record and raises one error toast; loading ends either way |
| `App.Root.BeginUpdate` | src/App.tsx:40-46 | a request is sent iff there is a record; its body is the merge of the patch over the record, appended to the posted bodies; nothing else changes before the request settles |
| `App.Root.FinishUpdate` | src/App.tsx:43-53 | after the request settles, success makes the state exactly the response with a success toast, failure keeps the state with one error toast, and the returned promise always resolves |
| `App.Root.Update` | src/App.tsx:40-54 | with no record nothing is sent or changed; otherwise the merged record is posted once, success makes the state exactly the response with a success toast, failure keeps the state with one error toast; the returned promise always resolves |
| `App.Root.TimerEndFlip` | src/App.tsx:56-59 | with no record nothing changes and nothing is sent; otherwise the record at once has only `isVisible` false, so the banner is not rendered once loading is over (App.tsx:68), and exactly one request is posted whose body is the pre-flip record with `{isVisible:false}` merged in |
| `App.Root.TimerEnd` | src/App.tsx:56-60 | the flip followed by the settled request: with no record nothing happens; otherwise `{isVisible:false}` over the pre-flip record is posted, and the state ends as the response, or as the record with only `isVisible` false when the request fails |
| `App.SaleBannerExpires` | src/App.tsx:56-75 | the fetched five-second sale banner calls the timer-end handler exactly once after five seconds; the record with visibility off is posted; the banner is not shown while the request is in flight, and afterwards only if the server answers with a visible record |
| `App.SaleBannerClosed` | src/App.tsx:56-75 | closing the sale banner calls the handler once; the banner is not rendered while the request is in flight, so it is unmounted, no interval stays live and later seconds call nothing more |
| `App.FetchFails` | src/App.tsx:22-38 | a failed fetch renders the page with no banner and a null form record, and raises exactly one error toast |
| `App.SubmitThroughRoot` | src/App.tsx:40-54 | a form submission through the root never shows the form's failure message; a blocked one sends nothing; an accepted one posts the merged draft and, on success, the draft is reseeded with the server's record |
| `App.TimerEndReseedsForm` | src/App.tsx:56-60 | on timer end with a record, the form's draft is the hidden record while the request is in flight, and ends equal to the root's record: the server's record on success, the hidden record on failure; with no record the draft is untouched |

## Left out

- Rendering, styling, the UI library's Button, Input and Label components and the link button's `window.open` are presentation only. They are not modelled.
- The HTTP client, the backend URL and `console.error` are not modelled. Each request is an outcome passed in by the caller.
- Toasts are recorded as emitted events. Their display and auto-close are not modelled.
- `ErrorBoundary` and `LoadingSpinner` are not part of this model. Only the choice of rendering the spinner is.
- Real time and `setInterval` scheduling are abstracted. One `Tick` is one firing of the live interval's callback.
- React batching, updater functions running twice in strict mode, and render timing are not modelled. `bannerData` inside the handlers is the state at call time. For timer end, the pre-flip closure value and the flipped state produce the same request (`HideBannerFlips`).
- Which renders re-run the banner's effect is not modelled. The effect also re-runs when `onTimerEnd` changes, and the root creates a new handler on every render. `Restart` stands for any such re-run.
- `BannerComponent.Banner.constructor`: the countdown takes an integer timer. A record whose timer is not an integer (a fraction counts down in steps of 1 until it is at most 1) is not modelled.
- `Dashboard.ApplyChange`: events only come from the four inputs the form renders, each with its own input type. An event naming another field, or pairing a name with another input type, cannot come from the rendered form and is excluded.
- `Number(value)` is a parameter of `HandleChange` and `ApplyChange`, not a model of JavaScript's string-to-number conversion. Floating point is collapsed into `Num`.
- A `Patch` key that is present but holds `undefined` is not modelled. In JavaScript the spread would set that field to `undefined` and the request body would then omit it, whereas `Merge` treats such a key as absent. No caller produces such a key: the form passes a whole record read from JSON (`Dashboard.tsx:69`), and the timer-end handler passes `{isVisible: false}` (`App.tsx:59`).
