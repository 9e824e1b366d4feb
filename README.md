# AR CNC web front end — scroll intros, tutorials and registration

This project models the client-side logic of the AR CNC simulator's web front end. It covers three parts:

- **The two intro screens** (lathe, `HomeTorno`, and milling machine, `HomeFresadora`). Each preloads 160 numbered frame images (`0001.webp` … `0160.webp`) in batches of ten. It maps the page's vertical scroll offset to one frame through an ease-in curve on the back half of the scroll range. A `ticking` flag makes a burst of scroll events cost one recomputation per display refresh. On the lathe screen the desktop header hides once the offset passes 50 (`src/pages/HomeTorno.jsx:124`). The milling-machine screen always draws its desktop header (`src/pages/HomeFresadora.jsx:112`). Narrow viewports get a mobile header on both screens.
- **The tutorial progression** (`Tutorials`). There are six levels with a quiz each. Answering a quiz right records the level, recomputes the percentage, saves the progress to browser storage and shows a badge. A timer then moves to the next level. Level i is selectable only once level i-1 is completed.
- **The registration form** (`Register`). Field edits update the form, and a live password checklist is recomputed only when the password changes. On submit, three checks run in order, the first failure winning: the checklist, the confirmation, then acceptance of the terms. When all pass, the account request goes out with user type 2 for teachers and 3 for everyone else. The server's reply leads to the login page or to an error message.

Modules:

- `Wrappers`: the `Option` type.
- `FrameNames`: `padNumber`, frame paths and the preloaded list, with a parse-back round trip.
- `ScrollMapper`: the scroll-to-frame arithmetic, over exact reals.
- `ScrollPlayer`: one intro screen as a `Player` class. The two screens are the `Torno` and `Fresadora` configurations.
- `Tutorials`: the level table, the progress arithmetic and the `TutorialProgress` class.
- `Registration`: the password rules, the submit chain and the `RegisterForm` class.

Behaviour of the code worth noting:

- `handleScroll` also runs while the frames are still loading, because the listener is attached at mount (`src/pages/HomeTorno.jsx:80`). The frame and header flag therefore change during loading, and only the drawing waits (`Player.DisplayedImage`).
- The milling-machine screen computes `showHeader` but never reads it: its desktop header is always drawn (`Header`, `desktopHeaderFollowsScroll == false`).
- The lathe screen's explicit `scrollY === 0` branch is redundant: with or without that branch, the same configuration maps every offset alike (`ScrollMapper.ZeroBranchRedundant`). The two screens still map offsets differently, because their scroll distances differ (2 and 1.2 viewport heights).
- Completing a level a second time appends its id again, so the percentage can exceed 100. `Tutorials.RepeatCompletionScenario` reaches 7 entries and 117%. The model keeps this behaviour as written. `Tutorials.ProgressBounded` proves that the percentage stays within 100 whenever no id repeats.
- The achievement timer advances from the level that was current when the quiz was answered, not from the level current when the timer fires. Pending timers are modelled as a first-in first-out list of captured levels (`TutorialProgress.pendingDismissals`).

## Model

| member | source | states |
|---|---|---|
| FrameNames.NatToString | src/pages/HomeTorno.jsx:84 | `number.toString()` of a non-negative integer is at least one character long and made only of decimal digits |
| FrameNames.PadStart | src/pages/HomeTorno.jsx:84 | `padStart(width, fill)` has length max(|s|, width), ends with `s`, and everything before `s` is the fill character |
| FrameNames.NatToStringRoundTrip | src/pages/HomeTorno.jsx:84 | reading the decimal rendering back gives the number |
| FrameNames.LeadingZeros | src/pages/HomeTorno.jsx:84 | leading `'0'` padding of any length leaves a digit string's value unchanged |
| FrameNames.PadNumberRoundTrip | src/pages/HomeTorno.jsx:84 | `padNumber(n)` reads back as n: padding loses nothing |
| FrameNames.NatToStringLength | src/pages/HomeTorno.jsx:84 | the rendering of n has at most k digits exactly when n < 10^k |
| FrameNames.PadNumber | src/pages/HomeTorno.jsx:84 | `padNumber(n)` is at least four characters long, and exactly four iff n <= 9999 (the milling screen's copy is `src/pages/HomeFresadora.jsx:69`) |
| FrameNames.PadNumberShape | src/pages/HomeTorno.jsx:84 | `padNumber(n)` is all digits; it is exactly four characters iff n <= 9999; above 9999 it is the unpadded rendering |
| FrameNames.PadNumberInjective | src/pages/HomeTorno.jsx:84 | distinct frame numbers get distinct padded names |
| FrameNames.FramePath | src/pages/HomeTorno.jsx:18 | a frame path starts with the base and ends with `.webp`, and the characters between them are `padNumber` of the index, so the number can be cut back out of the path |
| FrameNames.FramePathInjective | src/pages/HomeTorno.jsx:18 | under one base, distinct frame numbers give distinct image paths |
| FrameNames.FrameSequence | src/pages/HomeTorno.jsx:14-19 | the preloaded list has exactly one entry per frame |
| FrameNames.FrameSequenceStep | src/pages/HomeTorno.jsx:16-19 | the list of the first n+1 frames is the list of the first n with the path of frame n+1 appended: the loop builds it in frame order |
| FrameNames.FrameSequenceAt | src/pages/HomeTorno.jsx:16-19 | entry k of the preloaded list is the path of frame k+1 |
| FrameNames.FrameSequenceDistinct | src/pages/HomeTorno.jsx:16-19 | no frame is requested twice: the list has no repeated path |
| ScrollMapper.Ceil | src/pages/HomeTorno.jsx:59 | `Math.ceil(x)` is the least integer not below x |
| ScrollMapper.TotalScrollDistance | src/pages/HomeTorno.jsx:44 | the scroll distance for the whole animation is positive for any positive viewport height |
| ScrollMapper.ScrollFraction | src/pages/HomeTorno.jsx:47-50 | the clamped fraction is never above 1, is exactly 1 from the end of the distance on, is positive for a positive offset and not positive otherwise |
| ScrollMapper.Remap | src/pages/HomeTorno.jsx:53-55 | the curve leaves fractions up to 0.5 unchanged, keeps fractions above 0.5 above 0.5, and never raises a fraction of at most 1 |
| ScrollMapper.RemapRange | src/pages/HomeTorno.jsx:53-55 | the curve is the identity up to 0.5, maps (0.5, 1] into (0.5, f] (at or below the identity), and takes 1 to 1 |
| ScrollMapper.RemapContinuousAtMidpoint | src/pages/HomeTorno.jsx:53-55 | for every fraction up to 1, `Abs(Remap(f) - 0.5) <= Abs(f - 0.5)`: the curve moves nothing away from the midpoint, so there is no jump there |
| ScrollMapper.RemapMonotone | src/pages/HomeTorno.jsx:53-55 | the curve never reverses the order of two fractions |
| ScrollMapper.FrameOfFraction | src/pages/HomeTorno.jsx:58-64 | the clamped ceiling of fraction × totalFrames lies in [1, totalFrames] |
| ScrollMapper.FrameOfFractionMonotone | src/pages/HomeTorno.jsx:58-64 | a larger fraction never gives an earlier frame |
| ScrollMapper.ScrollFractionMonotone | src/pages/HomeTorno.jsx:47-50 | a larger offset never gives a smaller fraction |
| ScrollMapper.MapFrame | src/pages/HomeTorno.jsx:42-65 | the frame shown for any offset lies in [1, totalFrames] |
| ScrollMapper.MapFrameAtTop | src/pages/HomeTorno.jsx:61-65 | at offset 0 or above the page the first frame is shown, with or without the explicit zero branch |
| ScrollMapper.MapFramePastEnd | src/pages/HomeTorno.jsx:46-59 | from the end of the scroll distance on, the last frame is shown |
| ScrollMapper.MapFrameMonotone | src/pages/HomeTorno.jsx:42-65 | scrolling further down never shows an earlier frame |
| ScrollMapper.LowerHalfIsLinear | src/pages/HomeTorno.jsx:44-59 | up to half the distance, a positive offset shows ceil(fraction × totalFrames) unclamped, with fraction <= 0.5 |
| ScrollMapper.HalfQuotient | src/pages/HomeTorno.jsx:47-50 | an offset in the first half of the distance is a fraction in (0, 0.5] |
| ScrollMapper.ZeroBranchRedundant | src/pages/HomeTorno.jsx:61-65 | for one configuration, the mapper with and without the `scrollY === 0` branch gives the same frame at every offset |
| ScrollMapper.TornoScenario | src/pages/HomeTorno.jsx:42-65 | with an 800-unit viewport: offset 0 → frame 1, 800 → 80, 1600 → 160, 3000 → 160 |
| ScrollMapper.FresadoraScenario | src/pages/HomeFresadora.jsx:40-51 | with a 1000-unit viewport, offset 1100 (fraction 11/12) → frame 136 |
| ScrollPlayer.ShowHeader | src/pages/HomeTorno.jsx:36-40 | the header flag holds iff the offset is at most the screen's threshold (50 on the lathe screen, 2 on the milling screen, HomeFresadora.jsx:34-38) |
| ScrollPlayer.Header | src/pages/HomeTorno.jsx:85-136 | no header while the loader is shown (the early return of lines 85-101); once loaded, mobile header iff width <= 768, and no header iff wide, scrolled past the threshold and on the lathe screen (the milling screen always draws its desktop header once loaded, HomeFresadora.jsx:74-124) |
| ScrollPlayer.LoadFrames | src/pages/HomeTorno.jsx:15-24 | the preload loop pushes exactly the ordered frame paths 1..total and pauses once per full batch of ten |
| ScrollPlayer.Player.constructor | src/pages/HomeTorno.jsx:6-12 | mount state: frame 1, header shown, loading, no images, nothing scheduled |
| ScrollPlayer.Player.PreloadImages | src/pages/HomeTorno.jsx:14-27 | the published list is the ordered frame paths 1..totalFrames; one pause per full batch of ten (16 for 160 frames); loading ends; frame, header and scheduling are unchanged |
| ScrollPlayer.Player.ScrollListener | src/pages/HomeTorno.jsx:69-78 | after any scroll event exactly one animation-frame callback is pending; a new one is requested only if none was |
| ScrollPlayer.Player.HandleScroll | src/pages/HomeTorno.jsx:34-66 | the frame becomes `MapFrame` and the header flag `ShowHeader` of the current offset; loading, images and scheduling are unchanged |
| ScrollPlayer.Player.AnimationFrame | src/pages/HomeTorno.jsx:72-75 | the pending callback recomputes frame and header from the offset read when it runs and leaves nothing pending |
| ScrollPlayer.Player.DisplayedImage | src/pages/HomeTorno.jsx:141-143 | while loading no image is drawn; afterwards `images[currentFrame - 1]` always exists and is the path of the current frame |
| ScrollPlayer.Player.ShowsIntro | src/pages/HomeTorno.jsx:85-101 | the scroll hint and title are drawn only on frame 1 and never while the loader is shown (lines 149-164 behind the early return of lines 85-101); whenever drawn they sit over the image of frame 1; once loaded, frame 1 always draws them |
| ScrollPlayer.CoalescingScenario | src/pages/HomeTorno.jsx:69-78 | three scroll events before a refresh leave one callback pending; it shows frame 80 for offset 800 with an 800-unit viewport |
| Tutorials.CatalogWellFormed | src/pages/Tutorials.jsx:35-156 | six levels with ids 1..6 in order, four options per quiz and the right answer among them |
| Tutorials.DifficultyColor | src/pages/Tutorials.jsx:213-220 | the color is something other than the grey fallback iff the difficulty is one of the three known ones |
| Tutorials.CatalogColorsKnown | src/pages/Tutorials.jsx:213-220 | no level of the table falls back to grey |
| Tutorials.ProgressPercent | src/pages/Tutorials.jsx:168 | `Math.round(n/6*100)` is within 0.5 of the exact percentage; it is <= 100 iff n <= 6; 0 levels → 0 and 6 → 100 |
| Tutorials.ProgressMonotone | src/pages/Tutorials.jsx:168 | more recorded levels never lower the percentage |
| Tutorials.Unlocked | src/pages/Tutorials.jsx:204 | only indices 0..6 can be selected; index i in 1..6 is selectable iff id i, the id of the level at index i-1, is recorded |
| Tutorials.Locked | src/pages/Tutorials.jsx:248 | the first level (index 0) is never drawn locked; the level at index i in 1..6 is drawn locked iff id i is not recorded |
| Tutorials.LockedIffNotSelectable | src/pages/Tutorials.jsx:203-211 | the sidebar's "locked" style (line 248) is drawn exactly on the levels whose selection is refused |
| Tutorials.DistinctWithin | src/pages/Tutorials.jsx:167-168 | a list of level ids without repeats, drawn from a set, is no longer than that set |
| Tutorials.CatalogIds | src/pages/Tutorials.jsx:35-156 | the table's ids are exactly {1, …, 6} |
| Tutorials.ProgressBounded | src/pages/Tutorials.jsx:167-168 | with no id recorded twice, the percentage stays within 100 |
| Tutorials.Restore | src/pages/Tutorials.jsx:16-23 | a stored entry missing its levels restores `[]`, one missing its percentage restores 0 |
| Tutorials.SaveRecord | src/pages/Tutorials.jsx:26-33 | the saved entry always carries both the levels and the percentage, stamped with the current time |
| Tutorials.SaveThenRestore | src/pages/Tutorials.jsx:26-33 | restoring what was saved gives back the same levels and percentage |
| Tutorials.TutorialProgress.constructor | src/pages/Tutorials.jsx:7-13 | first render: level 0, nothing completed, 0%, video view, no badge, no timers |
| Tutorials.TutorialProgress.RestoreProgress | src/pages/Tutorials.jsx:16-23 | a stored entry replaces levels and percentage as `Restore` says; with no entry nothing changes; everything else is kept |
| Tutorials.TutorialProgress.HandleVideoComplete | src/pages/Tutorials.jsx:158-160 | the quiz view is shown; only that flag changes |
| Tutorials.TutorialProgress.HandleQuizComplete | src/pages/Tutorials.jsx:162-201 | a right answer appends the level's id, sets the rounded percentage of the new count, saves exactly that with the time, shows the level's badge and queues a timer capturing the level; a wrong one alerts and changes nothing |
| Tutorials.TutorialProgress.DismissAchievement | src/pages/Tutorials.jsx:187-197 | the oldest timer closes badge and quiz and moves to the level after the one it captured, unless that was the last; progress and storage are kept |
| Tutorials.TutorialProgress.HandleLevelSelect | src/pages/Tutorials.jsx:203-211 | an unlocked level becomes current in video view with nothing else changed; a locked one alerts and changes nothing |
| Tutorials.RepeatCompletionScenario | src/pages/Tutorials.jsx:167-168 | after a full run restored from storage, completing the last level again gives 7 entries and 117% |
| Registration.UpdateForm | src/pages/Register.jsx:30-33 | the named field takes the event's value (the checkbox its checked state) and every other field keeps its own |
| Registration.ContainsWhere | src/pages/Register.jsx:38-40 | a one-character-class regex test is true iff some character of the string is in the class |
| Registration.CheckPassword | src/pages/Register.jsx:35-42 | each checklist entry holds iff: length >= 8; some character is 0-9; some character is A-Z; some character is one of the 21 symbols of the class |
| Registration.EmptyPasswordMeetsNone | src/pages/Register.jsx:17-22 | the initial all-false checklist is exactly the checklist of the initial empty password |
| Registration.StrongPasswordExample | src/pages/Register.jsx:35-42 | `Clave#2024` meets all four requirements |
| Registration.UserTypeId | src/pages/Register.jsx:64 | the user type is 2 iff the role is `teacher`, and 3 iff it is not |
| Registration.ErrorMessage | src/pages/Register.jsx:49-62 | every failed check shows a non-empty message |
| Registration.ErrorMessagesDistinct | src/pages/Register.jsx:49-62 | the three checks show three different messages, so the message tells which check failed |
| Registration.Validate | src/pages/Register.jsx:49-64 | rejected for the requirements iff one is unmet; for the confirmation iff all are met and the two passwords differ; for the terms iff both pass and the box is unchecked; sent iff all pass, with the names, e-mail, password and user type of the form |
| Registration.ReplyMessage | src/pages/Register.jsx:73-81 | no message iff the reply is a success; a refusal shows "Error en el registro: " and its body; no response shows the retry message |
| Registration.RegisterForm.constructor | src/pages/Register.jsx:7-24 | initial form (empty fields, role `student`, terms unchecked), all-false checklist consistent with the empty password, no error |
| Registration.RegisterForm.HandleChange | src/pages/Register.jsx:27-43 | the form becomes `UpdateForm` of the event; the checklist is recomputed iff the password field changed; it always describes the current password |
| Registration.RegisterForm.HandleSubmit | src/pages/Register.jsx:45-64 | the outcome is `Validate` of the checklist and form, equal to `Validate` of the current password's checklist; the error shown is the first failing check's message; it is empty exactly when the request is sent |
| Registration.RegisterForm.HandleReply | src/pages/Register.jsx:73-81 | the user goes to the login page iff the reply is a success, with the error left as it was; otherwise the reply's message is shown |

## Left out

- Numbers are exact reals and unbounded integers. The browser's doubles are not modelled: the scroll arithmetic carries no rounding error.
- ScrollMapper.MapFrame: requires a positive viewport height. At height 0 the browser divides by zero: for a positive offset, and for offset 0 on the milling screen, the frame becomes NaN, which the model does not represent (a negative offset, and offset 0 on the lathe screen, still give frame 1). `Player.HandleScroll` and `Player.AnimationFrame` inherit this.
- Player.PreloadImages: runs as one step. The batch pauses are counted but not timed, and no scroll event is interleaved inside the preload. Scroll events before or after it are modelled.
- Image decoding, the `Image` objects themselves (only their `src` paths), and the 100 ms and 3000 ms timer delays are not modelled. The dismiss timers are modelled by their order only.
- Removing the scroll listener on unmount is not modelled. Neither is a callback that runs after unmount.
- Page markup, CSS classes, the navigation buttons of the headers, the policy popup of the registration form (`showPopup`) and the other pages of the application (login, selection, student, teacher and admin homes, routing) are not part of this model.
- Browser storage is a field of `TutorialProgress` holding the parsed entry. `JSON.parse` failures and stored fields of unexpected types are not modelled.
- The clock behind `lastUpdated` is the parameter `now`.
- The achievement popup's title, message and lower-cased description are not modelled. `currentAchievement` holds the index of the level whose badge is shown.
- TutorialProgress.HandleQuizComplete: requires the quiz view with the quiz not yet answered, because the option buttons exist only there and are disabled afterwards.
- TutorialProgress.HandleLevelSelect: requires an index inside the table, because the sidebar offers only those.
- Registration.CheckPassword: counts length in Unicode characters. JavaScript counts UTF-16 code units, so a password with characters outside the Basic Multilingual Plane is longer in the browser.
- The browser's own checks of the `required` inputs and of the e-mail input's format, which can block a submit before `handleSubmit` runs, are not modelled.
- The request URL, `encodeURIComponent` and the `fetch` call are not modelled. The request is the `AccountRequest` record, and the server's answer is the `ServerReply` parameter of `RegisterForm.HandleReply`. Navigation to the login page is that method's result.
