# Spinning prize wheel: option resolution, outcome, spin and screens

This project models the engine of a web prize wheel and proves properties of that model:

- **Option resolution.** A player's chance of winning each prize comes from a list of options
  `{label, chance?, ratio?}`. The option resolver validates the list and fills in the missing chances.
  It splits the unassigned percentage equally among the options without a chance, and gives each option
  a display ratio. There are two resolvers: the current one (`OptionsCore`) and an older, laxer one
  (`WheelUtils`).
- **Outcome and angle.** A winner is drawn by prefix-sum sampling over the resolved chances
  (`WheelGeometry.Winner`). The wheel is turned so that a point in the middle part of the winner's
  slice ends under the pointer at 3π/2 (`WheelGeometry.TargetAngle`). Slices are sized by ratio, not
  by chance.
- **Loading.** Options are loaded from a spreadsheet endpoint. The payload is coerced into option
  records, with number strings and a trailing `%` allowed (`OptionsLoader`).
- **Spin.** A spin animates with an eased curve from the current rotation (`WheelSpin.WheelSpinner`).
- **Labels.** Slice labels are wrapped, truncated and fitted to a font size (`WheelCanvas`).
- **Forms and screens.** Two player forms check an email and a phone (`PlayerForm`, `LegacyPlayerForm`,
  over the regular expressions in `PlayerInput`). Two screens show a progress strip while the options
  load, keep the form's button disabled until the options are in, and then open the wheel for the
  player who submits (`StandardWheelScreen`, `App`, over the shared `OptionsLoading`). Both screens
  also queue a player who submits before the options are in. That path is defensive: the disabled button
  means the form never submits then (`StandardWheelScreen.PressSubmit`, `App.PressSubmit`).
- **Debug mode.** A debug configuration and a debug URL switch (`DebugWheelConfig`).

**Modelling conventions.**

- *Numbers.* JavaScript numbers are `real`. `Math.PI` is the decimal literal 3.141592653589793.
- *JSON.* A JSON value is the datatype `Json.Json`. `undefined` is a missing key; `null` is `JNull`.
- *Errors.* Thrown errors are the `Failure` case of `Wrappers.Result`, carrying an error datatype.
- *Random draws and time.* Each `Math.random()` draw is a parameter: `roll` is the winner draw times 100,
  `u` is the landing jitter and `s` is the spin-count draw. `performance.now()` is the parameter `now`.
- *Text measurement.* `measureText` is a width function `Measure = (fontSize, text) -> real`.
- *String parsing.* `Number(s)` on a string is a parser `Parser = string -> Option<real>`, where `None`
  stands for NaN and the infinities.
- *Form of the code.* Code that loops or mutates state is written as methods with loop invariants. Each
  such method is proved equal to a specification function, and the properties are lemmas about that
  function. React components are classes whose methods are the effects and handlers.

Two facts about the resolvers that the model makes explicit:

- `validateAndResolveOptions` (src/features/wheel/options-core.mjs:20) accepts any number greater than 0
  as a ratio, non-finite ones included (see "Floating point" under Left out).
- The `Cannot distribute remaining chance` branch (src/features/wheel/options-core.mjs:52-56,
  src/wheelUtils.ts:50-54) can never fire, because the check that the explicit total is at most 100
  comes first. `OptionsCore.ResolveSucceedsIff` and `WheelUtils.LegacyResolveSucceedsIff` prove it.

Some lemmas are worked examples on the source's own constants (`OptionsLoading.FromStartToCeiling`,
`DebugWheelConfig.DebugChanceSum`, `DebugWheelConfig.DebugOptionsResolve`, the `Example…` lemmas of
`OptionsCore`). They illustrate; the general statements are `OptionsLoading.TicksBounds`,
`DebugWheelConfig.ExplicitConfigsResolve`, `DebugWheelConfig.PathAndHashIgnoreCase` and the
`OptionsCore` lemmas they instantiate.

## Model

| member | source | states |
|---|---|---|
| OptionsCore.FirstBad | src/features/wheel/options-core.mjs:13-39 | the index of the first entry the per-entry checks refuse; every earlier entry passes; `\|items\|` when all pass |
| OptionsCore.EntryFaultMeaning | src/features/wheel/options-core.mjs:14-37 | about `EntryFaultOf`, the per-entry checks: an entry passes exactly when it is an object with a non-empty string label, a ratio absent or a positive number, and a chance absent or a non-negative number; each reported fault is a real fault, and every check before it passed (object, then label, then ratio, then chance) |
| OptionsCore.Resolve | src/features/wheel/options-core.mjs:5-64 | success only on a non-empty array, with one record per entry; a reported bad entry is at a valid index, is that entry, and carries the fault the checks give it |
| OptionsCore.ValidateEntries | src/features/wheel/options-core.mjs:13-39 | the loop stops with an error exactly when some entry is refused, and then names the first such entry and its fault; otherwise the explicit list carries the whole explicit total and the null list holds every auto entry |
| OptionsCore.SumChances | src/features/wheel/options-core.mjs:41 | the `reduce` equals the explicit total of the list |
| OptionsCore.ResolveAll | src/features/wheel/options-core.mjs:58-63 | one resolved record per entry, same order, each the resolution of its entry |
| OptionsCore.ResolveEach | src/features/wheel/options-core.mjs:58-63 | the `map` loop yields the records of `ResolveAll` |
| OptionsCore.ValidateAndResolveOptions | src/features/wheel/options-core.mjs:5-64 | the method returns the specification function `Resolve`: empty or non-array input, first bad entry, total over 100, all-explicit total off 100 by more than 0.001, else the resolved list |
| OptionsCore.ResolvedChanceOf | src/features/wheel/options-core.mjs:62 | an entry's resolved chance is its explicit chance when it has one, otherwise the auto share |
| OptionsCore.SumOfResolveAll | src/features/wheel/options-core.mjs:41-62 | the resolved chances add up to the explicit total plus one auto share per auto entry |
| OptionsCore.ExplicitTotalNonNegative | src/features/wheel/options-core.mjs:30-41 | when every entry passes its checks the explicit total is at least 0 |
| OptionsCore.ResolveSucceedsIff | src/features/wheel/options-core.mjs:5-56 | resolution succeeds if and only if the input is a non-empty array, every entry passes, the explicit total is at most 100, and with no auto entry it lies within 0.001 of 100; the negative-share error never occurs |
| OptionsCore.ResolveReportsFirstBadEntry | src/features/wheel/options-core.mjs:13-39 | if entries before `k` pass and entry `k` is refused, resolution fails naming index `k`, its fault and the entry |
| OptionsCore.ResolveEntryIsResolvedFrom | src/features/wheel/options-core.mjs:58-63 | a passing entry resolves to a record with its label and chance, ratio defaulted to 1, and its own chance or the share as resolved chance |
| OptionsCore.ResolvedOptionsProperties | src/features/wheel/options-core.mjs:20-63 | on success: same length and order as the input, label and chance copied, ratio defaulted to 1, every ratio > 0, every resolved chance >= 0 and equal to the chance when one is given |
| OptionsCore.ResolvedChancesTotal | src/features/wheel/options-core.mjs:41-63 | on success the resolved chances sum to exactly 100 when an auto entry exists, and to within 0.001 of 100 otherwise |
| OptionsCore.SharesOfAutoShare | src/features/wheel/options-core.mjs:50-51 | the equal shares of the auto entries add up to what is left of 100 |
| OptionsCore.CountMissingChanceOfResolveAll | src/features/wheel/options-core.mjs:67 | the summary's missing-chance count equals the number of auto entries of the input |
| OptionsCore.FindAutoChanceIsShare | src/features/wheel/options-core.mjs:69-72 | the first record without a chance carries the auto share, and one exists whenever the count is positive |
| OptionsCore.TotalRatioPositive | src/features/wheel/options-core.mjs:73 | the ratios of a non-empty list of positive ratios add up to more than 0 |
| OptionsCore.SummaryOfResolution | src/features/wheel/options-core.mjs:66-80 | for a resolved input: missing-chance count = auto entries, auto chance = the share (0 without autos), missing-ratio count taken on the raw input, total ratio > 0 |
| OptionsCore.ConfigEntryFacts | src/features/wheel/options-core.mjs:14-37 | a typed option record passes the checks exactly when its label is non-empty, its ratio (if any) is positive and its chance (if any) is non-negative |
| OptionsCore.ConfigResolves | src/features/wheel/options-core.mjs:58-63 | a typed record resolves to its label and chance, its ratio or 1, and its chance or the share |
| OptionsCore.ExampleTwoAutoTotals | src/features/wheel/options-core.mjs:41-51 | for chances 40, 30 and two autos, the list passes, the explicit total is 70 and there are two autos |
| OptionsCore.ExampleTwoAutoOptions | src/features/wheel/options-core.mjs:50-63 | 40, 30 and two autos resolve to 40, 30, 15, 15 with ratio 1 |
| OptionsCore.ExampleOverflow | src/features/wheel/options-core.mjs:41-44 | two explicit chances of 60 fail with an overflow of 120 |
| OptionsCore.ExampleNegativeChance | src/features/wheel/options-core.mjs:29-33 | a chance of -1 fails at entry 0 as a negative chance |
| WheelUtils.FirstNegative | src/wheelUtils.ts:19-30 | the index of the first entry with a negative explicit chance; no earlier entry has one |
| WheelUtils.SplitByChance | src/wheelUtils.ts:19-30 | the loop stops at the first negative chance; when there is none, the explicit list carries the explicit total and the null list holds every auto entry |
| WheelUtils.SpreadAll | src/wheelUtils.ts:56-59 | one output per input, same order, each the input with its resolved chance |
| WheelUtils.ResolveChances | src/wheelUtils.ts:11-60 | the method returns the specification function `LegacyResolve`: empty, first negative chance, total over 100, all-explicit mismatch, else the spread list |
| WheelUtils.LegacyResolveSucceedsIff | src/wheelUtils.ts:12-54 | the legacy resolver succeeds if and only if the list is non-empty, no chance is negative, the total is at most 100 and, with no autos, within 0.001 of 100; the negative-share error never occurs |
| WheelUtils.LegacyResolvedShape | src/wheelUtils.ts:56-59 | on success every field (label, ratio, colour, chance) passes through unchanged, with no ratio default, and the resolved chance is the chance or the share |
| WheelUtils.ConvertedTotals | src/wheelUtils.ts:32 | both resolvers compute the same explicit total and auto count over the same records |
| WheelUtils.ResolversAgreeOnSuccess | src/wheelUtils.ts:11-60 | for records with a label and a positive ratio, the legacy resolver succeeds if and only if the current one does |
| WheelUtils.ResolversAgreeOnChances | src/wheelUtils.ts:56-59 | for such records both resolvers return lists of the same length that give every option the same resolved chance |
| WheelUtils.LegacyIsLaxer | src/wheelUtils.ts:19-30 | a record with an empty label and ratio 0 passes the legacy resolver and is refused by the current one |
| WheelUtils.PickWinnerIndex | src/wheelUtils.ts:66-76 | same as `WheelMath.PickWinnerIndex`, for the duplicated legacy file: the loop returns `Winner` of the resolved chances for the roll |
| WheelUtils.GetTargetAngleForIndex | src/wheelUtils.ts:82-100 | same as `WheelMath.GetTargetAngleForIndex`, for the duplicated legacy file: the loop returns `TargetAngle` of the ratios for the winner and the two draws |
| WheelMath.PickWinnerIndex | src/features/wheel/wheelMath.ts:7-17 | the loop returns `Winner` of the resolved chances for the roll, the same value as the legacy copy |
| WheelMath.GetTargetAngleForIndex | src/features/wheel/wheelMath.ts:23-41 | the loop returns `TargetAngle` of the ratios, the same value as the legacy copy |
| WheelMath.ResolvedOptionsFormAWheel | src/features/wheel/wheelMath.ts:24-31 | a resolved list is non-empty, its ratios are positive and add up to more than 0, and its chances are non-negative |
| WheelMath.AutoResolvedNeverFallsBack | src/features/wheel/wheelMath.ts:11-16 | with an auto option the resolved chances sum to 100, so a roll in [0, 100) is reached by some cumulative sum and the fallback is not used |
| WheelGeometry.WinnerFrom | src/features/wheel/wheelMath.ts:11-16 | the scan from `i` returns the first index whose cumulative sum reaches the roll, else the last index; -1 for an empty list |
| WheelGeometry.WinnerSpec | src/features/wheel/wheelMath.ts:7-17 | the winner is in [0, n) for a non-empty list, every earlier cumulative sum is below the roll, the winner's reaches it, or it is the last index when none does |
| WheelGeometry.CumulativeMonotone | src/features/wheel/wheelMath.ts:12 | with non-negative chances the running sum never decreases |
| WheelGeometry.WinnerInterval | src/features/wheel/wheelMath.ts:11-14 | index `i` wins exactly for the rolls in (cumulative(i-1), cumulative(i)], an interval as long as its chance |
| WheelGeometry.FallbackNotTaken | src/wheelUtils.ts:70-75 | chances summing to 100 and a roll in [0, 100) always reach a cumulative sum |
| WheelGeometry.WinnerHasPositiveChance | src/features/wheel/wheelMath.ts:11-14 | a positive roll that is reached never lands on an option with chance 0 |
| WheelGeometry.SliceStartProportional | src/features/wheel/wheelMath.ts:27-30 | slice `i` starts at 2π times the preceding ratios over the total ratio |
| WheelGeometry.SlicesCoverWheel | src/features/wheel/wheelMath.ts:24-31 | the slice widths add up to exactly 2π |
| WheelGeometry.SlicesOrdered | src/features/wheel/wheelMath.ts:27-31 | with positive ratios the slice starts increase strictly from 0 to 2π |
| WheelGeometry.LandAngleInMiddle | src/features/wheel/wheelMath.ts:34 | for a jitter in [0, 1) the landing angle lies in [start + 0.2·width, start + 0.8·width) |
| WheelGeometry.TurnsRange | src/features/wheel/wheelMath.ts:39 | the number of full turns is between 5 and 9 |
| WheelGeometry.TargetAngleAligns | src/features/wheel/wheelMath.ts:36-40 | target + landing angle = 2π·turns + 3π/2, the pointer direction |
| WheelGeometry.AlignedFromWholeTurns | src/features/wheel/wheelMath.ts:36-40 | a wheel turned from a whole number of turns by the target (plus whole turns) has the winner's slice under the pointer |
| WheelSpin.Progress | src/features/wheel/useWheelSpin.ts:45-46 | progress is at most 1, at least 0 for non-negative elapsed time, equal to 1 exactly from the 5000 ms duration on, and elapsed/duration before that |
| WheelSpin.Eased | src/features/wheel/useWheelSpin.ts:47 | the easing maps 0 to 0 and 1 to 1 |
| WheelSpin.EasedBounds | src/features/wheel/useWheelSpin.ts:47 | the easing maps [0, 1] into [0, 1] |
| WheelSpin.EasedMonotone | src/features/wheel/useWheelSpin.ts:47 | the easing never decreases on [0, 1] |
| WheelSpin.WheelSpinner.constructor | src/features/wheel/useWheelSpin.ts:17-20 | the hook starts at rotation 0, not spinning, no frame scheduled |
| WheelSpin.WheelSpinner.Spin | src/features/wheel/useWheelSpin.ts:30-42 | a call while spinning changes nothing; otherwise it sets spinning, fixes the winner and the total rotation once, starts from the latest rotation at `now`, and schedules a frame |
| WheelSpin.WheelSpinner.Frame | src/features/wheel/useWheelSpin.ts:44-66 | each frame sets the rotation to start + total·eased; before the end it reschedules; at the end the rotation is start + total exactly, spinning is cleared and the handler receives the winner's label once |
| WheelSpin.WheelSpinner.Unmount | src/features/wheel/useWheelSpin.ts:26-28 | unmounting cancels the scheduled frame and changes nothing else |
| WheelSpin.FramesMoveForward | src/features/wheel/useWheelSpin.ts:45-48 | over a spin the shown rotation never goes back and stays between the start and start + total |
| WheelSpin.ProgressMonotone | src/features/wheel/useWheelSpin.ts:46 | progress never decreases as time passes |
| WheelSpin.SpinDeltaPositive | src/features/wheel/useWheelSpin.ts:35-38 | every spin turns the wheel forward by more than 19.5π |
| WheelSpin.SpinFromWholeTurnsShowsWinner | src/features/wheel/useWheelSpin.ts:35-48 | a spin that starts from a whole number of turns stops with the winner under the pointer |
| WheelSpin.EvenPairTarget | src/features/wheel/wheelMath.ts:24-40 | for two equal slices, winner 0, jitter 0.5 and the five-turn draw, the target is 11π |
| WheelSpin.SecondSpinShowsOtherSlice | src/features/wheel/useWheelSpin.ts:42-48 | as written: after a first spin to 21π, a second spin for the same winner stops at 42π with the other slice under the pointer |
| WheelSpin.AlignedSpinDelta | src/features/wheel/useWheelSpin.ts:37-38 | the corrected delta brings any start rotation to whole turns + target + five turns |
| WheelSpin.AlignedSpinShowsWinner | src/features/wheel/useWheelSpin.ts:35-48 | with the corrected delta a spin from any rotation stops with the winner under the pointer |
| WheelCanvas.PackWordsOk | src/features/wheel/wheelCanvas.ts:68-76 | the packing loop keeps its invariant: no empty line, the lines plus the current line join to the words so far, every pushed line fits or is one word |
| WheelCanvas.WrapLinesProperties | src/features/wheel/wheelCanvas.ts:64-79 | no line is empty, every line fits the width or is a single word, the lines joined by spaces are the text's words joined by spaces, and there are no lines exactly when there are no words |
| WheelCanvas.WrapText | src/features/wheel/wheelCanvas.ts:57-80 | the loop returns `WrapLines` |
| WheelCanvas.KeptLength | src/features/wheel/wheelCanvas.ts:88-91 | the shrinking loop stops at the longest prefix whose ellipsis form fits, or at 0 |
| WheelCanvas.TruncatedShape | src/features/wheel/wheelCanvas.ts:87-92 | a fitting text is returned unchanged; otherwise the result is a prefix plus `...`, the prefix is the longest whose ellipsis form fits, and the result fits unless the prefix is empty |
| WheelCanvas.TruncatedFitsOrEllipsis | src/features/wheel/wheelCanvas.ts:87-92 | a truncated line fits, or it is a bare `...` |
| WheelCanvas.TruncateToWidth | src/features/wheel/wheelCanvas.ts:82-93 | the loop returns `Truncated` |
| WheelCanvas.FirstFit | src/features/wheel/wheelCanvas.ts:104-114 | the descending search finds the largest size in [minSize, startSize] at which the label fits, or reports that none does |
| WheelCanvas.LinesFit | src/features/wheel/wheelCanvas.ts:111 | the `every` test holds exactly when every line fits the width |
| WheelCanvas.FindFit | src/features/wheel/wheelCanvas.ts:104-114 | the size loop returns `FirstFit` |
| WheelCanvas.MarkedLines | src/features/wheel/wheelCanvas.ts:118-122 | the first `maxLines` lines, with the last one truncated when lines were cut |
| WheelCanvas.TruncateEach | src/features/wheel/wheelCanvas.ts:124-126 | every kept line replaced by its truncation |
| WheelCanvas.Fallback | src/features/wheel/wheelCanvas.ts:116-128 | the fallback method returns `FallbackLines` |
| WheelCanvas.FallbackProperties | src/features/wheel/wheelCanvas.ts:116-128 | at most `maxLines` lines, all of them when they fit that count, each the truncation of its wrapped line (the last one truncated twice when lines were cut), each fitting or a bare `...` |
| WheelCanvas.AutoFitProperties | src/features/wheel/wheelCanvas.ts:104-128 | the size is the largest in range that fits, with at most `maxLines` lines, height within `maxHeight` and all lines fitting; otherwise the minimum size with the fallback lines; every line fits or is `...` |
| WheelCanvas.AutoFontSize | src/features/wheel/wheelCanvas.ts:95-129 | the method returns `AutoFit` |
| WheelCanvas.Round | src/features/wheel/wheelCanvas.ts:142 | `Math.round` lands within half a unit of its argument |
| WheelCanvas.HubRadius | src/features/wheel/wheelCanvas.ts:142 | the hub radius is clamped to [52, 112] and is the rounded 22% of the wheel size inside that range |
| WheelCanvas.RadialSpace | src/features/wheel/wheelCanvas.ts:177-179 | the label band is at least 20 wide |
| WheelCanvas.LabelMaxWidth | src/features/wheel/wheelCanvas.ts:181-182 | the label width is at least 24 and at most the larger of 24 and the band |
| WheelCanvas.LabelMaxHeight | src/features/wheel/wheelCanvas.ts:183 | the label height is at least 14 |
| WheelCanvas.BaseFontSize | src/features/wheel/wheelCanvas.ts:186 | the base font size is between 11 and 34 |
| WheelCanvas.MinFontSize | src/features/wheel/wheelCanvas.ts:187 | the minimum font size is at least 8 |
| WheelCanvas.FontBoundsOrdered | src/features/wheel/wheelCanvas.ts:186-187 | 8 <= minimum font size <= base font size <= 34 |
| WheelCanvas.SliceLabelBounds | src/features/wheel/wheelCanvas.ts:184-197 | every label is drawn at a font size in [8, 34] with at most three lines, each fitting its width or a bare `...` |
| WheelCanvas.LayoutLabel | src/features/wheel/wheelCanvas.ts:176-201 | the label part of the slice loop returns `SliceLabel` |
| WheelCanvas.DrawSlice | src/features/wheel/wheelCanvas.ts:150-208 | one loop body draws slice `i` from the running start angle and leaves that angle at the start of slice `i + 1` |
| WheelCanvas.DrawWheel | src/features/wheel/wheelCanvas.ts:131-209 | the hub radius from the wheel size, one drawing per option in order, slice `i` starting at rotation + its geometric start, with its ratio's width, blue exactly when `i` is odd |
| WheelCanvas.UnderPointerIsDrawnSlice | src/features/wheel/wheelCanvas.ts:146-159 | the drawn slice `i` covers the pointer direction exactly when slice `i` is the one the angle calculation puts under the pointer |
| Text.TrimShape | src/features/player/PlayerForm.tsx:23-24 | `trim` returns the middle slice of the string; everything cut off is whitespace, and the result neither starts nor ends with whitespace |
| Text.BlankTrimsToNothing | src/features/player/PlayerForm.tsx:29 | a string of whitespace trims to the empty string |
| Text.TrimNoSpace | src/PlayerForm.tsx:27 | a string without whitespace is its own trim |
| Text.TrimIdempotent | src/features/player/PlayerForm.tsx:39 | trimming twice is trimming once |
| Text.Words | src/features/wheel/wheelCanvas.ts:64 | the split of the trimmed text at whitespace yields only non-empty words without whitespace |
| Text.WordsCoverText | src/features/wheel/wheelCanvas.ts:64 | the words hold every non-whitespace character of the text, in order, and nothing else |
| Text.OneWord | src/features/wheel/wheelCanvas.ts:64 | a text that is one word splits into just that word |
| Text.WordsSplitAtSpace | src/features/wheel/wheelCanvas.ts:64 | every whitespace character separates words: the split of `a`, a space and `b` is the split of `a` followed by that of `b` |
| Text.Lower | src/features/debug/debugWheelConfig.ts:22-23 | lower-casing keeps the length and maps every character |
| Text.NatToString | src/features/wheel/optionsLoader.ts:54 | the row number in `<index:n>` is a non-empty string of digits |
| Text.NatToStringValue | src/features/wheel/optionsLoader.ts:54 | those digits denote the row number, with no leading zero unless it is 0 |
| PlayerInput.EmailPatternShape | src/features/player/PlayerForm.tsx:26 | a string matches the email expression exactly when it splits at an `@` into a non-empty local part and a domain with an inner `.`, no part holding `@` or whitespace; the `@` is unique and the string has no whitespace |
| PlayerInput.SplitAtIsUnique | src/features/player/PlayerForm.tsx:26 | a matching email has no `@` besides the split one |
| PlayerInput.EmailPatternIsTrimmed | src/PlayerForm.tsx:14 | a matching email is its own trim |
| PlayerInput.PhonePatternShape | src/features/player/PlayerForm.tsx:29 | a matching phone is 7 to 16 characters long, has a `+` only at the front, and otherwise only digits, whitespace, `-`, `(` and `)` |
| PlayerForm.AcceptedFields | src/features/player/PlayerForm.tsx:21-34 | the form passes exactly when the trimmed email is blank or splits at a single `@`, and the trimmed phone matches the phone expression |
| PlayerForm.BlankPhoneRefused | src/features/player/PlayerForm.tsx:24-31 | a phone of whitespace only is refused |
| PlayerForm.SubmissionIsClean | src/features/player/PlayerForm.tsx:36-41 | what is submitted is trimmed, has a phone of 7 to 16 characters with no whitespace at its ends, and an email that is blank or holds exactly one `@` |
| PlayerForm.OneAt | src/features/player/PlayerForm.tsx:26 | a matching email holds exactly one `@` |
| PlayerForm.Form.constructor | src/features/player/PlayerForm.tsx:10-13 | both inputs start empty with no error shown, and the button follows the first render's `submitDisabled` prop |
| PlayerForm.Form.SetSubmitDisabled | src/features/player/PlayerForm.tsx:10 | a re-render with a new `submitDisabled` prop changes the button and keeps the typed values and the errors on show |
| PlayerForm.Form.SetEmail | src/features/player/PlayerForm.tsx:70 | the email input changes and nothing else |
| PlayerForm.Form.SetPhone | src/features/player/PlayerForm.tsx:59 | the phone input changes and nothing else |
| PlayerForm.Form.Validate | src/features/player/PlayerForm.tsx:21-34 | the shown errors are those of the current values, and the result is true exactly when there are none |
| PlayerForm.Form.HandleSubmit | src/features/player/PlayerForm.tsx:36-41 | the trimmed values are sent exactly when validation passes, and nothing is sent otherwise |
| PlayerForm.Form.Press | src/features/player/PlayerForm.tsx:74 | with the button disabled nothing is sent and no error changes; otherwise it is `HandleSubmit` |
| LegacyPlayerForm.EmailRequired | src/PlayerForm.tsx:14-16 | an empty email is refused |
| LegacyPlayerForm.AcceptedEmailSubmittedAsTyped | src/PlayerForm.tsx:14-27 | an accepted email splits at its one `@` and is submitted exactly as typed |
| LegacyPlayerForm.SevenSpacesTrimToNothing | src/PlayerForm.tsx:17 | seven spaces match the phone expression and trim to the empty string |
| LegacyPlayerForm.BlankPhoneSubmitted | src/PlayerForm.tsx:17-27 | as written: `a@b.c` with a phone of seven spaces passes, and the submitted phone is empty |
| LegacyPlayerForm.Form.constructor | src/PlayerForm.tsx:8-10 | both inputs start empty with no error shown |
| LegacyPlayerForm.Form.SetEmail | src/PlayerForm.tsx:43 | the email input changes and nothing else |
| LegacyPlayerForm.Form.SetPhone | src/PlayerForm.tsx:54 | the phone input changes and nothing else |
| LegacyPlayerForm.Form.Validate | src/PlayerForm.tsx:12-22 | the untrimmed values are tested; the result is true exactly when neither test fails |
| LegacyPlayerForm.Form.HandleSubmit | src/PlayerForm.tsx:24-29 | the trimmed values are sent exactly when validation passes |
| OptionsLoading.CeilTenth | src/features/wheel/StandardWheelScreen.tsx:32 | `Math.ceil(a / 10)` on integers: the least `c` with `a <= 10c` |
| OptionsLoading.NextProgressBounds | src/features/wheel/StandardWheelScreen.tsx:30-34 | a tick leaves 92 or more alone; below 92 it adds at least 1, never passes 92, and adds at least a tenth of the distance to 100 unless capped |
| OptionsLoading.TicksBounds | src/features/wheel/StandardWheelScreen.tsx:28-35 | repeated ticks never lower the value, never pass 92 from below, and gain at least one per tick until 92 |
| OptionsLoading.FromStartToCeiling | src/features/wheel/StandardWheelScreen.tsx:29-43 | from the start value 10 the strip shows 91 after 18 ticks and 92 after 19 |
| OptionsLoading.ReadyIffLoaded | src/features/wheel/StandardWheelScreen.tsx:73 | in a reachable state the options are ready exactly when the load succeeded, and the progress is then 100 |
| StandardWheelScreen.ScreenClass | src/features/wheel/StandardWheelScreen.tsx:87-91 | the class is empty exactly on the result screen |
| StandardWheelScreen.Screen.constructor | src/features/wheel/StandardWheelScreen.tsx:19-24 | no player, queued player, winner or options; loading at progress 6 |
| StandardWheelScreen.Screen.Mount | src/features/wheel/StandardWheelScreen.tsx:40-43 | the load effect marks the load active and sets loading at progress 10 |
| StandardWheelScreen.Screen.Tick | src/features/wheel/StandardWheelScreen.tsx:27-38 | while loading and active the progress takes one tick; otherwise nothing changes |
| StandardWheelScreen.Screen.LoadSucceeded | src/features/wheel/StandardWheelScreen.tsx:45-51 | when active, the options are set, the status is success and the progress 100; when inactive nothing changes |
| StandardWheelScreen.Screen.LoadFailed | src/features/wheel/StandardWheelScreen.tsx:52-58 | when active, the status is error, the options null and the progress 100; when inactive nothing changes |
| StandardWheelScreen.Screen.Unmount | src/features/wheel/StandardWheelScreen.tsx:61-63 | the cleanup clears `active` and nothing else |
| StandardWheelScreen.Screen.PromoteQueued | src/features/wheel/StandardWheelScreen.tsx:66-71 | with the options ready a queued player becomes the player and the queue empties; otherwise nothing changes |
| StandardWheelScreen.Screen.HandlePlayerSubmit | src/features/wheel/StandardWheelScreen.tsx:75-81 | with the options ready the submission becomes the player; otherwise it replaces the queued player |
| StandardWheelScreen.Screen.SpinComplete | src/features/wheel/StandardWheelScreen.tsx:119 | `setWinner`, the `onSpinComplete` callback, sets the winner and nothing else; as the code is wired nothing calls it (see Findings) |
| StandardWheelScreen.WheelNeedsLoadedOptions | src/features/wheel/StandardWheelScreen.tsx:83-85 | the wheel screen implies loaded options and a player, progress 100, no strip, an enabled button and no winner |
| StandardWheelScreen.LoadingShowsDisabledForm | src/features/wheel/StandardWheelScreen.tsx:83-136 | while loading and without a winner the form is on screen with its button disabled, the strip is shown and the progress is at most 92 |
| StandardWheelScreen.SubmitDuringLoad | src/features/wheel/StandardWheelScreen.tsx:66-81 | the defensive queue: a submission that reaches `handlePlayerSubmit` during the load is on the wheel after a successful load and the hand-off (the form itself cannot make it, see `PressSubmit`) |
| StandardWheelScreen.PressSubmit | src/features/wheel/StandardWheelScreen.tsx:122-128 | a press of the form rendered with `submitDisabled={!optionsReady}`: before the options are ready nothing is submitted and the player and the queue are unchanged; once they are, the form's submission becomes the player |
| StandardWheelScreen.SubmitAfterLoad | src/features/wheel/StandardWheelScreen.tsx:66-81 | a press during the load submits nothing and queues nobody; after the load and the re-render a press with valid fields puts the trimmed player on the wheel with an empty queue |
| StandardWheelScreen.LoadedOptionsFormAWheel | src/features/wheel/optionsLoader.ts:62-91 | what a successful load hands the screen is a non-empty wheel with positive ratios, non-negative chances and a positive ratio total |
| StandardWheelScreen.SpinToEndAsWritten | src/features/wheel/SpinningWheel.tsx:29-32 | as written: a whole spin ends with the drawn winner's label handed to the logger only, the winner unset and the screen still on the wheel |
| StandardWheelScreen.SpinToEndReporting | src/features/wheel/StandardWheelScreen.tsx:83-119 | corrected: with the label also passed to `onSpinComplete`, the same spin ends on the result screen naming the drawn winner |
| App.AppState.constructor | src/app/App.tsx:13-18 | no player, queued player or options; loading at progress 6 |
| App.AppState.Mount | src/app/App.tsx:34-37 | the load effect marks the load active and sets loading at progress 10 |
| App.AppState.Tick | src/app/App.tsx:21-32 | while loading and active the progress takes one tick and never decreases; otherwise nothing changes |
| App.AppState.LoadSucceeded | src/app/App.tsx:39-45 | when active, the options are set, the status is success and the progress 100; when inactive nothing changes |
| App.AppState.LoadFailed | src/app/App.tsx:46-52 | when active, the status is error, the options null and the progress 100; when inactive nothing changes |
| App.AppState.Unmount | src/app/App.tsx:55-57 | the cleanup clears `active` and nothing else |
| App.AppState.PromoteQueued | src/app/App.tsx:60-65 | once the wheel can open a queued player becomes the player and the queue empties; otherwise nothing changes |
| App.AppState.HandlePlayerSubmit | src/app/App.tsx:66-74 | when the wheel can open the submission becomes the player; otherwise it replaces the queued player |
| App.RenderChoice | src/app/App.tsx:84-90 | the wheel is rendered exactly with loaded options and a player, with those options and that player; otherwise the form, its button disabled exactly until the load succeeds |
| App.SubmitDuringLoad | src/app/App.tsx:60-74 | the defensive queue: a submission that reaches `handlePlayerSubmit` during the load gets the wheel after a successful load and the hand-off, and stays queued behind a disabled form after a failed one (the form itself cannot make it, see `PressSubmit`) |
| App.PressSubmit | src/app/App.tsx:89 | a press of the form rendered with `submitDisabled={!canOpenWheel}`: before the wheel can open nothing is submitted and the player and the queue are unchanged; once it can, the form's submission becomes the player |
| App.SubmitAfterLoad | src/app/App.tsx:60-90 | a press during the load submits nothing and queues nobody; after the load and the re-render a press with valid fields renders the wheel for the trimmed player |
| Json.Get | src/features/wheel/optionsLoader.ts:53-55 | a property read finds a value exactly on an object holding the key |
| OptionsLoader.ToOptionalNumberCases | src/features/wheel/optionsLoader.ts:12-31 | null or missing is absent, a number is itself, a blank string is absent, another string is parsed after trimming and dropping one trailing `%` (an error when unparsable), and any other value is an error |
| OptionsLoader.TrimmedCell | src/features/wheel/optionsLoader.ts:20-29 | a non-blank string with nothing to trim is read by parsing it with its trailing `%` removed |
| OptionsLoader.PercentSignIgnored | src/features/wheel/optionsLoader.ts:23-24 | `t%` is read as `t` |
| OptionsLoader.LonePercentIsZero | src/features/wheel/optionsLoader.ts:22-24 | a cell holding only `%` is not blank and is read as 0 |
| OptionsLoader.EndpointErrorReported | src/features/wheel/optionsLoader.ts:34-37 | a record with `ok: false` fails with its `error` string, or with the fixed message when there is none |
| OptionsLoader.RowsSource | src/features/wheel/optionsLoader.ts:39-45 | a bare array is the row list, otherwise the `options` array of a record; anything else fails as not an options list |
| OptionsLoader.MapRows | src/features/wheel/optionsLoader.ts:47-58 | on success there is one record per row, in order, each the conversion of its row |
| OptionsLoader.FirstFailingRowReported | src/features/wheel/optionsLoader.ts:47-58 | the `map` fails with the error of the first row that fails |
| OptionsLoader.PayloadRowsConverted | src/features/wheel/optionsLoader.ts:47-58 | the rows convert exactly when every row converts, and then each record is its row's conversion |
| OptionsLoader.NonRecordRowRefused | src/features/wheel/optionsLoader.ts:49-51 | a row that is not an object fails, naming its index |
| OptionsLoader.ConvertedRowFields | src/features/wheel/optionsLoader.ts:53-57 | a converted row has the trimmed string label or `''`, and the chance and ratio read by the number coercion |
| OptionsLoader.Filter | src/features/wheel/optionsLoader.ts:59 | the filter keeps no more rows than it is given, and only rows with a label, a chance or a ratio |
| OptionsLoader.FilterAppend | src/features/wheel/optionsLoader.ts:59 | filtering keeps the order of the rows |
| OptionsLoader.FilterMembership | src/features/wheel/optionsLoader.ts:59 | a record is kept exactly when it was given and has a label, a chance or a ratio |
| OptionsLoader.FilterAllKept | src/features/wheel/optionsLoader.ts:59 | a list with no blank row is unchanged |
| OptionsLoader.LoadedRecordChecks | src/features/wheel/options-core.mjs:14-37 | a loaded record can only be refused for an empty label, a non-positive ratio or a negative chance, in that order |
| OptionsLoader.BlankLabelRowConverts | src/features/wheel/optionsLoader.ts:53-57 | a row with label `" "` and chance 100 converts to a record with an empty label |
| OptionsLoader.BlankLabelRecordRefused | src/features/wheel/options-core.mjs:17-19 | that record survives the filter and the resolver refuses it at index 0 for its label |
| OptionsLoader.BlankLabelPayloadLoads | src/features/wheel/optionsLoader.ts:47-59 | the one-row payload loads as that one record |
| OptionsLoader.BlankLabelWithChanceRefused | src/features/wheel/optionsLoader.ts:90-91 | loading and resolving that payload fails with the resolver's bad-label error |
| DebugWheelConfig.DebugPlayerAccepted | src/features/debug/debugWheelConfig.ts:5-8 | the debug player passes the standard form as typed and submits as itself |
| DebugWheelConfig.ExplicitConfigsResolve | src/features/debug/debugWheelConfig.ts:10-19 | a list of labelled records with explicit chances and positive ratios passes every check, has no autos, and resolves record by record |
| DebugWheelConfig.DebugChanceSum | src/features/debug/debugWheelConfig.ts:10-17 | the six debug chances add up to 100 |
| DebugWheelConfig.DebugConfigsExplicit | src/features/debug/debugWheelConfig.ts:11-16 | every debug record has a label, an explicit chance and a positive ratio |
| DebugWheelConfig.DebugOptionsResolve | src/features/debug/debugWheelConfig.ts:19 | resolving the debug configuration succeeds with every record's chance as its resolved chance and its ratio kept |
| DebugWheelConfig.SplitAmpJoins | src/features/debug/debugWheelConfig.ts:24 | splitting the query at `&` loses nothing: the pieces rejoin to it |
| DebugWheelConfig.PlusToSpace | src/features/debug/debugWheelConfig.ts:24 | `+` decodes to a space and every other character is kept |
| DebugWheelConfig.FirstValue | src/features/debug/debugWheelConfig.ts:30 | `get` finds nothing exactly when no pair has the name, and otherwise the value of the first pair that has it |
| DebugWheelConfig.PathAndHashIgnoreCase | src/features/debug/debugWheelConfig.ts:22-23 | the result does not change when the path and the hash are lower-cased first |
| DebugWheelConfig.DebugPathSelects | src/features/debug/debugWheelConfig.ts:22-27 | any path ending in `/debug-wheel`, in any letter case, selects the debug wheel |
| DebugWheelConfig.QueryOfOnePair | src/features/debug/debugWheelConfig.ts:24-30 | the query `?name=value` yields `value` for `name` and nothing for another key |
| DebugWheelConfig.PlainHomeIsNotDebug | src/features/debug/debugWheelConfig.ts:26-31 | the plain home page is not the debug wheel |
| DebugWheelConfig.FlagQuerySelects | src/features/debug/debugWheelConfig.ts:30 | `?debugWheel=1` selects the debug wheel |
| DebugWheelConfig.FlagNameIsCaseSensitive | src/features/debug/debugWheelConfig.ts:24-30 | `?debugwheel=1` does not select it: the query is not lower-cased |
| DebugWheelConfig.FlagValueMustBeOne | src/features/debug/debugWheelConfig.ts:30 | `?debugWheel=true` does not select it |

## Left out

- `loadWheelOptionsFromGoogleSheet`: the environment-variable check, `fetch`, the HTTP status test and
  `response.json()` are I/O. Only their composition `toWheelOptionConfigs` followed by resolution is
  modelled (`OptionsLoader.LoadAndResolve`).
- `src/features/wheel/options.ts` is not part of this model. It only delegates to
  `validateAndResolveOptions`, so `LoadAndResolve` and the debug configuration call `OptionsCore.Resolve`
  directly.
- `isJsonRecord` is the predicate `OptionsLoader.IsJsonRecord`, which holds exactly for the `JObj` case.
  Arrays and `null` are other cases of `Json`, so no lemma is needed for it.
- Floating point is not modelled: the model uses reals. NaN and the infinities pass the `typeof` checks
  of the resolvers. The non-finite-number branch of `toOptionalNumber` cannot be reached from a JSON
  payload, because JSON has no such numbers. Rounding error in the sums is not modelled, which is why
  `OptionsCore.ResolvedChancesTotal` can say "exactly 100".
- The grammar of `Number()` string parsing is a parameter (`Parser`), not a definition.
- Whitespace is JavaScript's `\s`, written out as its list of code points (`Text.IsSpace`). The model
  has no UTF-16 code units, and `toLowerCase` is ASCII only (`Text.Lower`).
- `URLSearchParams` is modelled as splitting at `&` and `=` plus `+` to space (`DebugWheelConfig.QueryGet`).
  Percent-decoding of the query is left out.
- WheelMath.GetTargetAngleForIndex: requires an index in range and a non-zero total ratio. Otherwise the
  source throws on `options[winnerIndex].ratio`, or divides by zero and returns NaN, which reals cannot
  express. Resolved options always meet this (`WheelMath.ResolvedOptionsFormAWheel`).
- WheelUtils.GetTargetAngleForIndex: requires an index in range and a non-zero total ratio, for the same
  reason.
- WheelCanvas.DrawWheel: requires an empty list or a non-zero total ratio. With a zero total the source
  draws NaN angles.
- WheelSpin.WheelSpinner.Spin: requires a mounted hook and, when not already spinning, a non-empty wheel
  with a non-zero total ratio. On an empty wheel the source computes a winner of -1 and throws in the
  angle step.
- OptionsCore.SummarizeResolvedOptions: requires that no raw entry is `null`; the source throws reading
  `null.ratio`. Every input that resolves meets this (`OptionsCore.SummaryOfResolution`).
- Canvas drawing is left out: `clearRect`, `arc`, `fill`, the stroke and font settings, `fillText` and
  `drawCenterHub` are drawing calls. `WheelCanvas.DrawWheel` returns what each slice would be drawn as:
  start, width, colour, font size, lines and first line position.
- Rendering is left out: window sizing, image loading and the canvas size are inputs (`canvasWidth`,
  `canvasHeight`).
- The `onSpinEnd` call is recorded in `WheelSpinner.ended`. The catch of its rejected promise and
  `console.error` are not modelled.
- `requestAnimationFrame`, `setInterval` and `performance.now()` are method calls and parameters.
  React's render scheduling is not modelled: each effect and handler is a method run to completion, and
  state updates take effect at once.
- The mount effect of the two screens is modelled as running once (`requires !mounted`), as React runs an
  effect with empty dependencies on mount.
- The options a spin uses are fixed when the `WheelSpinner` is constructed, as the hook closes over them
  for the length of a spin.
- Error messages are error datatypes that carry the values the messages print, not the strings.
  Translation, the language switcher and the result card text are not modelled.
- `WheelSpin.WheelSpinner.Spin` models the source as written, with the rotation adding up over spins;
  the corrected delta is `WheelSpin.AlignedSpinDelta` (see Findings).
- `src/features/wheel/SpinningWheel.tsx` is modelled only in how it wires the hook: it builds a spinner
  whose end handler is the winner logger, and never passes the label on to the screen
  (`StandardWheelScreen.SpinToEndAsWritten`). Its canvas, logo and overlay markup are not modelled.
- The form's `submitDisabled` prop is a field that the parent sets between renders
  (`PlayerForm.Form.SetSubmitDisabled`); React's re-render itself is not modelled.
- The `DebugWheelScreen.tsx` component, `src/SpinningWheel.tsx`, `src/App.tsx`, the winner logger and
  the build-time validation script are not part of this model. They are presentation or I/O, and they
  call the modelled functions.

## Findings

| source | as written | input that shows it | evidently intended | confidence | as-written member | corrected member |
|---|---|---|---|---|---|---|
| src/features/wheel/useWheelSpin.ts:42-48 | a spin adds target + 10π to the current rotation, but the target is computed for a wheel at rotation 0 (src/features/wheel/wheelMath.ts:36-40) | two equal slices, slice 0 wins twice, jitter 0.5, five-turn draw: the first spin stops at 21π with slice 0 under the pointer, the second at 42π with slice 1 under it | every spin stops with the winner under the pointer, whatever the rotation it starts from | not executed | WheelSpin.SecondSpinShowsOtherSlice | WheelSpin.AlignedSpinShowsWinner |
| src/PlayerForm.tsx:17-27 | the phone is tested untrimmed, and `\s` counts toward the 7 characters, but the trimmed value is submitted | email `a@b.c`, phone of seven spaces: it passes and an empty phone is submitted | a blank phone is refused, as the newer form does | not executed | LegacyPlayerForm.BlankPhoneSubmitted | PlayerForm.BlankPhoneRefused |
| src/features/wheel/SpinningWheel.tsx:9-32 | the wheel component declares no `onSpinComplete` prop, and its only `onSpinEnd` is the winner logger; the `winner` and `showResult` it reads from `useWheelSpin` are not returned by the hook (src/features/wheel/useWheelSpin.ts:71-75), so its own result overlay never shows either | any spin on the standard screen: it ends with the label logged, the winner unset and the wheel still on screen; the result page of src/features/wheel/StandardWheelScreen.tsx:95-112 is never reached | the end of a spin reaches `onSpinComplete={setWinner}` and the screen shows the result | not executed | StandardWheelScreen.SpinToEndAsWritten | StandardWheelScreen.SpinToEndReporting |
