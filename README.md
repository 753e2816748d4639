# EchoExit demo wizard, modelled in Dafny

The EchoExit demo page (`js/demo.js`) walks a visitor through a twelve-step wizard:
- Steps 1 to 4 are a "digital death calculator". A grid of subscription cards feeds a monthly total, and step 4 animates thirty days of cost.
- Steps 5 to 11 build a memorial: identity fields, a template, photos, achievements in four categories, a farewell message in a chosen tone, and a preview.
- Step 12 is a summary with a ten-minute offer countdown.

The page script keeps one global record (`userData`), the current step and two interval handles. Handlers bound to the page's controls update them.

The project models that script as follows:

- `Wrappers` holds the `Option` datatype.
- `Strings` holds the string primitives the script relies on:
  - `trim`;
  - ASCII `toLowerCase`;
  - `replace(/\s+/g, '-')`;
  - decimal rendering and `padStart`.
- `Lists` holds the list idioms: `includes` then `push`, and `filter(e => e !== x)`.
- `Ledger` covers the subscription cards, the total of the checked ones, the verdict on a custom entry, and the reset to the three default cards. Amounts are integer cents.
- `Records` covers `userData` as a value, the achievement categories, and what leaving a step saves.
- `Timers` models the impact interval and the offer interval as tick functions on timer values, plus the `mm:ss` clock.
- `Composer` holds the read-only projections:
  - the header title and progress dots;
  - the memorial preview (name, address slug, message, photo cards, achievement groups);
  - the tone passages;
  - the final summary;
  - the signup e-mail check.
- `Wizard` holds the class `Demo`, which is the page script's global state:
  - the current step, `userData`, the page's inputs and cards, and the two intervals;
  - one method per handler, each with `modifies` frames;
  - a class invariant: the step is in 1..12, a running impact timer means step 4, a running offer timer means step 12, no duplicate subscription or photo names, and the cached monthly total equals the total of the checked cards.

The page is a value (`Wizard.Page`): the current values of the inputs, the cards and tiles, and which optional elements are present. The memorial preview and the summary are stored in the page as the values the script renders.

Some behaviours of the code are worth stating plainly:
- `restartDemo` does not reset the whole record. It stops both timers, goes back to step 1, refills the three identity inputs, re-checks exactly the cards whose name element reads Netflix, Spotify or Amazon Prime, empties `customSubscriptions` and recomputes the total.
  - The subscription names, the saved name, photos, achievements and message all stay as they were. The subscription list can therefore disagree with the re-checked cards after a restart.
  - Custom cards stay on the page. A custom card is unchecked by the restart unless its name is one of the three defaults.
  - When no custom card is named like a default, the total comes back to that of the original cards (`Ledger.ResetIgnoresAddedCards`).
  - A custom card can be named like a default. Unchecking Netflix filters it out of the subscription names, and then a custom "Netflix" is accepted (`Ledger.CustomNetflixAccepted`). A restart checks that card again and counts its price on top of the original cards (`Ledger.ResetRechecksDefaultNamed`). So the total after a restart is not always the initial 40.97.
- The offer countdown starts at 600 and draws 10:00 down to 0:00, so it expires on its 601st firing, not its 600th (`Timers.OfferExpiresOnFiring601`).
- An invalid custom price gives one of three distinct outcomes, and a price that is not a number is dropped silently (`Unparsable`).

## Model

| member | source | states |
|---|---|---|
| Strings.TrimStart | js/demo.js:242 | the result is a suffix of the input that does not start with whitespace, and everything dropped is whitespace |
| Strings.TrimEnd | js/demo.js:242 | the result is a prefix of the input that does not end with whitespace, and everything dropped is whitespace |
| Strings.Trim | js/demo.js:456-458 | the trimmed value neither starts nor ends with whitespace |
| Strings.TrimOfTrimmed | js/demo.js:456-458 | a value that neither starts nor ends with whitespace trims to itself |
| Strings.TrimIdempotent | js/demo.js:456-458 | trimming twice equals trimming once |
| Strings.TrimEmptyIffAllSpace | js/demo.js:246 | a value trims to the empty (falsy) string exactly when it is all whitespace |
| Strings.Lower | js/demo.js:567 | lower-casing keeps the length and maps each character by the ASCII case map |
| Strings.LowerAppend | js/demo.js:567 | lower-casing distributes over concatenation |
| Strings.DashRuns | js/demo.js:567 | after the whitespace-run replacement no whitespace is left and the string is no longer; with DashRunsOfRun, each maximal run becomes one dash |
| Strings.DashRunsKeepsLetters | js/demo.js:567 | the replacement drops and invents no character other than whitespace and dashes |
| Strings.DashRunsOfTwoWords | js/demo.js:567 | two whitespace-free words separated by one whitespace character come out joined by one dash |
| Strings.TrimStartOfRun | js/demo.js:567 | trimming the start of a whitespace run followed by text that does not start with whitespace leaves exactly that text |
| Strings.DashRunsOfLeadingRun | js/demo.js:567 | a leading whitespace run of any length becomes a single dash |
| Strings.DashRunsOfRun | js/demo.js:567 | a maximal whitespace run of any length after whitespace-free text becomes a single dash, and the replacement carries on with the rest |
| Strings.DashRunsOfDoubleSpace | js/demo.js:567 | two non-space characters with two spaces between them become the two characters around one dash ("a  b" gives "a-b") |
| Strings.DashRunsOfSpaceless | js/demo.js:567 | a string without whitespace passes through unchanged |
| Strings.Decimal | js/demo.js:673 | the rendering is a non-empty digit string without a leading zero (except for zero itself), one digit long exactly for numbers below ten |
| Strings.DecimalReadsBack | js/demo.js:673 | reading the rendered digits back gives the number |
| Strings.PadStart | js/demo.js:673 | the result has the requested width (or more), ends with the input and is fill characters before it |
| Lists.AddIfAbsent | js/demo.js:220-222 | a present value changes nothing; an absent one is pushed at the end with the rest kept in order; a list without duplicates keeps none |
| Lists.RemoveAll | js/demo.js:225 | exactly the other values remain, and the list does not grow |
| Lists.RemoveAllKeepsNoDup | js/demo.js:225 | filtering a duplicate-free list leaves it duplicate-free |
| Lists.RemoveAllOfAbsent | js/demo.js:433 | filtering out a value that is not listed changes nothing |
| Lists.RemoveAllAppend | js/demo.js:433 | filtering distributes over concatenation |
| Lists.AddThenRemoveRestores | js/demo.js:216-226 | checking an unlisted name and then unchecking it restores the list |
| Lists.DistinctCount | js/demo.js:645 | a duplicate-free list has as many entries as distinct names |
| Ledger.Charge | js/demo.js:302-310 | a card adds its parsed price exactly when it has a box that is checked and a price that parses, and nothing otherwise |
| Ledger.CheckedTotal | js/demo.js:298-313 | no card's charge exceeds the total, and a grid with nothing checked totals zero |
| Ledger.CheckedTotalAppend | js/demo.js:276-286 | appending a card raises the total by exactly that card's charge |
| Ledger.CheckedTotalUpdate | js/demo.js:298-310 | replacing one card moves the total by the difference of the two charges |
| Ledger.ToggleMovesTotal | js/demo.js:211-228 | flipping a priced card's box moves the total by exactly its price, down when it was checked and up otherwise |
| Ledger.AddVerdict | js/demo.js:236-296 | for each outcome, exactly when it happens: success, absent inputs, blank name, non-positive price, price of 10000 or more, unparsable price, duplicate name, or missing grid |
| Ledger.ResetGrid | js/demo.js:842-856 | the same cards in the same order; a card with a box is checked exactly when it is a default, and a card without one is untouched |
| Ledger.ResetForgetsToggle | js/demo.js:842-856 | a toggle made before a restart leaves no trace in the reset grid |
| Ledger.ResetIgnoresAddedCards | js/demo.js:808-861 | custom cards whose names are not defaults add nothing to the total after a restart |
| Ledger.ResetRechecksDefaultNamed | js/demo.js:842-861 | a card named like a default is checked again by a restart, and its price is added to the total again |
| Ledger.CustomNetflixAccepted | js/demo.js:236-279 | with Netflix unchecked and so out of the subscription names, a custom entry named Netflix with a valid price is accepted |
| Records.Initial | js/demo.js:6-23 | the declared record: a monthly total of 40.97, the three default subscriptions, no custom entries, no message, the warm tone, and no duplicate subscription or photo names |
| Records.Achievements.Put | js/demo.js:451-457 | the category is replaced and the other three are kept |
| Records.OrDefault | js/demo.js:173-175 | a present non-empty input is taken as is, otherwise the fallback; a non-empty fallback gives a non-empty value |
| Records.Kept | js/demo.js:453-460 | the kept entries are no more than the inputs, each non-blank and already trimmed |
| Records.KeptSnoc | js/demo.js:455-458 | one more input adds its trimmed value at the end exactly when that value is not blank |
| Records.KeptOfClean | js/demo.js:453-460 | inputs that are already trimmed and non-blank are kept exactly, in order |
| Records.KeptIdempotent | js/demo.js:453-460 | saving the saved entries again keeps them all |
| Records.KeptDropsBlank | js/demo.js:456 | an input holding only whitespace contributes nothing |
| Records.SavedAchievements | js/demo.js:449-461 | a category whose element is missing becomes empty, and every other category becomes exactly the kept entries of its inputs |
| Timers.NextImpact | js/demo.js:394-407 | a stopped timer stays put; a running one counts one day and keeps running only on step 4 below thirty days, and then always does |
| Timers.ImpactRunLength | js/demo.js:394-407 | from `d` days, `n` firings give `d + n` days while below thirty, and then a stopped timer at exactly thirty |
| Timers.Clock | js/demo.js:666-673 | the clock ends in a colon and two characters, and is four characters long exactly below ten minutes |
| Timers.SecondsReadBack | js/demo.js:673 | the padded seconds are two digits that read back as the seconds |
| Timers.ClockReadsBack | js/demo.js:666-674 | the clock is minutes, a colon and two digits of seconds below 60, which add back up to the seconds drawn |
| Timers.NextOffer | js/demo.js:665-688 | a stopped timer stays put; a running one counts down one second, drawing the clock (red below a minute) while time is left and showing the notice and stopping at zero |
| Timers.OfferRun | js/demo.js:665-688 | from `s` seconds, each firing draws the next second down; firing `s + 1` expires and stops, and later firings change nothing |
| Timers.OfferExpiresOnFiring601 | js/demo.js:660-688 | from 600, the 600th firing leaves the countdown running at 0:01 in red, and from the 601st on it is expired and stopped |
| Composer.Title | js/demo.js:90-96 | steps up to 4 get "Your Digital Death Calculator", steps 5 to 11 "Your Digital Memorial Builder", and steps from 12 "Your Complete Digital Legacy", each exactly on its range |
| Composer.TitleChangesAtSectionBorders | js/demo.js:88-96 | one step forward changes the header title exactly at steps 4 to 5 and 11 to 12 |
| Composer.Dots | js/demo.js:79-85 | dot `i` is active exactly when `i` is below the current step |
| Composer.ActiveDotsCount | js/demo.js:79-85 | on step `k`, `k` dots are active (capped at the number of dots) |
| Composer.MemorialName | js/demo.js:561 | the memorial name is the visitor's name followed by " Doe" |
| Composer.Slug | js/demo.js:567 | the address holds no whitespace and ends in "-doe" |
| Composer.SlugKeepsLetters | js/demo.js:567 | the address keeps every non-space character of the lower-cased name, in order, and adds only dashes and "doe" |
| Composer.SlugCollapsesRuns | js/demo.js:567 | a whitespace run of any length inside the name becomes one dash in the address |
| Composer.SlugOfOneWord | js/demo.js:567 | a name without whitespace is only lower-cased and suffixed |
| Composer.SlugOfMaryAnn | js/demo.js:567 | "Mary Ann" gets the address "mary-ann-doe" |
| Composer.PreviewMessage | js/demo.js:570 | the shown message is never empty, and a saved non-empty message is shown as is |
| Composer.ToneMessage | js/demo.js:509-518 | a known tone gets its passage and any other tone gets the warm passage, which is never empty |
| Composer.PhotoIcon | js/demo.js:578-592 | a caption in the glyph table gets its glyph, any other caption the camera glyph, and the glyph is never empty |
| Composer.PreviewPhotos | js/demo.js:575-593 | at most the first eight selected photos, in order, each with its glyph or the camera glyph |
| Composer.GroupsFor | js/demo.js:614-625 | every group is for one of the categories, carries that category's icon, title and entries, and is non-empty |
| Composer.AchievementGroups | js/demo.js:614-625 | over the four categories, a category's group appears exactly when the category has entries, and the groups come in the record's category order |
| Composer.GroupIffEntries | js/demo.js:614-625 | a category gets a group exactly when it has entries |
| Composer.GroupsInOrder | js/demo.js:614-625 | groups come out in the record's category order |
| Composer.Compose | js/demo.js:553-628 | the preview shows the name with " Doe", the motto, a whitespace-free address, a non-empty message, at most eight photos and only non-empty groups holding the record's entries |
| Composer.Summarize | js/demo.js:631-647 | the summary shows the name, twelve times the monthly total, and the number of subscriptions |
| Composer.AccountsAreDistinct | js/demo.js:645 | while the subscription list has no duplicates, the account count is the number of distinct subscriptions |
| Composer.SignupOutcome | js/demo.js:771-805 | a welcome exactly when the field holds an address with '@' and the modal is present; a rejection exactly when the present field lacks '@'; nothing happens exactly when the field is missing, or when the address is valid but the modal is missing |
| Wizard.SaveForStep | js/demo.js:167-190 | leaving a step never touches the ledger or the photos; only steps 2, 8 and 9 save anything; step 2 always saves non-empty identity fields |
| Wizard.EnterPage | js/demo.js:192-201 | entering step 10 renders the memorial preview with the name and " Doe", entering step 12 renders the summary with twelve times the monthly total, and every other step leaves the page as it was |
| Wizard.KeepFilled | js/demo.js:453-460 | the loop over a category's inputs yields exactly the kept entries |
| Wizard.Demo.constructor | js/demo.js:4-35 | the declared initial record with the total recomputed from the cards, on step 1, with no timer running, satisfying the class invariant |
| Wizard.Demo.CalculateTotal | js/demo.js:298-325 | the cached monthly total becomes the total of the checked priced cards, and nothing else changes |
| Wizard.Demo.NextStep | js/demo.js:100-137 | on the last step nothing changes; otherwise the step's inputs are saved, the step advances by one, the entry hook renders, the impact timer runs only on step 4 with a positive total, and the offer timer runs only on step 12 when its element exists |
| Wizard.Demo.PreviousStep | js/demo.js:139-165 | on the first step nothing changes; otherwise the step goes back by one, both timers are stopped, and nothing is saved |
| Wizard.Demo.SaveCurrentStepData | js/demo.js:167-190 | the record becomes what leaving the current step saves |
| Wizard.Demo.UpdateStepSpecificContent | js/demo.js:192-201 | the page gets the preview on step 10 and the summary on step 12; on step 4 the impact timer starts exactly when the total is positive |
| Wizard.Demo.StartImpactAnimation | js/demo.js:371-409 | the impact timer runs afterwards exactly when the monthly total is positive, from zero days |
| Wizard.Demo.ImpactTick | js/demo.js:394-407 | the impact timer moves as one impact firing does |
| Wizard.Demo.StartOfferCountdown | js/demo.js:650-663 | the countdown runs afterwards exactly when its element exists, from 600 seconds |
| Wizard.Demo.OfferTick | js/demo.js:665-688 | the offer timer and its display move as one offer firing does |
| Wizard.Demo.RestartDemo | js/demo.js:808-863 | step 1 with both timers stopped, the identity inputs refilled where present, the grid reset to the defaults, custom entries forgotten, the total recomputed, and the rest of the record kept |
| Wizard.Demo.ToggleSubscription | js/demo.js:211-233 | a card without a box changes nothing; otherwise the box flips, the name is listed exactly when now checked, and the total follows the cards |
| Wizard.Demo.AddCustomSubscription | js/demo.js:236-296 | the outcome is the verdict on the inputs; only a success changes anything, appending a checked card and the entry to both lists, clearing the inputs and raising the total by the price |
| Wizard.Demo.SelectTemplate | js/demo.js:412-418 | only the record's template changes |
| Wizard.Demo.TogglePhoto | js/demo.js:421-437 | the tile flips, and its caption (or "Photo") is listed exactly when the tile is now selected |
| Wizard.Demo.SaveAchievements | js/demo.js:449-469 | each category becomes the kept entries of its inputs, or empty when its element is missing, and nothing else changes |
| Wizard.Demo.SelectTone | js/demo.js:497-526 | the tone is recorded; with the preview element present, the preview shows the tone's passage, which also replaces an uncustomised message |
| Wizard.Demo.EnhanceMessage | js/demo.js:921-935 | with the message field present, it is marked customised and gets the postscript appended; otherwise nothing changes |

## Left out

- Rendering: step visibility, CSS classes, inline styles, `innerHTML` markup, `scrollToTop` and `updatePhotoCount`. The memorial preview and the summary are kept as the values they display.
- The progress bar width, `animateCounter` and `updateImpactDisplay`.
- The dollar amount the impact counter prints is left out because it is floating point (`toFixed`). The day count is modelled.
- Wall-clock time:
  - a firing of an interval is one call of a tick method, and nothing models when it fires;
  - the 500 ms delay in `enhanceMessage` is modelled as immediate;
  - the 2 s reset of the e-mail border is not modelled.
- Floating-point prices: prices are whole cents, and `parseFloat` is a parameter that returns cents or not-a-number. Sub-cent prices and `toFixed` rounding are not modelled.
- `localStorage` writes in `saveCurrentStepData` and `saveAchievements`, and the `beforeunload` handler. Neither changes the modelled state.
- `checkAuthentication`, the session guard run on load, because it redirects away from the page.
- The Enter-key handler, which only calls `nextStep`.
- `goToMainSite`, `signUp`, `showMemorialSection`, `simulateMemoryAdd` and `showFeatureDetails`, because they build or navigate markup only.
- `addAchievement` and `removeAchievement`: their only effect on the modelled state is through the inputs that `saveAchievements` reads. Both can rewrite the achievements outside step 8: `removeAchievement` calls `saveAchievements` itself (js/demo.js:492), and each input `addAchievement` creates calls it on blur (js/demo.js:480). `Wizard.Demo.SaveAchievements` is that call, whatever the step.
- Typing by the visitor is not modelled. The page value holds whatever the inputs contain.
- Whitespace and case are ASCII only. `trim`, `\s` and `toLowerCase` on other Unicode characters are not modelled.
- Wizard.Page: each grid card is assumed to carry its name element.
  - A card with a checkbox but no name element is skipped by `restartDemo`; the model resets it.
  - The preview and summary elements are assumed present; the script checks each of them separately.
- Composer.ToneMessage: JavaScript object-prototype keys such as "constructor" are not modelled; they would look up inherited members in the tone table and the emoji table.
- Wizard.Demo.AddCustomSubscription: the name is taken as plain text. The script writes it into the new card's name element through `innerHTML`, and `restartDemo` compares that element's parsed text. A name holding markup such as `<b>Netflix</b>` reads as "Netflix" there, but the model compares the name as typed.
