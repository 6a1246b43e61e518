# Form validation and page statistics of a photo-gallery front end

This project models the logic of a browser photo gallery in Dafny. The gallery shows cards: an image, a title and a like count.

- **Validation** models live form validation. Each form is a list of fields plus one submit button. Each field has an error element: the element that follows it in the markup. On every input event, the field's error is shown or hidden according to the validity the browser reports. Then the submit button is disabled, and styled as inactive, exactly while some field of the form is invalid. `clearValidation` wipes every error display and disables the button, whatever the fields' validity. DOM nodes are Dafny objects. The operations change their class sets (`set<string>`), their text and the button's `disabled` flag in place. Each operation's contract gives the new state as a function of the old one: `WithError`, `WithoutError`, `Checked`, `Disabled`, `Enabled`. Those functions state which class is added or removed and that every other class is kept.
- **Statistics** models the data part of the statistics popup opened from the logo. It sorts a copy of the card list newest first, using an in-place insertion sort on a fresh array, so the caller's list keeps its order. It builds the per-owner map in a loop, counts the users and takes the largest count. Timestamps are integers.
- **Page** models two handler details. The first is the continuation run when a like or unlike request answers: the like count shown, and whether the like button is active. The second is the label rule of `renderLoading`.
- **Wrappers** holds `Option` and `Result`.

Two behaviours of the code are worth stating plainly:

- A form without a submit button does not degrade silently. `toggleButtonState` and `clearValidation` read `null.classList` and throw a `TypeError` (src/scripts/components/validation.js:40, 45, 87). `enableValidation` stops at that form, so later forms are never set up. `SetEventListeners`, `ClearValidation` and `EnableValidation` model this failure path.
- `clearValidation` forces the button disabled even when every field is valid. So the mirror between the button and "some field invalid" is proved only after `setEventListeners` and after every input event.

External inputs are given as data:

- The browser's constraint-validation result (`validity.valid`, `validity.patternMismatch`, `validationMessage`) and the `data-error-message` attribute are fields of each input object. The browser updates them; no operation here writes them, and each contract says so.
- An absent `data-error-message` is `None`. Assigning `undefined` to `textContent` leaves the empty text, so `None` is shown as `""`.
- The cards, the updated like list and the current user's id are parameters.

## Model

| member | source | states |
|---|---|---|
| Validation.AttributeText | src/scripts/components/validation.js:11-15 | a present `data-error-message` is shown as written; an absent one (`undefined` assigned to `textContent`) is shown as the empty text |
| Validation.ErrorMessage | src/scripts/components/validation.js:8-12 | on a pattern mismatch the message is the field's custom message (empty when the attribute is absent); otherwise it is the native validation message |
| Validation.WithError | src/scripts/components/validation.js:14-16 | the field gains the input-error class, its error element gains the error class and shows the given message; every other class of either is kept |
| Validation.WithoutError | src/scripts/components/validation.js:22-24 | the field loses the input-error class, the error element loses the error class and its text is empty; every other class is kept |
| Validation.HideIdempotent | src/scripts/components/validation.js:19-25 | hiding an error twice gives the same display as hiding it once |
| Validation.ShowAfterShow | src/scripts/components/validation.js:5-17 | showing an error again keeps the classes and replaces the text with the newer message |
| Validation.Checked | src/scripts/components/validation.js:27-33 | both error classes are present exactly when the field is invalid; the text is empty for a valid field; otherwise it is the custom message on a pattern mismatch and the native message in every other case; other classes are kept |
| Validation.Disabled | src/scripts/components/validation.js:39-42 | the button is disabled and has the inactive class; its other classes are kept |
| Validation.Enabled | src/scripts/components/validation.js:44-47 | the button is enabled and lacks the inactive class; its other classes are kept |
| Validation.HasInvalidInput | src/scripts/components/validation.js:35-37 | true exactly when some field of the list reports itself invalid |
| Validation.ToggledState | src/scripts/components/validation.js:49-55 | the toggled button is disabled, and has the inactive class, exactly when some field is invalid; its other classes are kept |
| Validation.ShowInputError | src/scripts/components/validation.js:5-17 | the field and its error element end in the `WithError` display, with the message chosen from the field's pattern-mismatch flag; validity is untouched |
| Validation.HideInputError | src/scripts/components/validation.js:19-25 | the field and its error element end in the `WithoutError` display; validity is untouched |
| Validation.CheckInputValidity | src/scripts/components/validation.js:27-33 | the field's display becomes `Checked` of its own validity; only that field and its own error element change |
| Validation.DisableSubmitButton | src/scripts/components/validation.js:39-42 | the button becomes `Disabled` of its previous state |
| Validation.EnableSubmitButton | src/scripts/components/validation.js:44-47 | the button becomes `Enabled` of its previous state |
| Validation.ToggleButtonState | src/scripts/components/validation.js:49-55 | afterwards the button is disabled and has the inactive class exactly when some field is invalid; other classes are kept |
| Validation.SetEventListeners | src/scripts/components/validation.js:57-65 | succeeds exactly when the form has a button; the button then mirrors "some field invalid" |
| Validation.InputHandler | src/scripts/components/validation.js:67-71 | the typed-in field shows `Checked` of its validity; every other field's display and every validity are unchanged; the button then mirrors "some field invalid" |
| Validation.ClearValidation | src/scripts/components/validation.js:75-88 | every field ends with empty error text and both error classes removed, whatever its validity; validity is unchanged; with a button present, the button ends disabled with the inactive class |
| Validation.EnableValidation | src/scripts/components/validation.js:90-98 | forms are set up in order up to the first without a button; every form set up has its button mirroring its fields, toggled from its previous state with its other classes kept; the buttons of the remaining forms are untouched |
| Statistics.SortNewestFirst | src/scripts/index.js:103-105 | the sorted copy is ordered by creation time, newest first, and is a permutation of the cards |
| Statistics.SortedEnds | src/scripts/index.js:103-119 | the first card of the sorted copy has the largest creation time of all cards and the last one the smallest; both are cards of the list |
| Statistics.CountByOwner | src/scripts/index.js:121-132 | the loop's map and key order are those of the per-owner tally of all the cards |
| Statistics.KeysOfTally | src/scripts/index.js:121-134 | the map's keys, in insertion order, list each owner id once, and they are exactly the owner ids found on the cards |
| Statistics.TallyCounts | src/scripts/index.js:123-132 | an owner's count is the number of cards that owner has, so it is at least 1 |
| Statistics.TallyNames | src/scripts/index.js:124-130 | an owner's entry keeps the name from that owner's first card; later cards never overwrite it |
| Statistics.CountsSumToCards | src/scripts/index.js:121-134 | the counts of all users add up to the number of cards |
| Statistics.UserCountIsOwnerCount | src/scripts/index.js:134-138 | the number of users is the number of distinct owner ids among the cards |
| Statistics.UsersInInsertionOrder | src/scripts/index.js:134 | the user list has one entry per distinct owner id, and entry i is the map's value for the i-th id in first-seen order |
| Statistics.MaxCount | src/scripts/index.js:140 | the maximum is at least every user's count and equals one of them |
| Statistics.ComputeStatistics | src/scripts/index.js:96-144 | fails exactly on an empty card list; otherwise reports the card count, the oldest and newest creation times (the minimum and the maximum), the users in insertion order, the number of distinct owners, counts summing to the card count, each at least 1, and their maximum |
| Page.LikedBy | src/scripts/index.js:266 | true exactly when some like's user id equals the current user's id |
| Page.DecimalString | src/scripts/index.js:264 | the shown like count is a non-empty string of decimal digits; it starts with `0` only for zero, which is shown as the single digit `0` |
| Page.DecimalRoundTrip | src/scripts/index.js:264 | reading the shown digits back gives the number of likes |
| Page.DecimalInjective | src/scripts/index.js:264 | different like counts are shown as different texts |
| Page.ApplyLikeResponse | src/scripts/index.js:259-270 | the like count shows the length of the updated like list; the button has the active class exactly when the current user is among the likes; its other classes are kept |
| Page.RenderLoading | src/scripts/index.js:87-89 | the button reads "Сохранение..." while loading and its own label otherwise |

## Left out

- DOM querying (`querySelectorAll`, `querySelector`, `nextElementSibling`, `closest`) and listener registration are not modelled. A form is an object holding its fields in document order and its button, or null. Each field holds its error element. `InputHandler` is the body of the listener registered on one field. The selectors in `Settings` are carried but not used.
- Markup in which a field's next sibling is another field is not modelled. Field and error element are different classes.
- A field with no next element sibling is not modelled: the error element is never null. In the source, `showInputError` and `hideInputError` then throw after the field's own class has changed (src/scripts/components/validation.js:14-15, 22-23). The input handler then never reaches `toggleButtonState`, and `clearValidation` stops before the later fields and the button.
- Calling `enableValidation` twice, which registers the listeners twice, is not modelled.
- The exception that `classList.add` and `classList.remove` throw for an empty or whitespace-holding class name is not modelled. The class-changing operations require `Settings.WellFormed()` instead. The application's own class names are proper tokens.
- How the browser computes `validity` and `validationMessage` from `required`, `pattern`, `type` and length is not modelled; these are inputs.
- The network calls, the promise plumbing (`Promise.all`, `.then`, `.catch`, `.finally`) and `console.log` are not modelled. Only the continuation bodies are modelled.
- The modal helpers, template cloning, `createInfoString`, `createUserPreview` and the rendering of the statistics as text are not modelled.
- `Date` parsing and `toLocaleDateString` formatting are not modelled. Creation times are integers, used only for ordering. A date string that parses to `NaN`, which makes the comparator inconsistent, is not modelled.
- ComputeStatistics: the error path does not record that the title and the "Всего карточек:" row are already written before the `TypeError`; it only reports that the popup is not opened.
- ComputeStatistics: an owner id that names a property inherited by plain objects (such as `constructor` or `__proto__`) is not modelled. For such an id, `!usersMap[userId]` is false before any entry exists. The model treats every id as a fresh key.
- ComputeStatistics: `Object.values` lists integer-like keys first, in numeric order. The model lists the users in insertion order, which is the order for the non-numeric ids the API issues.
- `Math.max` of an empty list (`-Infinity`) is not modelled, because it cannot be reached: an empty card list fails earlier.
- The first half of `handleLikeCard` (reading the active class to choose between like and unlike) is not modelled; it is only a network request.
- Delete-button decisions and the like membership check in `src/scripts/components/card.js` are not modelled. The like check is the same predicate as `Page.LikedBy`.
- A `currentUserId` that is still undefined because the initial requests have not answered is not modelled; the id is a string parameter.
- The submit handlers and the profile, avatar and card form wiring (`src/scripts/index.js:168-303`) are not modelled. They assign text around network calls. Only `renderLoading`, which they call, is modelled; the `clearValidation` they call is `Validation.ClearValidation`.
