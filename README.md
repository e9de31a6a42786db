# Habit builder and rank badge — a Dafny model

This project models two pieces of logic in the MoodBuddy app:

- the in-memory editing of the habit list in the `HabitBuilder` component
  (add a habit from the text input, remove habits by name, toggle the
  completion flag of habits by name), together with the input text and the
  "Add Habit" dialog flag that adding resets;
- the rank badge's classification of a streak length into one of five tiers
  (Default, Stone, Silver, Gold, Platinum) and the colour of each tier.

Files:

- `js_string.dfy` (module `JsString`): JavaScript white space, `trim`, and
  the blank-input test that add relies on.
- `habit_list.dfy` (module `HabitList`): the `Habit` record and the pure list
  transformations behind the three handlers (spread-append, `filter`, `map`),
  with lemmas about them.
- `habit_builder.dfy` (module `HabitComponent`): class `HabitBuilder`, whose
  fields are the component's state (`habitList`, `text`, `showConfirmation`)
  and whose methods are the three list handlers (add, remove, toggle) and the
  three plain setters of the view (typing into the input, opening and closing
  the dialog). Each list handler assigns the result of a `HabitList` function
  to `habitList`; each setter assigns one field. React schedules a state
  update for the next render; the model assigns at once.
- `rank_badge.dfy` (module `RankBadge`): the tier datatype, the threshold
  chain of `getBadgeColor`, and the tier colours.

Names are not unique in the habit list. Add does not check for an existing
habit with the same name. Remove and toggle act on every habit with the given
name. The model keeps this behaviour: the `filter` at
components/HabitBuilder.tsx:66 drops every habit with the name, not only the
first.

## Model

| member | source | states |
|---|---|---|
| `JsString.IsWhiteSpace` | components/HabitBuilder.tsx:56 | among ASCII characters exactly tab, LF, VT, FF, CR and space are white space; no ASCII letter or digit is |
| `JsString.Trim` | components/HabitBuilder.tsx:56 | `text.trim()`: the result neither starts nor ends with white space (with TrimStart, TrimEnd, TrimIsInfix and TrimEmptyIffBlank: it is the input with its leading and trailing white space cut off, and empty exactly when the input is blank) |
| `JsString.TrimStart` | components/HabitBuilder.tsx:56 | the result is a suffix of the input; everything dropped is white space; the result is empty or starts with a non-white-space character |
| `JsString.TrimEnd` | components/HabitBuilder.tsx:56 | the result is a prefix of the input; everything dropped is white space; the result is empty or ends with a non-white-space character |
| `JsString.TrimEmptyIffBlank` | components/HabitBuilder.tsx:56 | `text.trim()` is `""` exactly when every character of `text` is white space (both directions) |
| `JsString.TrimIsInfix` | components/HabitBuilder.tsx:56 | trimming only removes characters at the ends: the result is a contiguous slice of the input |
| `JsString.TrimIdempotent` | components/HabitBuilder.tsx:56 | trimming an already trimmed string changes nothing |
| `HabitList.CountNamed` | components/HabitBuilder.tsx:13-16 | the number of habits with a name is at most the list length, and is zero exactly when no habit has that name |
| `HabitList.Removed` | components/HabitBuilder.tsx:66 | the filtered list is no longer than the original, holds no habit with the removed name, and holds only habits of the original |
| `HabitList.Toggled` | components/HabitBuilder.tsx:72-78 | the mapped list has the same length and names; each habit with the name has its flag negated and every other flag is unchanged |
| `HabitList.CountNamedAppend` | components/HabitBuilder.tsx:13-16 | counting habits with a name distributes over concatenation |
| `HabitList.Added` | components/HabitBuilder.tsx:57-58 | the spread-append makes the list one longer, keeps every earlier habit at its position, and puts `{name, completed: false}` last |
| `HabitList.AddedDuplicates` | components/HabitBuilder.tsx:57-58 | adding a name already present adds one more, separate entry with that name; the counts of other names do not change |
| `HabitList.RemovedAppend` | components/HabitBuilder.tsx:66 | removal acts on each part of a concatenation separately, so the survivors keep their original order |
| `HabitList.RemovedOccurrences` | components/HabitBuilder.tsx:66 | after removal a habit with the removed name occurs zero times, and every other habit occurs exactly as often as before |
| `HabitList.RemovedLength` | components/HabitBuilder.tsx:66 | removal shortens the list by exactly the number of habits with that name |
| `HabitList.RemovedAbsent` | components/HabitBuilder.tsx:66 | removing a name that no habit has leaves the list unchanged |
| `HabitList.RemovedIdempotent` | components/HabitBuilder.tsx:66 | removing the same name twice is the same as removing it once |
| `HabitList.ToggledNames` | components/HabitBuilder.tsx:72-78 | toggling keeps the sequence of names |
| `HabitList.ToggledInvolution` | components/HabitBuilder.tsx:73-77 | toggling the same name twice restores the original list |
| `HabitList.ToggledAbsent` | components/HabitBuilder.tsx:73-77 | toggling a name that no habit has leaves the list unchanged |
| `HabitList.ToggledCommute` | components/HabitBuilder.tsx:73-77 | toggles of two names can be applied in either order |
| `HabitList.RemovedAfterToggled` | components/HabitBuilder.tsx:66-77 | removing a name after toggling it gives the same list as removing it directly |
| `HabitComponent.HabitBuilder.constructor` | components/HabitBuilder.tsx:23-25 | the component starts with an empty list, empty input text and the dialog closed |
| `HabitComponent.HabitBuilder.AddHandler` | components/HabitBuilder.tsx:55-62 | blank input leaves list, text and dialog flag unchanged; otherwise the untrimmed text is appended as an uncompleted habit after the unchanged old list, the text becomes `""` and the dialog closes |
| `HabitComponent.HabitBuilder.SetText` | components/HabitBuilder.tsx:121 | typing replaces `text` with the typed string and changes nothing else |
| `HabitComponent.HabitBuilder.OpenDialog` | components/HabitBuilder.tsx:142 | the "Add a habit" button opens the dialog and changes nothing else |
| `HabitComponent.HabitBuilder.CloseDialog` | components/HabitBuilder.tsx:127 | closing the dialog (the Cancel button here, and the same setter on the request to close at line 105) sets `showConfirmation` to false and keeps the typed text and the list |
| `HabitComponent.HabitBuilder.RemoveHandler` | components/HabitBuilder.tsx:65-68 | the new list is the filtered old list; it is shorter by the number of habits with the name, holds none of them, and equals the old list if the name was absent; text and dialog flag do not change |
| `HabitComponent.HabitBuilder.ToggleCompletion` | components/HabitBuilder.tsx:71-79 | the new list has the same length; each habit with the name has its flag negated, every other habit is unchanged, and an absent name changes nothing |
| `RankBadge.Level` | app/components/RankBadge.tsx:16-20 | every tier has a level from 0 to 4; the body numbers them Default < Stone < Silver < Gold < Platinum, and BadgeTierIsHighestReached checks that order against the thresholds |
| `RankBadge.BadgeTier` | app/components/RankBadge.tsx:15-21 | streak >= 30 is Platinum, 20..29 Gold, 10..19 Silver, 5..9 Stone, and below 5 (zero and negatives included) Default, each as an if-and-only-if, so every streak has exactly one tier |
| `RankBadge.BadgeTierIsHighestReached` | app/components/RankBadge.tsx:16-20 | the tier of a streak is the highest tier whose threshold it meets: it meets every tier up to its own and no tier above |
| `RankBadge.BadgeTierMonotone` | app/components/RankBadge.tsx:16-20 | a longer streak never gets a lower tier |
| `RankBadge.TierColor` | app/components/RankBadge.tsx:16-20 | every tier colour is a seven-character string: `#` followed by six hexadecimal digits |
| `RankBadge.TierColorInjective` | app/components/RankBadge.tsx:16-20 | two tiers share a colour exactly when they are the same tier |
| `RankBadge.GetBadgeColor` | app/components/RankBadge.tsx:15-21 | each of the five colours is returned exactly for its range of streaks |

## Left out

- Loading and saving the habit list with AsyncStorage, including JSON
  encoding (components/HabitBuilder.tsx:28-52). This is I/O through a
  library. The possible race, where the save effect stores `[]` before the
  load finishes, is concurrency and is not modelled either.
- All JSX rendering and style sheets. The inline event handlers that change
  state are modelled as `SetText`, `OpenDialog` and `CloseDialog`;
  `toggleCompletion` is defined but no rendered control calls it, and it is
  modelled all the same.
- `streak` is modelled as an unbounded integer. JavaScript numbers that are
  not integers (fractions, NaN, infinities) are not modelled.
- `JsString.IsWhiteSpace` uses a fixed set of white-space and line-terminator
  code points: the JavaScript WhiteSpace and LineTerminator characters, with
  the Unicode space separators of the current Unicode version listed
  explicitly. A later Unicode version that adds a space separator would not be
  covered.
- The home screen's habit logic in app/(tabs)/index.tsx is outside this
  model's scope: the backward day-by-day streak count, which stops once the count passes 365
  and so returns at most 366
  (app/(tabs)/index.tsx:24-47), the daily reset of completion flags
  (app/(tabs)/index.tsx:85-98), and its own toggle by index that writes a
  completed or partial day mark (app/(tabs)/index.tsx:101-121). None of this
  is in components/HabitBuilder.tsx or app/components/RankBadge.tsx.
- The chatbot's classification cascade in app/(tabs)/chatbot.js:22-46
  (crisis keywords, then a rule table, then a remote AI call) is outside this
  model's scope.
- The streak that the rank badge shows on the achievements screen comes from
  a static JSON file that is not part of this model.
- app/components/Badge.tsx and app/+not-found.tsx only present data and are
  not modelled.
