# Couples: partner editor and idea lists, modelled in Dafny

Couples is a mobile app in which one keeps profiles of partners (names,
anniversaries, likes and dislikes, contact details) and browses lists of
date ideas. This project models the parts of its screens that carry logic
rather than layout:

- the data model of `src/types.ts`: activities, anniversaries, preferences,
  partners with their four-valued `preferredName` selector, and the two
  constant catalogues (`types.dfy`, module `Types`);
- the phone-number formatter of the partner editor, which keeps at most ten
  digits grouped as `XXX-XXX-XXXX` (`phone_format.dfy`, module `PhoneFormat`);
- the partner editor's state: a partner draft (`Partial<Partner>`) plus the
  pending anniversary and preference inputs, with one method per event
  handler, and the ids handed to the save and delete callbacks
  (`partner_modal.dfy`, module `PartnerModal`, class `PartnerModal`);
- the idea list: adding a custom activity when the input is not blank, and
  the list shown, predefined entries first (`ideas_screen.dfy`, module
  `Ideas`, class `IdeasScreen`);
- the heading of a partner's idea list, chosen by the partner's
  `preferredName` (`partner_ideas_screen.dfy`, module `PartnerIdeas`);
- the bits of JavaScript string behaviour these rely on: the `\d` class,
  `String.prototype.trim` and the decimal text of `Date.now()`
  (`js_text.dfy`, module `JsText`), and `Option` for absent values
  (`wrappers.dfy`).

Component state (`useState`) becomes the fields of a class; each handler is
a method that reassigns exactly the fields its `modifies` clause names.
Callbacks passed in as props (`onSave`, `onDelete`) become the values a
method returns. The clock (`new Date()`, `Date.now()`) and the date picker
are parameters. Each handler is modelled as running on the state left by
the previous one, which is how React presents it between user events.

## Model

| member | source | states |
|---|---|---|
| `Types.PredefinedActivities` | src/types.ts:7-18 | ten activities; no id starts with `c` (the prefix of custom ids) and none has category `custom` |
| `Types.PredefinedIdsDistinct` | src/types.ts:7-18 | the predefined ids are pairwise distinct, as the row keys of src/screens/IdeasScreen.tsx:42 need |
| `Types.ParseNameField` | src/types.ts:36 | exactly the four literals `firstName`, `lastName`, `nickName`, `intimateName` denote a name field, and each denotes the field whose key it is |
| `Types.NameFieldKeyRoundTrip` | src/types.ts:30-36 | every name field's key reads back as that field, and distinct fields have distinct keys |
| `Types.CommonPreferences` | src/types.ts:45-54 | eight preference names, pairwise distinct (they key picker items at src/screens/PartnerModal.tsx:210-212) |
| `JsText.LeadingBlanks` | src/screens/IdeasScreen.tsx:15 | the count of leading characters that are white space: all of them are, and the next one (if any) is not |
| `JsText.TrailingBlanks` | src/screens/IdeasScreen.tsx:15 | the count of trailing characters that are white space: all of them are, and the one before them (if any) is not |
| `JsText.TrimCut` | src/screens/IdeasScreen.tsx:15 | cutting a white-space prefix and suffix at the first and last non-space leaves a trim of the string |
| `JsText.Trim` | src/screens/IdeasScreen.tsx:15 | the result is the input with a blank prefix and a blank suffix removed (a slice of the input at some offset k, everything before k and after the slice white space); a non-empty result starts and ends with a non-space |
| `JsText.TrimEmptyIffBlank` | src/screens/IdeasScreen.tsx:15 | `s.trim()` is empty (falsy) exactly when `s` is made of white space only |
| `JsText.DecimalString` | src/screens/IdeasScreen.tsx:17 | the text of a timestamp is non-empty, all digits, with no leading zero |
| `JsText.DecimalRoundTrip` | src/screens/IdeasScreen.tsx:17 | reading the decimal text back yields the number |
| `JsText.DecimalStringInjective` | src/screens/IdeasScreen.tsx:17 | two numbers have the same decimal text exactly when they are equal |
| `PhoneFormat.Digits` | src/screens/PartnerModal.tsx:72 | the result has only ASCII digits and is no longer than the input |
| `PhoneFormat.DigitsAppend` | src/screens/PartnerModal.tsx:72 | removing non-digits from a concatenation is removing them from each part |
| `PhoneFormat.DigitsOfDigitString` | src/screens/PartnerModal.tsx:72 | a string of digits is kept whole |
| `PhoneFormat.DigitsOfNonDigit` | src/screens/PartnerModal.tsx:72 | a non-digit character is removed |
| `PhoneFormat.DigitsAroundDash` | src/screens/PartnerModal.tsx:72 | removing non-digits from two pieces joined by a dash removes the dash |
| `PhoneFormat.DigitsOfTwoGroups` | src/screens/PartnerModal.tsx:74 | deleting the dash of `XXX-XXX` gives the digits back |
| `PhoneFormat.DigitsOfThreeGroups` | src/screens/PartnerModal.tsx:75 | deleting the dashes of `XXX-XXX-XXXX` gives the digits back |
| `PhoneFormat.GroupDigits` | src/screens/PartnerModal.tsx:73-75 | from the extracted digits: only digits and dashes; with n the kept digit count (at most 10), no dash for n at most 3, one dash at index 3 for n from 4 to 6, dashes at indices 3 and 7 from 7 on |
| `PhoneFormat.GroupKeepsDigits` | src/screens/PartnerModal.tsx:73-75 | deleting the dashes of a grouping gives the first min(n, 10) digits in order |
| `PhoneFormat.FormatPhoneNumber` | src/screens/PartnerModal.tsx:71-76 | output has only digits and `-`, is at most 12 characters (the phone field's `maxLength`, line 245), and has its dashes exactly at index 3 when more than 3 digits are kept and at index 7 when more than 6 are |
| `PhoneFormat.FormatKeepsDigits` | src/screens/PartnerModal.tsx:72-75 | deleting the dashes of the output yields exactly the first min(n, 10) digits of the input, in their order |
| `PhoneFormat.FormatIdempotent` | src/screens/PartnerModal.tsx:71-76 | formatting an already formatted number returns it unchanged |
| `PartnerModal.WithText` | src/screens/PartnerModal.tsx:103-261 | the edited text field holds the typed text; the other text fields, id, preferred name, phone and lists are unchanged |
| `PartnerModal.WithAnniversary` | src/screens/PartnerModal.tsx:51-56 | the anniversary list (empty when absent) gains exactly one entry, at the end; earlier entries keep their place; no other field changes |
| `PartnerModal.WithPreference` | src/screens/PartnerModal.tsx:62-67 | the preference list (empty when absent) gains exactly one entry, at the end; earlier entries keep their place; no other field changes |
| `PartnerModal.ForwardedId` | src/screens/PartnerModal.tsx:83-93 | an id is forwarded exactly when editing and the draft's id is present and non-empty, and then it is that id |
| `PartnerModal.PartnerModal.constructor` | src/screens/PartnerModal.tsx:38-44 | the draft is the `partner` prop; picker hidden, pending names empty, pending date is today, no date shown, polarity "likes" |
| `PartnerModal.PartnerModal.SyncPartner` | src/screens/PartnerModal.tsx:46-49 | a new `partner` prop replaces the draft; nothing else changes |
| `PartnerModal.PartnerModal.SetText` | src/screens/PartnerModal.tsx:103-261 | typing into a name input (lines 108-129), the email (234), address (252) or notes (261) input stores the text in that field only |
| `PartnerModal.PartnerModal.SetPreferredName` | src/screens/PartnerModal.tsx:131-143 | the chosen name field becomes `preferredName`; nothing else changes |
| `PartnerModal.PartnerModal.SetNewAnniversaryName` | src/screens/PartnerModal.tsx:151-169 | the pending anniversary name is the picked or typed text |
| `PartnerModal.PartnerModal.OpenDatePicker` | src/screens/PartnerModal.tsx:170-174 | the date picker is shown |
| `PartnerModal.PartnerModal.PickDate` | src/screens/PartnerModal.tsx:185-191 | the picker hides; a chosen date becomes the pending and the shown date; a dismissal keeps both |
| `PartnerModal.PartnerModal.AddAnniversary` | src/screens/PartnerModal.tsx:51-60 | one `{name, date}` is appended to the draft's anniversaries (via `WithAnniversary`), the pending name is reset to `''`, the shown date to none, the picker hidden |
| `PartnerModal.PartnerModal.SetNewPreference` | src/screens/PartnerModal.tsx:203-220 | the pending preference name is the picked or typed text |
| `PartnerModal.PartnerModal.ToggleLike` | src/screens/PartnerModal.tsx:221-225 | the pending polarity flips |
| `PartnerModal.PartnerModal.AddPreference` | src/screens/PartnerModal.tsx:62-69 | one `{name, isLike}` is appended to the draft's preferences (via `WithPreference`), and the pending name is cleared |
| `PartnerModal.PartnerModal.HandlePhoneChange` | src/screens/PartnerModal.tsx:78-81 | the draft's phone becomes the formatted input; nothing else changes |
| `PartnerModal.PartnerModal.HandleSave` | src/screens/PartnerModal.tsx:83-85 | the draft is handed on as it stands, with an id exactly when editing and the id is present and non-empty |
| `PartnerModal.PartnerModal.HandleDelete` | src/screens/PartnerModal.tsx:87-94 | `onDelete` fires exactly when editing and the id is non-empty, with that id, and otherwise nothing happens |
| `Ideas.CustomId` | src/screens/IdeasScreen.tsx:17 | a custom id starts with `c` |
| `Ideas.CustomIdInjective` | src/screens/IdeasScreen.tsx:17 | two custom ids coincide exactly when they were made at the same millisecond |
| `Ideas.AllActivities` | src/screens/IdeasScreen.tsx:26 | the list is as long as both parts together, starts with the predefined catalogue and ends with the custom entries |
| `Ideas.AllActivitiesKeysDistinct` | src/screens/IdeasScreen.tsx:26-42 | if the custom ids are distinct and start with `c`, every row key of the whole list is unique; the distinctness of the custom ids is a condition, not a guarantee of the screen |
| `Ideas.AppendKeepsIdsDistinct` | src/screens/IdeasScreen.tsx:16-21 | appending an entry made at time `now` to entries with distinct ids keeps them distinct exactly when no earlier entry has the id `CustomId(now)` |
| `Ideas.RepeatedTimeDuplicatesKey` | src/screens/IdeasScreen.tsx:14-24 | two adds that read the same `Date.now()` append two entries with the same id, so the whole list's row keys (line 42) are not unique |
| `Ideas.IdeasScreen.constructor` | src/screens/IdeasScreen.tsx:10-12 | the input is empty and there are no custom activities |
| `Ideas.IdeasScreen.SetCustomActivity` | src/screens/IdeasScreen.tsx:46-51 | the input holds the typed text |
| `Ideas.IdeasScreen.AddCustomActivity` | src/screens/IdeasScreen.tsx:14-24 | a blank input leaves list and input unchanged; otherwise exactly one activity (id `c` + time, the untrimmed input as name, category `custom`) is appended after the earlier ones and the input becomes `''`; every custom entry stays well formed; distinct ids stay distinct when no earlier entry has the new id |
| `PartnerIdeas.Title` | src/screens/PartnerIdeasScreen.tsx:7-9 | always ends with `'s Ideas`; with no partner it is `Partner's Ideas`; otherwise what precedes the suffix is the field `preferredName` selects |
| `PartnerIdeas.TitleOfUnnamedPartner` | src/screens/PartnerIdeasScreen.tsx:8 | an empty selected name gives the heading `'s Ideas`, without failure |
| `PartnerIdeas.TitleDeterminedByName` | src/screens/PartnerIdeasScreen.tsx:8 | two partners get the same heading exactly when their display names are equal |

## Left out

- Rendering: the modal, text inputs, pickers, the date picker widget, lists, buttons, style sheets and the light and dark palettes (`src/theme/light.ts`, `src/theme/dark.ts`) are layout without behaviour.
- `src/ThemeContext.tsx` (secure-store I/O and the system appearance listener), `src/PartnerContext.tsx` (one nullable value with a setter) and `App.tsx` (navigation) are not part of this model; the selected partner enters `PartnerIdeas.Title` as a parameter.
- Partner persistence (create, update, delete against a store, serialisation) and a next-anniversary computation do not appear in these source files and are not part of this model.
- Dates: a JavaScript `Date` is an instant; it is modelled as a calendar day (year, month, day). `toDateString`, which renders it by locale, is not modelled.
- The clock: `new Date()` and `Date.now()` are parameters of the constructor and of `AddCustomActivity`.
- `JsText.DecimalString` models the decimal text of a non-negative integer; JavaScript's exponent notation for numbers of 10^21 and more is not modelled.
- Ideas.AllActivitiesKeysDistinct: unique row keys are proved only under the condition that no two custom entries were added at the same `Date.now()`; the source does not enforce it, and a clock that repeats a value (set back, say) gives two rows the same key at src/screens/IdeasScreen.tsx:42 (`Ideas.RepeatedTimeDuplicatesKey`).
- Logging: the `console.log` calls of `handleDelete`.
- The anniversary-name picker's preset values (`First Met`, `First Dine Out`, `First Sex`, `Married`) are picker items only; `SetNewAnniversaryName` accepts any text, as the text input next to it does.
- `isEditing` is a prop read on every render; the model fixes it for the life of the editor, so a prop change is a new `PartnerModal`.
- `useEffect`'s `[partner]` dependency compares objects by reference; `SyncPartner` models the effect firing, not the reference comparison.
- Characters: JavaScript strings are UTF-16 code units and Dafny's `char` is a Unicode scalar value; the digit and white-space tests only involve characters that are one code unit.
