# team-mee: the roster page and the random picker, in Dafny

This project models the two pieces of list-keeping logic of the team-mee web
app, a bilingual (Arabic/English) tool for keeping a roster of members and
drawing lots.

* **The random picker** (`pages/PickPage.tsx`): a page holding a list of
  options, an input field, a busy flag and the last result. Adding trims the
  input and refuses empty or duplicate options. Removing drops one position.
  Picking needs at least two options and draws one at random. Reset clears
  the list and the result. It is the class `Pick.PickPage`. Its invariant
  `Valid()` says the options are distinct, non-empty and trimmed, and every
  method keeps it.
* **The roster page** (`pages/MembersPage.tsx`). Its pure parts are
  functions: the case-insensitive name search, the five-star rating
  `ceil(level / 2)`, and the role label and icon with their fallbacks. The
  add-member form is the class `Members.MembersPage`, holding the roster, the
  search term, the form's open flag and its draft member.

Supporting modules:

* `JsString` models the JavaScript builtins these pages call.
  `String.prototype.trim` uses the exact ECMAScript set of white-space and
  line-terminator characters. `String.prototype.toLowerCase` maps the ASCII
  capitals only. `String.prototype.includes` is a substring test.
* `Types` holds `Role` and `Member` from `types.ts`.
* `Constants` holds the role tables from `constants.tsx`: the icon table, the
  role picker's choices and the Arabic and English role labels. Each table is
  a finite map keyed by the raw role string, as in the source.

Sources of nondeterminism become parameters:

* `Math.random()` becomes a real `rnd` in `[0, 1)`. The drawn position is
  `Floor(rnd * n)`, proved to lie in `[0, n)`.
* `crypto.randomUUID()` becomes a `freshId` argument of `HandleAdd`.

The roster itself belongs to the app. There, `onAdd` appends the new member
(`addMember` in the app's `App.tsx`). The model keeps the roster as a field
of `MembersPage` and appends to it directly.

Two behaviours of the code worth knowing:

* `handleAdd` rejects only the empty name, so a name made of spaces is
  accepted. `HandleAdd` accepts it too.
* `pickRandom` returns without effect when there are fewer than two options.
  `PickRandom` and `StartPick` model that early return; they do not require
  two options.

## Model

| member | source | states |
|---|---|---|
| `JsString.LeadEnd` | pages/PickPage.tsx:19 | the scan stops at the first non-space at or after the start, and everything it passes is a space |
| `JsString.TrailStart` | pages/PickPage.tsx:19 | the backward scan stops after the last non-space, not below its lower bound, and everything it passes is a space |
| `JsString.Trim` | pages/PickPage.tsx:19-20 | the result is a slice of the input with only spaces cut off at either end, and neither starts nor ends with a space |
| `JsString.TrimOfTrimmed` | pages/PickPage.tsx:19-20 | trimming a string that is already trimmed returns it unchanged, so a stored option is its own trim |
| `JsString.TrimIdempotent` | pages/PickPage.tsx:19-20 | trimming twice is the same as trimming once |
| `JsString.TrimEmptyIff` | pages/PickPage.tsx:19 | the trimmed input is empty (falsy) exactly when the input is all spaces |
| `JsString.LowerChar` | pages/MembersPage.tsx:30 | a lower-cased character is never an ASCII capital, and a character that is not one is kept |
| `JsString.Lower` | pages/MembersPage.tsx:30 | lower-casing keeps the length |
| `JsString.LowerIdempotent` | pages/MembersPage.tsx:30 | lower-casing twice is lower-casing once |
| `JsString.Includes` | pages/MembersPage.tsx:30 | only a term no longer than the string can be included, and the empty term always is (`x.includes('')`); `IncludesIff` gives its full meaning |
| `JsString.IncludesIff` | pages/MembersPage.tsx:30 | `includes` holds exactly when the term occurs at some offset of the string (both directions) |
| `Types.RoleName` | types.ts:2 | every role literal is non-empty |
| `Types.ArabicOf` | constants.tsx:53-55 | each role has an Arabic counterpart, and the counterpart of an Arabic role is itself |
| `Types.RoleNameInjective` | types.ts:2 | distinct roles have distinct literals |
| `Constants.RoleLabels` | constants.tsx:53-121 | the label table of either language (`t.roles`) has exactly the keys of the icon table |
| `Constants.TableKeys` | constants.tsx:13-121 | the icon table and both label tables have an entry exactly for the six English role names |
| `Constants.InitialRolesCovered` | constants.tsx:22 | the role picker offers each English role once and nothing else, and each choice has an icon and a label in both languages |
| `Members.Matches` | pages/MembersPage.tsx:30 | a member matches exactly when its lower-cased name has the lower-cased term at some offset |
| `Members.FilterMembers` | pages/MembersPage.tsx:29-31 | every member shown matches the lower-cased search term, and no more members are shown than are on the roster |
| `Members.FilterIsSubsequence` | pages/MembersPage.tsx:29-31 | the members shown are a subsequence of the roster, in roster order |
| `Members.FilterCounts` | pages/MembersPage.tsx:29-31 | every occurrence of a matching member is kept and every non-matching one dropped |
| `Members.FilterMembership` | pages/MembersPage.tsx:29-31 | a member is shown exactly when it is on the roster and its lower-cased name contains the lower-cased term |
| `Members.FilterEmptyTerm` | pages/MembersPage.tsx:29-31 | an empty search term shows the whole roster |
| `Members.FilterCaseInsensitive` | pages/MembersPage.tsx:29-31 | two terms equal once lower-cased select the same members |
| `Members.FilterLowerTerm` | pages/MembersPage.tsx:30 | searching for a term and for its lower-case form give the same cards |
| `Members.CeilHalf` | pages/MembersPage.tsx:165 | the result is the least integer whose double is at least the level |
| `Members.Stars` | pages/MembersPage.tsx:161-167 | five stars are drawn, and the lit ones come first |
| `Members.CountLitPrefix` | pages/MembersPage.tsx:161-166 | a row of n stars lit below position k has k lit stars, clamped to 0..n |
| `Members.LitStars` | pages/MembersPage.tsx:161-166 | the lit count is `ceil(level/2)` clamped to the five stars, and for a slider level 1..10 it is `ceil(level/2)` itself, between 1 and 5 |
| `Members.LitStarsMonotone` | pages/MembersPage.tsx:165 | a higher level never lights fewer stars |
| `Members.RoleLabel` | pages/MembersPage.tsx:159 | the label shown for a role is never empty |
| `Members.EnglishLabelIsName` | pages/MembersPage.tsx:159 | in English every role, of either language, is shown by its own name |
| `Members.ArabicLabelIsArabicName` | pages/MembersPage.tsx:159 | in Arabic every role is shown by its Arabic name, through the table for English roles and through the raw-string fallback for Arabic ones |
| `Members.RoleIcon` | pages/MembersPage.tsx:172 | the icon lookup with the `Recruit` fallback: a role without an entry (every Arabic role) gets the `Recruit` icon; `RoleIconFallback` states the rest |
| `Members.RoleIconFallback` | pages/MembersPage.tsx:172 | an Arabic role falls back to the `Recruit` icon, and English roles have pairwise distinct icons (the Captain's is the crown) |
| `Members.RoleOrDefault` | pages/MembersPage.tsx:40 | the falsy-value fallback of line 40: the result is the draft's role when it has one, and otherwise `Recruit` |
| `Members.LevelOrDefault` | pages/MembersPage.tsx:41 | the falsy-value fallback of line 41 (an absent or zero level becomes 5, by definition); the result is never 0 |
| `Members.MembersPage.constructor` | pages/MembersPage.tsx:21-27 | the page starts with an empty search, the form closed, and the draft at name `''`, role `Recruit` and level 5 |
| `Members.MembersPage.Visible` | pages/MembersPage.tsx:29-31 | every card shown is a roster member matching the search term |
| `Members.MembersPage.SetSearchTerm` | pages/MembersPage.tsx:62 | typing in the search field changes only the term |
| `Members.MembersPage.OpenForm` | pages/MembersPage.tsx:67 | the enlist button opens the form and keeps its draft |
| `Members.MembersPage.CancelForm` | pages/MembersPage.tsx:123-129 | the close button hides the form and keeps its draft |
| `Members.MembersPage.EditName` | pages/MembersPage.tsx:93 | editing the name changes only the draft's name |
| `Members.MembersPage.EditRole` | pages/MembersPage.tsx:101 | choosing a role from the picker changes only the draft's role |
| `Members.MembersPage.EditLevel` | pages/MembersPage.tsx:112-117 | moving the slider to a level 1..10 changes only the draft's level |
| `Members.MembersPage.HandleAdd` | pages/MembersPage.tsx:33-45 | an empty name changes nothing; otherwise exactly one member is appended, carrying the fresh id, the name and the role and level with their fallbacks; the form is then reset to its initial draft and closed; with the form's controls the level is in 1..10; a fresh id keeps the ids unique |
| `Pick.WithoutIndex` | pages/PickPage.tsx:26 | removing a position never lengthens the list |
| `Pick.WithoutIndexSpec` | pages/PickPage.tsx:25-27 | an in-range position loses exactly that entry, the others keep their order; an out-of-range position leaves the list as it is |
| `Pick.RandomIndex` | pages/PickPage.tsx:34 | `floor(rnd * n)` for `rnd` in `[0, 1)` is a position in `[0, n)` |
| `Pick.PickPage.constructor` | pages/PickPage.tsx:12-15 | the picker starts with no options, an empty field, not busy and no result |
| `Pick.PickPage.SetInput` | pages/PickPage.tsx:61 | typing changes only the field |
| `Pick.PickPage.AddOption` | pages/PickPage.tsx:17-23 | the trimmed input is appended and the field cleared exactly when it is non-empty and not yet an option; otherwise options and field are unchanged; the options stay distinct, non-empty and trimmed |
| `Pick.PickPage.RemoveOption` | pages/PickPage.tsx:25-27 | an in-range index gives a list one shorter with the other options in order; an out-of-range index changes nothing; the invariant is kept |
| `Pick.PickPage.StartPick` | pages/PickPage.tsx:29-32 | below two options nothing happens; otherwise the picker is busy with no result and keeps a snapshot of the options |
| `Pick.PickPage.FinishPick` | pages/PickPage.tsx:34-36 | the result is the snapshot's option at the drawn position, and the picker is idle |
| `Pick.PickPage.PickRandom` | pages/PickPage.tsx:29-37 | below two options nothing changes; otherwise the result is one of the options, the options are unchanged and the picker ends idle |
| `Pick.PickPage.Reset` | pages/PickPage.tsx:39-42 | the options are emptied and the result cleared; the field and the busy flag are kept |
| `Pick.PickPage.ClearResult` | pages/PickPage.tsx:115 | the re-run button clears only the result |

## Left out

- Team partitioning (the random, balanced and leader strategies named by `GenerationMode`, types.ts:18-22): the generate page that implements them is not part of this model.
- `services/geminiService.ts`: a network call to a hosted language model through a foreign SDK. Its only local logic is the empty-list fallback on error.
- `pages/LandingPage.tsx`, rendering, animation, CSS classes, right-to-left layout and the translation strings other than the role tables: presentation only.
- Local-storage persistence of the roster and the language: I/O owned by the app.
- Deleting and updating members (`onDelete`, `onUpdate`): those handlers belong to the app, not to this page.
- The two-second pause in `pickRandom`: a timer, presentation only. `StartPick` and `FinishPick` model the states on either side of it. `FinishPick` draws from the options captured when the pick started, as the source's closure does.
- The HTML `required` attribute on the name field and the `disabled` state of the pick button: browser-side guards. `HandleAdd` and `PickRandom` model the code's own checks instead.
- Strings are sequences of Unicode scalar values, where JavaScript uses UTF-16 code units. For well-formed strings `trim` and `includes` agree under both views, because every character `trim` strips is a single code unit. Unpaired surrogates are not modelled.
- `JsString.Lower`: maps only the ASCII capitals. JavaScript lower-cases all of Unicode. Arabic, the app's other language, has no case.
- `Pick.RandomIndex`: uses exact real arithmetic, not IEEE doubles, and `Math.random` becomes a parameter. It does not state that the draw is uniform.
- `Members.LevelOrDefault`: does not model `NaN`, which `level || 5` would also replace by 5. The slider never produces it.
