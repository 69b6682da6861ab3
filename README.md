# Profile manager model

This project is a verified Dafny model of `ProfileManager`, the class that
holds a single in-progress news-digest profile. A profile has a name, a
description, a tone of voice, up to three evaluation criteria, a summary
length, six category flags, a list of RSS feeds and metadata (creation
time, update time, version). The manager:

- starts from an empty profile;
- overwrites the profile from the edit form;
- checks whether the profile is complete enough to be saved, reporting
  every missing piece at once;
- drafts the database record;
- imports a profile leniently from a JSON document;
- summarises the profile for display.

Modules, leaf first:

- `Wrappers` (`wrappers.dfy`): `Option`, used for keys of an imported
  document that may be missing.
- `ProfileTypes` (`profile_types.dfy`): the schema. Feeds, category tags,
  metadata, the profile and the database record, all as datatypes.
- `JsStrings` (`js_strings.dfy`): JavaScript's `String.prototype.trim`
  over the ECMAScript whitespace and line-terminator characters, and the
  "blank" test the manager builds on it.
- `ProfileSpec` (`profile_spec.dfy`): the building blocks, each with its
  own contract and lemmas. These are the non-blank criteria filter,
  clearing the feeds' `selected` flags, counting active feeds and set
  tags, and the five completeness checks with their messages. It also
  defines `IsComplete`, completeness stated directly (a
  non-blank name, a tone, a criterion, an active feed, a set category).
  Lemmas prove it agrees with what the validator reports.
- `ProfileManagement` (`profile_manager.dfy`): the form and import inputs,
  plus the pure builders (`CreateEmptyProfile`, `ApplyForm`, `MergeTags`,
  `LoadedProfile`, `ExportedJson`). It holds the class `ProfileManager`,
  whose field `profileData` the state-changing methods reassign.
  `UpdateFromFormData` does this one field at a time, as the source does.
  `ValidateForDatabase` builds its error list by successive appends. The
  class keeps an invariant (`Valid`): no feed is selected, and the version
  is `"1.0"`.
- `ProfileProperties` (`profile_properties.dfy`): lemmas that relate
  several operations. They cover the export/import round trip and the two
  cases where it is not exact, and show that an update keeps nothing of
  the old profile beyond its creation time and version. A typical save (a
  profile "Digest A" with one criterion, one category and one active feed)
  is proved end to end.

The clock is an input: every operation that stamps a time takes a
`now: string`.

The untyped `jsonData` of `loadFromJSON` is a `JsonProfile` record whose
fields are `Option`s. `None` stands for a missing key. For
`evaluationCriteria` and `rssFeeds`, `None` also stands for a value that is
not an array. JavaScript's `||` defaulting is written out:

- `StringOr`: an empty string counts as missing.
- `NumberOr`: zero counts as missing.

### Where the code departs from what one might expect (the model follows the code)

- **Round trip.** One might expect importing an export to reproduce the
  profile exactly, apart from `updatedAt`. In the code `summaryLength || 150`
  turns a summary length of 0 into 150, and `createdAt || current` replaces
  an empty creation time with the current one.
  (`ZeroSummaryLengthNotPreserved`, `EmptyCreatedAtNotPreserved`.) The
  round trip is exact for every other profile that satisfies the manager's
  invariant (`ExportImportRoundTrip`).
- **Name check.** A "required" name might be read as a non-empty one. The
  code trims the name first, so a whitespace-only name fails. The tone is not
  trimmed, so a whitespace-only tone passes. The tone is not checked
  against a fixed set of labels either.
- **Stored criteria.** Criteria are tested trimmed but stored untrimmed.
- **Imported criteria.** Criteria an import supplies are taken as they
  are. They are neither filtered for blanks nor limited to three.
- **Tags.** An update replaces the tags wholesale (`ApplyForm`). An import
  merges them key by key onto the current ones (`MergeTagsByKey`). Both
  behaviours are kept, as the code has them.

## Model

| member | source | states |
|---|---|---|
| `JsStrings.TrimStart` | src/lib/profileManager.ts:60 | the result is a suffix of the input; everything dropped is whitespace; it does not start with whitespace |
| `JsStrings.TrimEnd` | src/lib/profileManager.ts:60 | the result is a prefix of the input; everything dropped is whitespace; it does not end with whitespace |
| `JsStrings.Trim` | src/lib/profileManager.ts:84 | the result is the slice of the input that starts after its leading whitespace and is followed only by whitespace; neither end of it is whitespace; it is empty exactly when the input is all whitespace |
| `JsStrings.TrimBothEnds` | src/lib/profileManager.ts:84 | dropping leading whitespace and then trailing whitespace leaves one contiguous slice of the input with only whitespace after it, empty exactly when the input is all whitespace |
| `JsStrings.TrimEmptyIffBlank` | src/lib/profileManager.ts:60 | `s.trim() === ''` holds exactly for blank (whitespace-only) strings, the blank test the filter and the name check use |
| `ProfileSpec.KeepNonBlank` | src/lib/profileManager.ts:56-60 | the filtered criteria are no more than the input, each is non-blank, and each comes from the input |
| `ProfileSpec.KeepNonBlankAppend` | src/lib/profileManager.ts:56-60 | filtering distributes over concatenation, so kept entries keep their relative order |
| `ProfileSpec.KeepNonBlankKeepsNonBlank` | src/lib/profileManager.ts:56-60 | no non-blank entry is dropped |
| `ProfileSpec.KeepNonBlankIdentity` | src/lib/profileManager.ts:56-60 | a list without blank entries passes unchanged (the filter is idempotent) |
| `ProfileSpec.KeepNonBlankSingle` | src/lib/profileManager.ts:56-60 | a single criterion is kept, untrimmed, exactly when it is not blank |
| `ProfileSpec.FormCriteria` | src/lib/profileManager.ts:56-60 | the stored criteria are exactly the non-blank ones among criterion1..3, in that order, untrimmed |
| `ProfileSpec.ClearSelected` | src/lib/profileManager.ts:66-69 | same length as the input; each feed keeps id, name, url and status; no feed is selected |
| `ProfileSpec.ClearSelectedIdentity` | src/lib/profileManager.ts:138-142 | clearing feeds that carry no selection changes nothing |
| `ProfileSpec.CountActive` | src/lib/profileManager.ts:96-97 | the active count is at most the number of feeds, and zero exactly when no feed is active |
| `ProfileSpec.ClearSelectedKeepsActive` | src/lib/profileManager.ts:66-69 | clearing the selection flags leaves the number of active feeds unchanged |
| `ProfileSpec.TagValues` | src/lib/profileManager.ts:101 | `Object.values` of the tags yields six flags |
| `ProfileSpec.CountTrue` | src/lib/profileManager.ts:101-102 | the number of true flags is at most the number of flags, and zero exactly when none is true |
| `ProfileSpec.SelectedCategories` | src/lib/profileManager.ts:101-102 | the selected-category count is between 0 and 6, and 0 exactly when no key is set |
| `ProfileSpec.Passes` | src/lib/profileManager.ts:84-102 | the five tests as the source writes them: the trimmed name is non-empty (as `IsBlank`, see `TrimEmptyIffBlank`), the untrimmed tone is non-empty, the criteria list is non-empty, the active-feed count and the true-tag count are non-zero |
| `ProfileSpec.ValidationErrors` | src/lib/profileManager.ts:81-110 | at most five messages are reported |
| `ProfileSpec.PushReport` | src/lib/profileManager.ts:84-86 | a push guarded by a failing check appends exactly that check's message, and nothing when it passes |
| `ProfileSpec.ReportsInOrder` | src/lib/profileManager.ts:82-104 | the five guarded pushes in source order produce the validator's report |
| `ProfileSpec.MessagesDistinct` | src/lib/profileManager.ts:84-104 | the five error messages are pairwise different |
| `ProfileSpec.ReportedIffFailed` | src/lib/profileManager.ts:84-104 | each check's message is reported exactly when that check fails; checks are independent |
| `ProfileSpec.NoErrorsIffComplete` | src/lib/profileManager.ts:106-109 | no message is reported exactly when the profile is complete: non-blank name, a tone, a criterion, an active feed, a set tag |
| `ProfileManagement.CreateEmptyProfile` | src/lib/profileManager.ts:13-35 | empty strings and lists, summary length 150, all six tags false, version "1.0", createdAt = updatedAt = now; the empty profile fails all five checks, in order |
| `ProfileManagement.ApplyForm` | src/lib/profileManager.ts:49-72 | name, description, tone and summary length come from the form; criteria are the non-blank form criteria, in order, at most three; tags are the form's; feeds keep length, order and identity, all unselected; updatedAt is now; createdAt and version are unchanged |
| `ProfileManagement.StringOr` | src/lib/profileManager.ts:127-129 | JavaScript's logical-or default on a string: a present non-empty value is kept, a missing or empty one gives the default; the result is empty only when the default is |
| `ProfileManagement.NumberOr` | src/lib/profileManager.ts:133 | JavaScript's logical-or default on a number: a present non-zero value is kept, a missing or zero one gives the default; with a non-zero default the result is never zero |
| `ProfileManagement.ImportedCreatedAt` | src/lib/profileManager.ts:145 | a document whose metadata carries a non-empty createdAt supplies it; a missing metadata object, a missing createdAt or an empty one keeps the current createdAt |
| `ProfileManagement.MergeTags` | src/lib/profileManager.ts:134-137 | a document without tags leaves the current tags as they are |
| `ProfileManagement.MergeTagsByKey` | src/lib/profileManager.ts:134-137 | each tag takes the supplied value if the key is present and keeps its current value otherwise |
| `ProfileManagement.LoadedProfile` | src/lib/profileManager.ts:126-149 | missing or empty strings become ""; a non-array list becomes []; a missing or zero summary length becomes 150 (never 0); tags are merged; feeds keep identity and are unselected; createdAt is the document's non-empty one or the current; updatedAt is now; version is "1.0" |
| `ProfileManagement.ExportedJson` | src/lib/profileManager.ts:158-160 | the document `exportAsJSON` writes: every field present with the profile's value, each of the six tag keys supplied with the profile's flag, and the metadata's createdAt (its partner is `ExportImportRoundTrip`) |
| `ProfileManagement.ProfileManager.constructor` | src/lib/profileManager.ts:8-10 | a new manager holds the empty profile stamped now and satisfies the invariant |
| `ProfileManagement.ProfileManager.UpdateFromFormData` | src/lib/profileManager.ts:38-73 | the new profile is the form applied to the old one; the invariant is kept |
| `ProfileManagement.ProfileManager.GetProfile` | src/lib/profileManager.ts:76-78 | returns a value equal to the current profile; reads only |
| `ProfileManagement.ProfileManager.ValidateForDatabase` | src/lib/profileManager.ts:81-110 | the errors are one message per failed check in check order; isValid is true exactly when there are none, and exactly when the profile is complete; nothing changes |
| `ProfileManagement.ProfileManager.PrepareDatabaseProfile` | src/lib/profileManager.ts:113-120 | is_active is true; the nested profile is the current one; the top-level name and description agree with it; under the invariant no stored feed is selected; reads only |
| `ProfileManagement.ProfileManager.LoadFromJSON` | src/lib/profileManager.ts:123-155 | the new profile is the one built from the document and the old profile; the invariant holds afterwards whatever held before |
| `ProfileManagement.ProfileManager.GetProfileSummary` | src/lib/profileManager.ts:163-181 | the name and criteria count are the profile's; the active-feed count is the number of active feeds and the category count the number of true tags, so the first is at most the number of feeds, the second at most 6, and each is zero exactly when there is none; isComplete agrees with the validator and with completeness, and implies all three counts are at least 1 |
| `ProfileProperties.ExportImportRoundTrip` | src/lib/profileManager.ts:123-160 | importing an exported profile that satisfies the invariant, with a non-zero summary length and a non-empty createdAt, gives it back with only updatedAt restamped, whatever the current profile was |
| `ProfileProperties.ZeroSummaryLengthNotPreserved` | src/lib/profileManager.ts:133 | a summary length of 0 comes back from the round trip as 150 |
| `ProfileProperties.EmptyCreatedAtNotPreserved` | src/lib/profileManager.ts:145 | an empty createdAt comes back from the round trip as the current createdAt |
| `ProfileProperties.ApplyFormForgetsPrior` | src/lib/profileManager.ts:49-72 | an update has no partial mode: two profiles with the same createdAt and version give the same result |
| `ProfileProperties.ApplyFormIdempotent` | src/lib/profileManager.ts:49-72 | applying the same form twice equals applying it once at the later time |
| `ProfileProperties.UpdatedCriteriaCheck` | src/lib/profileManager.ts:56-60 | after an update the criteria check passes exactly when some form criterion is not blank |
| `ProfileProperties.UpdatedFeedCheck` | src/lib/profileManager.ts:66-69 | after an update the feed check passes exactly when some submitted feed is active |
| `ProfileProperties.UpdatedCategoryCheck` | src/lib/profileManager.ts:63 | after an update the category check passes exactly when the form sets some category |
| `ProfileProperties.AllProblemsReported` | src/lib/profileManager.ts:81-104 | a blank name and no active feed, with the other three checks passing, give exactly those two messages, in check order |
| `ProfileProperties.DigestApplied` | src/lib/profileManager.ts:49-72 | the scenario form applied to a fresh profile gives the written-out profile, with the feed unselected |
| `ProfileProperties.DigestChecks` | src/lib/profileManager.ts:88-104 | on the scenario profile the tone, criteria, feed and category checks pass |
| `ProfileProperties.DigestScenario` | src/lib/profileManager.ts:38-110 | saving "Digest A" with one criterion, one tag and one selected active feed gives a complete profile with criteria ["accuracy"] and the feed unselected |
| `ProfileProperties.BlankNameScenario` | src/lib/profileManager.ts:84-86 | the same form with a whitespace-only name is rejected with "Profile name is required" alone |

## Left out

- `exportAsJSON`: the text that `JSON.stringify` lays out is not modelled.
  `ExportedJson` gives the structure that text denotes, which is what an
  import reads back.
- The `try`/`catch` of `loadFromJSON`: a typed document cannot raise the
  runtime errors that untyped property access can. Examples are a `null`
  document, or a non-object where an object is expected.
- Wrongly typed JSON values are not modelled. Examples are strings where
  numbers are expected, feeds missing fields, non-boolean or extra
  category keys (which `Object.values` would then count), and `NaN` or
  fractional numbers. `id`, `summaryLength` and `stepValue` are
  unbounded integers, not floating-point numbers.
- Aliasing: `getProfile` returns a shallow copy. In the source, the copy
  shares the `metadata` object and the arrays with the manager. A later
  update's in-place `updatedAt` stamp is therefore visible through an
  earlier copy, and a caller could change the manager's feeds through
  the copy. The model uses values, so neither effect is captured.
- `ProfileManagement.CreateEmptyProfile`: the source reads the clock twice.
  The model takes one `now`, so `createdAt == updatedAt` here. In the
  source the two can differ when a millisecond boundary falls between the
  reads.
- The persistence layer (`src/lib/db.ts`: a connection pool, one
  parameterised INSERT and defaulting the description to `''`) is
  database I/O. It is not part of this model.
- The HTTP handler (`src/routes/api/save-profile/+server.ts`), styling
  configuration and ambient type declarations are framework glue.
- Update, delete, list and get-by-id operations, and a store-level
  validator, do not exist in the source files, so they are not modelled.
