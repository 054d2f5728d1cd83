# Content console state logic, in Dafny

This project models the state-editing layer of a small content-management console. The
console is a React single-page application. Operators use it to edit a restaurant site's menu,
about page, events and "moments" (photo posts). The model covers:

- **The delete guard** `confirmAndDelete`. It refuses a deletion at or below a minimum count.
  Otherwise it asks for confirmation, runs the caller's deletion and reports it in a toast.
- **The list editors.**
  - The menu is a list of themes, each with items and linked event ids.
  - The about page has top-level text, a hero image and a list of sections.
  - The event and moment lists have row edits, guarded deletes, an edit mode, response
    normalisation, image-source selection and time display.
  - The event-creation form has a "hosted" toggle and chooses the image id on submit.
- **The password gate**, with a thirty-day session record kept in local storage.
- **The public-site link** and the highlighting of the navigation buttons.

Each component whose state React updates is a `class`:

- `useState` slots are its fields, and a state setter is an assignment.
- Handlers are methods with `modifies this`. Their `ensures` give the whole new state in terms
  of the old one.
- Toasts, confirmation prompts and the point where the guard runs its callback are appended to
  an `effects` log.

Pure computations are functions with named results: a setter for one field, the normalisation
of a response, the image source, the public URL. Lemmas relate them, for example:

- a rendered count reads back as the count;
- the substring scan agrees with "occurs somewhere";
- a login record is accepted exactly while less than a month old.

Each foreign call is a parameter of the handler that makes it:

- the operator's answer to `window.confirm`;
- an image upload's outcome (`Upload`);
- whether a request succeeded;
- the clock (`now`);
- a fresh UUID;
- each `toISOString` conversion (`Option<string>`; `None` means the conversion threw);
- the contents of local storage, as a map from key to parsed value.

## Model

| member | source | states |
|---|---|---|
| `Common.SpliceOut` | src/components/EditAbout.jsx:75-79 | For an index in range, `splice(i, 1)` shortens the list by one, keeps the elements before `i` and shifts the later ones down by one. An index past the end changes nothing. |
| `Common.SpliceOutMultiset` | src/components/events/ViewAllEvents.jsx:50-51 | Splicing out index `i` loses exactly the element `s[i]` and keeps every other element, counted with multiplicity. |
| `DeleteGuard.Capitalize` | src/utils/confirmAndDelete.js:14-16 | Capitalizing preserves length and maps "" to "". It upper-cases the first character (an `a`–`z` becomes an `A`–`Z`) and leaves every later character unchanged. |
| `DeleteGuard.CapitalizeIdempotent` | src/utils/confirmAndDelete.js:14-16 | Capitalizing an already capitalized label changes nothing. |
| `DeleteGuard.DecimalDigits` | src/utils/confirmAndDelete.js:3 | The minimum rendered into the guard message is a non-empty string of decimal digits with no leading zero: zero renders as "0". |
| `DeleteGuard.DecimalRoundTrip` | src/utils/confirmAndDelete.js:3 | The rendered minimum reads back as the minimum itself, so the message states the count exactly. |
| `DeleteGuard.GuardMessage` | src/utils/confirmAndDelete.js:3 | The refusal message is the "must have at least" prefix followed by the minimum. It ends in " <label>s." exactly when the minimum is non-zero, and in " <label>." exactly when it is zero. Its length leaves room for nothing else, so it is exactly that text. |
| `DeleteGuard.GuardMessageEnding` | src/utils/confirmAndDelete.js:3 | In the assembled message the plural and the singular ending exclude each other, and each occurs exactly in its own case. |
| `DeleteGuard.GuardEffects` | src/utils/confirmAndDelete.js:1-12 | There are three outcomes. At or below the minimum: exactly one refusal toast, no prompt, no callback. Above it and declined: one prompt, no callback, no toast. Above it and confirmed: one prompt, then exactly one callback, then the "<Label> deleted" toast as the last effect, whatever the callback does. |
| `DeleteGuard.ConfirmedTrace` | src/utils/confirmAndDelete.js:7-11 | The trace of a confirmed deletion holds one prompt, one callback and one toast, the report. |
| `DeleteGuard.ConfirmAndDelete` | src/utils/confirmAndDelete.js:1-12 | Uses the same defaults as the source (`"item"`, 0, 1). The effects are those of `GuardEffects`, and the deletion is reported as performed exactly when the callback ran once. |
| `DeleteGuard.DefaultsNeverBlock` | src/utils/confirmAndDelete.js:1-2 | With the default minimum and total the guard never refuses: the prompt is always shown. |
| `DeleteGuard.ZeroMinimumBlocksOnlyEmpty` | src/utils/confirmAndDelete.js:1-2 | With a minimum of zero the guard refuses exactly when the total is zero. |
| `EventRecord.WithField` | src/components/events/CreateEvent.jsx:22-25 | Setting a named field of an event record changes that field only. The image id and the hosted flag stay. |
| `EventRecord.WithOwnValue` | src/components/events/CreateEvent.jsx:22-25 | Setting a field to the value it already holds leaves the record unchanged. |
| `EventRecord.WithFieldTwice` | src/components/events/ViewAllEvents.jsx:24-28 | A second edit of the same field overrides the first. |
| `CreateEvent.ChooseImageId` | src/components/events/CreateEvent.jsx:35-54 | The image id is "" when the event is hosted, and "" when no file is pending. The upload is used only for a not-hosted event with a file; then the id is the upload's id, and a failed upload aborts the submit. A non-empty id always comes from the upload. |
| `CreateEvent.Payload` | src/components/events/CreateEvent.jsx:56-61 | The payload has the chosen image id and the converted times. Every other field, including the hosted flag, is the form's. |
| `CreateEvent.EventForm.constructor` | src/components/events/CreateEvent.jsx:8-20 | The form starts from the empty record (not hosted, empty image id) with no file pending. |
| `CreateEvent.EventForm.HandleChange` | src/components/events/CreateEvent.jsx:22-25 | Only the named field of the form record changes. The file and the toasts stay. |
| `CreateEvent.EventForm.HandleCheckbox` | src/components/events/CreateEvent.jsx:27-33 | The hosted flag flips. Going to hosted also clears the image id and the pending file. Going back changes nothing else. |
| `CreateEvent.EventForm.SelectImage` | src/components/events/CreateEvent.jsx:177 | The pending file becomes the chosen one; nothing else changes. |
| `CreateEvent.EventForm.HandleSubmit` | src/components/events/CreateEvent.jsx:48-82 | A payload is posted exactly when the image choice and both time conversions succeed, and it is `Payload` of the form and the chosen id. After a successful POST the form is reset to the empty record, the file is cleared and the "created" toast is shown. Otherwise the state is kept and the failure toast is shown. |
| `CreateEvent.ToggleTwice` | src/components/events/CreateEvent.jsx:27-33 | For any form that is not hosted, toggling "hosted" on and off again ends not hosted, with no image id and no file. The first toggle's clearing is not undone, and every other field and the log stay. |
| `CreateEvent.HostedSendsNoImage` | src/components/events/CreateEvent.jsx:48-63 | Submitting a hosted form posts exactly when both times convert. The posted record has an empty image id and the hosted flag, whatever file is pending or upload answer is given. Every text field other than the two times is the form's. |
| `ViewAllEvents.ImageSrc` | src/components/events/ViewAllEvents.jsx:78-82 | The placeholder is shown exactly when the event is hosted or has no image id. Otherwise the source is the image endpoint for that id. |
| `ViewAllEvents.TimeInputValue` | src/components/events/ViewAllEvents.jsx:124 | The value shown in a time input is the stored string's prefix of length min(16, length). |
| `ViewAllEvents.TimeInputValueIdempotent` | src/components/events/ViewAllEvents.jsx:124 | Truncating an already truncated time changes nothing. |
| `ViewAllEvents.WithEventField` | src/components/events/ViewAllEvents.jsx:24-28 | One row edit keeps the row's id, changes the named field and keeps every other field. |
| `ViewAllEvents.EventList.constructor` | src/components/events/ViewAllEvents.jsx:7-8 | The list starts empty, with no toasts. |
| `ViewAllEvents.EventList.FetchEvents` | src/components/events/ViewAllEvents.jsx:11-19 | A successful load replaces the list. A failed one keeps it and shows the load-failure toast. |
| `ViewAllEvents.EventList.HandleChange` | src/components/events/ViewAllEvents.jsx:24-28 | Only the named field of row `i` changes. The length and every other row stay. |
| `ViewAllEvents.EventList.HandleDelete` | src/components/events/ViewAllEvents.jsx:45-63 | The guard uses its default minimum, so it refuses only an empty list. The DELETE for the id is sent exactly when the operator confirms a non-empty list. On success exactly row `i` is spliced out, in order. The guard's effects come first, then the callback's toast. |
| `EditMenu.WithItemField` | src/components/EditMenu.jsx:57-61 | Setting one field of an item changes that field only. |
| `EditMenu.WithThemeField` | src/components/EditMenu.jsx:40-44 | Setting the title or description of a theme changes that field only. The id, items and event links stay. |
| `EditMenu.WithMenuField` | src/components/EditMenu.jsx:26-28 | Setting the caption or footer note changes that field only. The themes stay. |
| `EditMenu.ReplaceItem` | src/components/EditMenu.jsx:57-61 | Only item `k` of theme `t` is replaced. Every other theme, every other item and the theme's own fields stay. |
| `EditMenu.ReplaceItemOwn` | src/components/EditMenu.jsx:57-61 | Writing back the item already at that position gives the same menu. |
| `EditMenu.MenuEditor.constructor` | src/components/EditMenu.jsx:16-19 | The editor holds the loaded menu, with no toasts. |
| `EditMenu.MenuEditor.HandleMenuChange` | src/components/EditMenu.jsx:26-28 | Only the named top-level field changes. |
| `EditMenu.MenuEditor.AddTheme` | src/components/EditMenu.jsx:30-38 | The theme count goes up by one and the existing themes are unchanged. The new last theme has the fresh id and empty title, description, items and event ids. |
| `EditMenu.MenuEditor.UpdateTheme` | src/components/EditMenu.jsx:40-44 | Only field `f` of theme `i` changes. |
| `EditMenu.MenuEditor.AddItem` | src/components/EditMenu.jsx:46-55 | One empty item is appended to theme `t` only. Every other theme and the top-level fields stay. |
| `EditMenu.MenuEditor.UpdateItem` | src/components/EditMenu.jsx:57-61 | Only field `f` of item `k` in theme `t` changes. |
| `EditMenu.MenuEditor.UploadImage` | src/components/EditMenu.jsx:63-80 | With no file nothing changes. A successful upload onto an existing item sets that item's image id only and shows the success toast. A failed upload, or a missing item, keeps the menu and shows the failure toast. |
| `EditMenu.MenuEditor.UpdateEventLinks` | src/components/EditMenu.jsx:82-86 | Theme `t`'s event ids become the selection; nothing else changes. |
| `EditMenu.MenuEditor.DeleteItem` | src/components/EditMenu.jsx:88-100 | The delete is refused only when the theme has no items. When confirmed, exactly item `k` of theme `t` is spliced out, in order, and the guard's effects are logged. |
| `EditMenu.MenuEditor.DeleteTheme` | src/components/EditMenu.jsx:102-114 | A theme is deleted exactly when more than one exists and the operator confirms. The last theme is never removed. A deletion drops exactly theme `i` and keeps the order of the rest. |
| `EditAbout.WithAboutField` | src/components/EditAbout.jsx:25-27 | Setting a named top-level field changes that field only. The hero id and the sections stay. |
| `EditAbout.WithSectionField` | src/components/EditAbout.jsx:29-33 | Setting the title or text of a section changes that field only. Its image id stays. |
| `EditAbout.SaveRecord` | src/components/EditAbout.jsx:83-98 | With no hero file pending, the record sent is the current one. With one pending, it is the current record with the hero id replaced by the upload's id, and nothing is sent if the upload fails. |
| `EditAbout.AboutEditor.constructor` | src/components/EditAbout.jsx:16-23 | The editor holds the loaded record, no pending hero file and a hidden view link. |
| `EditAbout.AboutEditor.HandleChange` | src/components/EditAbout.jsx:25-27 | Only the named top-level field changes. The sections stay. |
| `EditAbout.AboutEditor.HandleSectionChange` | src/components/EditAbout.jsx:29-33 | Only field `f` of section `i` changes. |
| `EditAbout.AboutEditor.SelectHeroImage` | src/components/EditAbout.jsx:132 | The pending hero file becomes the chosen one, or none; nothing else changes. |
| `EditAbout.AboutEditor.HandleSectionImageUpload` | src/components/EditAbout.jsx:35-65 | With no file, or no section at index `i`, nothing changes. A successful upload replaces only that section's image id, with the success toast. A failed one changes nothing but shows the failure toast. |
| `EditAbout.AboutEditor.AddSection` | src/components/EditAbout.jsx:68-73 | Exactly one empty section is appended. |
| `EditAbout.AboutEditor.RemoveSection` | src/components/EditAbout.jsx:75-79 | Section `i` is spliced out, in order, without any guard. |
| `EditAbout.AboutEditor.Save` | src/components/EditAbout.jsx:81-108 | As written: the record sent is `SaveRecord` of the state. After a successful PUT the pending file is cleared, the view link is shown and the saved toast appears. On failure the state is kept and the failure toast appears. The editor's own record is never updated with the uploaded hero id. |
| `EditAbout.AboutEditor.SaveKeepingHero` | src/components/EditAbout.jsx:81-108 | Corrected save: the same, except that after a successful PUT the editor holds the record it sent. |
| `EditAbout.StaleHeroOnSecondSave` | src/components/EditAbout.jsx:97-102 | With the save as written, a hero image uploaded by one save is reverted by the next save. That save sends the id the page was loaded with. |
| `EditAbout.HeroKeptOnSecondSave` | src/components/EditAbout.jsx:97-102 | With the corrected save, the same two saves both send the uploaded hero id. |
| `ViewAllMoments.Normalise` | src/components/moments/ViewAllMoments.jsx:16-34 | The list is `data.moments` when that is an array, else `data` when that is an array, else empty. A failed request, or a null body whose `.moments` read throws, also gives the empty list. |
| `ViewAllMoments.NormaliseShapesAgree` | src/components/moments/ViewAllMoments.jsx:22-25 | A bare array and an object wrapping the same array give the same moments. |
| `ViewAllMoments.MomentList.constructor` | src/components/moments/ViewAllMoments.jsx:7-9 | The list starts empty, with no edit id and an empty draft. |
| `ViewAllMoments.MomentList.FetchMoments` | src/components/moments/ViewAllMoments.jsx:16-34 | The list becomes `Normalise` of the response; nothing else changes. |
| `ViewAllMoments.MomentList.StartEdit` | src/components/moments/ViewAllMoments.jsx:37-40 | The edit id becomes the moment's id and the draft becomes the moment. A card is in edit mode exactly when its id is that id. |
| `ViewAllMoments.MomentList.CancelEdit` | src/components/moments/ViewAllMoments.jsx:42-45 | The edit id becomes none and the draft becomes empty. No card is in edit mode. |
| `ViewAllMoments.MomentList.EditTitle` | src/components/moments/ViewAllMoments.jsx:87 | Only the draft's title changes. |
| `ViewAllMoments.MomentList.EditDescription` | src/components/moments/ViewAllMoments.jsx:92 | Only the draft's description changes. |
| `ViewAllMoments.MomentList.SaveEdit` | src/components/moments/ViewAllMoments.jsx:47-52 | The draft is sent for the edit id. On success the "updated" toast appears, the edit id is cleared and the list is fetched again. The draft is kept in every case. A failed PUT changes nothing. |
| `ViewAllMoments.MomentList.OnDelete` | src/components/moments/ViewAllMoments.jsx:54-65 | The guard uses a minimum of zero over the whole list, so it refuses only an empty list. The DELETE for the given id is sent exactly when the operator confirms a non-empty list, and a successful one refetches the list. |
| `ViewAllMoments.ExactlyOneInEditMode` | src/components/moments/ViewAllMoments.jsx:37-40 | In a list with unique ids, starting to edit the moment at position `k` puts exactly the card at `k` in edit mode, the `editId === moment.id` test of line 82, and leaves the list unchanged. |
| `LoginGate.Gate.constructor` | src/components/LoginGate.jsx:6-9 | The gate starts shut, with an empty password and no error. |
| `LoginGate.Gate.CheckStoredSession` | src/components/LoginGate.jsx:11-21 | The gate opens exactly when the stored record's password matches and `now - timestamp` is strictly below one month. A matching but expired record is removed. Any other stored value is neither accepted nor removed. |
| `LoginGate.Gate.SetPassword` | src/components/LoginGate.jsx:48 | The typed password is stored; nothing else changes. |
| `LoginGate.Gate.HandleLogin` | src/components/LoginGate.jsx:23-34 | The correct password writes `{password, timestamp: now}` under the storage key and opens the gate. A wrong one sets "Incorrect password." and leaves the gate and the storage as they were. |
| `LoginGate.LoginRecordGrants` | src/components/LoginGate.jsx:12-29 | A record written by a login at time `t` grants entry at `t'` exactly when `t' - t` is below one month. |
| `LoginGate.ReloadAfterLogin` | src/components/LoginGate.jsx:4 | A login followed by a reload less than 2 592 000 000 ms later opens the reloaded gate by itself. |
| `LoginGate.ReloadAfterMonth` | src/components/LoginGate.jsx:15-18 | A login followed by a reload a month or more later leaves the reloaded gate shut. The record is removed and every other stored key is kept. |
| `LoginGate.ForeignRecordIgnored` | src/components/LoginGate.jsx:13 | Over any storage, a stored record with another password is neither accepted nor removed, and every other key is kept. |
| `Layout.IncludesIffOccurs` | src/components/Layout.jsx:11-13 | The substring test holds exactly when the fragment occurs at some position of the path. |
| `Layout.IncludesInfix` | src/components/Layout.jsx:11 | A path with the fragment spliced into it includes the fragment. |
| `Layout.PublicSiteUrl` | src/components/Layout.jsx:10-15 | The first of "/events", "/about", "/menu" that the path includes picks the page. With none of them the result is exactly the public base. Every result starts with the public base. |
| `Layout.EventsAnywhere` | src/components/Layout.jsx:11 | A path holding "/events" anywhere, whatever else it holds, links to the public events page. |
| `Layout.AboutBeatsMenu` | src/components/Layout.jsx:12-13 | Without "/events", a path holding both "/about" and "/menu" links to the about page. |
| `Layout.NavLinkClass` | src/components/Layout.jsx:17-21 | A navigation button is highlighted exactly when the path equals its target, and it has one of the two classes. |

## Left out

- DeleteGuard.Capitalize: upper-cases only the ASCII letters `a`–`z`. JavaScript's `toUpperCase` also maps other letters, some to more than one character (for example "ß" to "SS"), which would change the length. The labels the console passes are ASCII.
- Field-name handlers (`[e.target.name]`, `updated[index][field]`) accept only the field names the markup passes. They are enumerations, so writing an unknown property cannot be expressed.
- Indices out of range in `updateTheme`, `addItem`, `updateItem`, `updateEventLinks`, `deleteItem`, `handleSectionChange` and the event-row `handleChange` throw a TypeError in JavaScript. They are preconditions here. Splicing at an index past the end is a no-op and is modelled as one.
- HTTP requests, multipart uploads, `window.confirm`, `Date.now`, `new Date(...).toISOString()`, `crypto.randomUUID` and `localStorage` with `JSON.parse`/`JSON.stringify` are parameters. The JSON text in storage is not modelled, only the values it parses to. A stored password that is not a string, or a value that is not an object, is `Unusable`. A missing timestamp is `None`, which never grants entry and is removed.
- Stored text that is not valid JSON makes `JSON.parse` throw inside the mount-time effect. Nothing catches it, so the check neither ignores nor removes such a value. This case is not modelled.
- Only numeric timestamps are represented. The subtraction `now - saved.timestamp` coerces other values to numbers. With a real clock, a stored string of digits, or a one-element array holding one, can then grant entry. `null` and booleans coerce to 0 or 1 and grant entry only within a month of the epoch. Those coerced timestamps are not modelled. All of these need stored values that a login never writes.
- The initial fetches: `fetchMenu`, `fetchEvents` in the menu editor, and `fetchAbout`. Each component's constructor takes the loaded value instead. A failed `fetchAbout` only logs.
- `saveMenu` and the event-row `handleSave` are a PUT followed by a toast, with no state change. They are not modelled.
- Asynchronous interleaving and React's batched, closure-captured state are not modelled. Each handler runs to completion on the current state. This hides, for example, a delete callback that splices a list captured before a concurrent edit.
- In-place mutation of the objects shared between the old and the new state (`updated[index][field] = value` on a shallow copy) is modelled as value semantics. Aliasing between successive states is not captured.
- The undefined environment values (`VITE_UPLOAD_PASSWORD`, `VITE_PUBLIC_SITE_BASE`) are ordinary string parameters. Their JavaScript `undefined` rendering is not modelled.
- Rendering, styling, the `onError` image fallback, toasts' display timer (`useToast`), the static routing and dashboard (`App.jsx`, `Dashboard.jsx`), and the upload forms (`UploadForm.jsx`, `CreateMoment.jsx`).

## Findings

| source | as written | input that shows it | evidently intended | confidence | as-written member | corrected member |
|---|---|---|---|---|---|---|
| src/components/EditAbout.jsx:97-102 | `save` puts the uploaded hero id only into the copy it sends (line 97). It then clears the pending file without storing that copy back into `about` (lines 100-102). | A page loaded with hero "old-hero": pick a file, save (upload id "new-hero"), edit the bio, and save again. The second PUT carries heroImageId "old-hero" and reverts the new image. | After a successful save, the editor holds the record it sent, so later saves keep the uploaded hero id. | not executed | `EditAbout.StaleHeroOnSecondSave` | `EditAbout.HeroKeptOnSecondSave` |
