# In-place content editor of the "O Poderoso" site, modelled in Dafny

The site is a React single-page app with an admin mode. In admin mode the visitor can click on
rendered text and images and edit them where they stand. All editable content lives in one
document: a map from section ("hero", "showcase", "sobre") to field to string. It starts from the
stored copy in the browser's local storage, or from built-in defaults when nothing is stored. Edits
change it in memory and raise an "unsaved changes" flag. The admin panel's save button starts a
two-phase save that writes the document under one storage key.

This project models that editor:

- `content.dfy` (module `Content`): the document value, the default document `DefaultData`, the
  storage key, the pure transform of `updateContent`, and load/save against an abstract storage map.
- `session.dfy` (module `Session`): class `EditSession`, the controller of App.tsx. Its fields are
  the state cells `siteData`, `isAdmin`, `hasChanges`, `isSaving` and the local storage. It also
  holds the pending save callback's snapshot (`timers`) and the file reads in flight (`fileReads`).
  Its methods are the admin toggle, the blur and file handlers wired to `updateContent`, and the
  two phases of a save. `Valid()` states that saves never overlap.
- `hero.dfy`, `showcase.dfy`, `detailpage.dfy` (modules `Hero`, `ShowCase`, `DetailPage`): each
  component's binding table, regions to fields. They also hold the hero's video/image choice, the
  showcase cards' navigation rule and the detail pages' `renderContent` dispatch.
- `media.dfy` (module `Media`): which selected file is read, the data-URL shape of the reader's
  result (section 3 of RFC 2397, `data:<mime>;base64,<data>`), JavaScript's `includes` and
  `startsWith`, and the video test of components/Hero.tsx.

The two save phases are `BeginSave` and `CompleteSave`. `BeginSave` is a click on the save button:
it does something only when the button is rendered and enabled (`isAdmin && hasChanges &&
!isSaving`), and then it records a snapshot of `siteData`. `CompleteSave` is the timer callback: it
stores that snapshot and clears both flags. `EditDuringSaveScenario` proves the consequence: an
edit made during the delay is not stored, yet `hasChanges` ends up false.

In these behaviours the code does something other than what a reader of an editor like this might
expect, and the model follows the code:

- `load` takes a stored document verbatim, with no per-section fallback (`LoadDoesNotMergeDefaults`).
- Updating a section that is absent creates it (`UpdateAbsentSection`); it is not a no-op.
- A blur with unchanged text still raises the dirty flag (`UnchangedBlurScenario`).
- A save can fail: `setItem` throws once the storage quota is exceeded, and the callback then
  stops before clearing the flags. `isSaving` stays set and the button stays disabled for the
  rest of the session (`FailSave`, `SaveFailureScenario`).
- A failed file read is not ignored; see "Left out".

## Model

| member | source | states |
|---|---|---|
| Content.SectionOf | App.tsx:46 | spreading an absent section gives the empty section; a present one is itself |
| Content.Update | App.tsx:43-47 | the named field holds the new value; the section set grows by at most that section; every other section and every other field of the section is unchanged |
| Content.Load | App.tsx:38-41 | a stored document is returned as the document; with nothing stored the document is `DEFAULT_DATA` |
| Content.Save | App.tsx:55 | the storage key holds the document; every other storage slot is unchanged |
| Content.LoadAfterSave | App.tsx:38-55 | the document saved under the storage key is the document the next start-up loads |
| Content.SaveIdempotent | App.tsx:55 | saving the same document twice leaves the same storage as saving it once |
| Content.LoadEmptyIsDefault | App.tsx:13-41 | with empty storage the document is the default document, e.g. `hero.title1` is "A Próxima Era da" |
| Content.DefaultDataFields | App.tsx:13-29 | the default document has sections `hero`, `showcase` and `sobre` with exactly the fields their components use, all non-empty |
| Content.LoadDoesNotMergeDefaults | App.tsx:38-41 | a stored document lacking `showcase` loads without `showcase`: there is no per-section fallback |
| Content.UpdateAbsentSection | App.tsx:46 | updating an absent section creates it holding only the updated key |
| Content.LastWriteWins | App.tsx:44-47 | `update(update(d,s,k,v1),s,k,v2) == update(d,s,k,v2)` |
| Content.UpdatesCommute | App.tsx:44-47 | updates of two different fields can be applied in either order with the same result |
| Content.UpdateWithStoredValue | App.tsx:44-47 | writing back a field's current value leaves the document unchanged |
| Media.SelectedFile | components/Hero.tsx:54-55 | a file is read iff at least one is selected, and then it is the first one (same code at components/ShowCase.tsx:35-36) |
| Media.InputMounted | components/Hero.tsx:67 | the hidden file input exists exactly in admin mode (same code at components/ShowCase.tsx:48) |
| Media.PickerOpens | components/Hero.tsx:47-51 | the picker opens only in admin mode with the input mounted |
| Media.PickerOpensIffAdmin | components/Hero.tsx:47-75 | with the input mounted exactly in admin mode, a click opens the picker iff admin mode is on |
| Media.StartsWith | components/Hero.tsx:151 | `s.startsWith(p)` holds iff `p` is no longer than `s` and the first `\|p\|` characters of `s` are `p` |
| Media.Includes | components/Hero.tsx:151 | `s.includes(p)` holds for every prefix `p` of `s` and never for a `p` longer than `s` |
| Media.DataUrl | components/Hero.tsx:56-61 | the reader's result is `data:`, then the mime type at positions 5 to 5+\|mime\|, then `;base64,`, then the payload to the end |
| Media.IsVideo | components/Hero.tsx:151 | the video test as written, `includes('video') \|\| startsWith('data:video')`; its meaning is stated by `IsVideoIffIncludesVideo` |
| Media.IsVideoIffIncludesVideo | components/Hero.tsx:151 | `includes('video') \|\| startsWith('data:video')` holds iff the value contains "video" |
| Media.WithoutVIsImage | components/Hero.tsx:151 | a value without the letter 'v' is classified as an image |
| Media.DefaultHeroMediaIsImage | App.tsx:18 | the default `hero.mediaUrl` is classified as an image |
| Media.ImageDataUrlMisclassified | components/Hero.tsx:151 | the data URL of a PNG whose payload is "video" is classified as a video |
| Media.IsVideoIntended | components/Hero.tsx:151 | the corrected video test: a `data:` value by its mime type, any other value by the substring test; its properties are `IsVideoIntendedDataUrl` and `IsVideoIntendedOnRemote` |
| Media.IsVideoIntendedDataUrl | components/Hero.tsx:151 | under the intended test, a data URL is a video iff its mime type starts with "video", whatever the payload |
| Media.IsVideoIntendedOnRemote | components/Hero.tsx:151 | on values not starting with `data:` the intended test agrees with the test as written |
| Hero.FieldOf | components/Hero.tsx:103-127 | each hero text region displays a field of the default hero section other than `mediaUrl` |
| Hero.OnBlur | components/Hero.tsx:103-128 | a blur reports the region's text verbatim for a hero text field other than `mediaUrl` |
| Hero.OnLoadEnd | components/Hero.tsx:57-60 | the whole reader result is reported, for a field no text region writes |
| Hero.BlurFieldsDistinct | components/Hero.tsx:103-128 | `title1`, `title2` and `description` regions write three distinct fields |
| Hero.Displayed | components/Hero.tsx:109-151 | a region shows its field's value, or no text when the field is absent; the component needs `mediaUrl`, whose absence makes line 151 throw |
| Hero.BlurThenDisplay | components/Hero.tsx:103-128 | for any hero section with `mediaUrl`, after a committed blur the region shows the committed text (also when its field was absent) and the other regions are unchanged |
| Hero.BlurUnchangedText | components/Hero.tsx:103-128 | committing a region's displayed text leaves the document unchanged iff the region's field is present; an absent field is added with the empty text |
| Hero.RenderMedia | components/Hero.tsx:151-155 | the media value is the element's source, and the element is a video iff the value contains "video" |
| Hero.DefaultMediaRendersImage | components/Hero.tsx:151-155 | the default hero media renders as an `<img>` |
| Hero.VideoDataUrlRendersVideo | components/Hero.tsx:151-155 | the data URL of a file whose mime type starts with "video" renders as a `<video>` |
| ShowCase.FieldOf | components/ShowCase.tsx:88-111 | each showcase text region displays a field of the default showcase section other than `mainImage` |
| ShowCase.OnBlur | components/ShowCase.tsx:88-111 | a blur reports the region's text verbatim for a showcase text field other than `mainImage` |
| ShowCase.OnLoadEnd | components/ShowCase.tsx:38-41 | the whole reader result is reported, for a field no text region writes |
| ShowCase.BlurFieldsDistinct | components/ShowCase.tsx:88-111 | `subtitle`, `title` and `description` regions write three distinct fields |
| ShowCase.Displayed | components/ShowCase.tsx:94-110 | a region shows its field's value, or no text when the field is absent |
| ShowCase.BlurThenDisplay | components/ShowCase.tsx:88-111 | for any showcase section, after a committed blur the region shows the committed text (also when its field was absent) and the other regions are unchanged |
| ShowCase.BlurUnchangedText | components/ShowCase.tsx:88-111 | committing a region's displayed text leaves the document unchanged iff the region's field is present; an absent field is added with the empty text |
| ShowCase.Uppercased | components/ShowCase.tsx:89 | the subtitle is the only showcase text region whose styling uppercases its rendering |
| ShowCase.CardClick | components/ShowCase.tsx:61-117 | a card click navigates only to `postagens`, and it fails to navigate only for the main card in admin mode |
| ShowCase.ChangePhotoButtonShown | components/ShowCase.tsx:71-78 | the change-photo button is rendered exactly in admin mode |
| ShowCase.ChangePhotoOpensPickerIffAdmin | components/ShowCase.tsx:27-78 | the change-photo button is shown, and opens the picker, exactly in admin mode |
| DetailPage.OnBlur | components/DetailPage.tsx:112-119 | a region commits iff it is the mission paragraph, its text verbatim, to a field of the default document |
| DetailPage.RenderContent | components/DetailPage.tsx:69-146 | each of `projetos`, `fotos`, `postagens`, `sobre` selects its own view; any other id selects nothing |
| DetailPage.RenderCounts | components/DetailPage.tsx:70-107 | projects show 4 cards, photos 12 images numbered 0 to 11, posts 3 posts |
| DetailPage.OnlyMissionCommits | components/DetailPage.tsx:61-126 | of all regions a detail page shows, each is editable iff admin mode is on, and only the about page's mission paragraph commits on blur |
| DetailPage.Regions | components/DetailPage.tsx:61-126 | a view's editable regions: two per project card, two per post, the mission paragraph and two stat figures on the about page, none on the photo page |
| DetailPage.Editable | components/DetailPage.tsx:61-126 | every detail-page region carries `contentEditable={isAdmin}` |
| DetailPage.MissionOnlyOnAbout | components/DetailPage.tsx:108-119 | the mission paragraph appears iff the page is `sobre` |
| DetailPage.UnboundRegionsIgnoreDocument | components/DetailPage.tsx:61-126 | the project, post and stat regions show the same text whatever the document (for the stat figures, whatever document has `sobre`), and commit nothing |
| DetailPage.NatToString | components/DetailPage.tsx:61 | the decimal rendering of a card number: non-empty, digits only, one digit exactly below ten, ending in the last digit |
| DetailPage.Displayed | components/DetailPage.tsx:61-126 | the mission paragraph shows `sobre.missao`, or no text when that field is absent; it and the stat figures beside it need the `sobre` section; every other region shows its fixed, non-empty copy |
| DetailPage.ProjectTitles | components/DetailPage.tsx:61-74 | the four project cards are titled `Alpha System 01` to `Alpha System 04` |
| DetailPage.MissionBlurThenDisplay | components/DetailPage.tsx:112-119 | after the mission blur is committed the paragraph shows `sobre.missao`, now the committed text |
| Session.TargetSection | App.tsx:128-135 | the hero is wired to section `hero` and the showcase to `showcase`, both default sections |
| Session.TargetKey | components/Hero.tsx:57-60 | each reader writes a field of its component's default section that none of the component's text regions writes (same code at components/ShowCase.tsx:38-41) |
| Session.EditSession.Valid | App.tsx:51-94 | saves never overlap: at most one save callback is pending, and one is pending only while `isSaving` is set |
| Session.EditSession.SaveButtonShown | App.tsx:89-91 | the save button is rendered iff admin mode is on and there are unsaved changes |
| Session.EditSession.SaveButtonEnabled | App.tsx:89-94 | the save button accepts a click iff it is rendered and `disabled={isSaving}` is off |
| Session.EditSession.constructor | App.tsx:34-41 | the document is loaded from storage, and admin, dirty and saving flags are off |
| Session.EditSession.UpdateContent | App.tsx:43-49 | the document becomes `Update(old, s, k, v)` and `hasChanges` is true, even when `v` equals the stored value; nothing else changes |
| Session.EditSession.ToggleAdmin | components/Navbar.tsx:61 | `isAdmin` flips; document, dirty flag and saving state are unchanged |
| Session.EditSession.BeginSave | App.tsx:51-94 | a save starts iff `isAdmin && hasChanges && !isSaving`, and then `isSaving` is set and the pending callback holds the current document; the document is unchanged |
| Session.EditSession.CompleteSave | App.tsx:54-59 | storage holds the snapshot taken at `BeginSave`, which the next load returns; `hasChanges` and `isSaving` are false; the document is unchanged |
| Session.EditSession.FailSave | App.tsx:54-58 | when `setItem` throws, the pending callback is gone while storage, document, `hasChanges` and `isSaving` are unchanged, so the save button no longer accepts a click |
| Session.EditSession.HeroChange | App.tsx:128 | the hero's `onChange(key, val)` updates `hero.key` and raises the dirty flag |
| Session.EditSession.ShowCaseChange | App.tsx:135 | the showcase's `onChange(key, val)` updates `showcase.key` and raises the dirty flag |
| Session.EditSession.BlurHero | components/Hero.tsx:103-128 | blurring a hero region sets `hero.<its key>` to the inner text and raises the dirty flag |
| Session.EditSession.BlurShowCase | components/ShowCase.tsx:88-111 | blurring a showcase region sets `showcase.<its key>` to the inner text and raises the dirty flag |
| Session.EditSession.BlurDetail | components/DetailPage.tsx:112-126 | the mission blur sets `sobre.missao`; a blur of any other detail region changes neither document nor dirty flag |
| Session.EditSession.SelectFiles | components/Hero.tsx:53-75 | in admin mode with a file selected, a read of the first file starts; otherwise nothing happens |
| Session.EditSession.ReadLoadEnd | components/Hero.tsx:57-60 | when a read ends the whole result becomes its target's media field and the dirty flag is raised |
| Session.SaveRoundTripScenario | App.tsx:43-60 | after "Nova Era" is blurred into `hero.title1`, the session is dirty and a second save click is refused; after the save it is clean, and the next load shows "Nova Era" |
| Session.EditDuringSaveScenario | App.tsx:51-59 | an edit made while the save is pending is not stored, and the session still reports no unsaved changes |
| Session.UnchangedBlurScenario | App.tsx:43-49 | a blur of a showcase region that is not uppercased, with unchanged text, leaves the document equal and the session dirty |
| Session.HeroVideoUploadScenario | components/Hero.tsx:53-75 | file selection outside admin mode starts no read; in admin mode a video file's data URL ends up rendered as a video |
| Session.SaveFailureScenario | App.tsx:51-59 | after a save whose `setItem` throws, storage still holds nothing, the session stays dirty and saving, and a later save click is refused |

## Left out

- JSON serialisation and `localStorage` are an abstract map from key to document. It is assumed
  that `JSON.parse(JSON.stringify(d)) == d`, which holds for string-valued objects. Malformed
  stored JSON makes `JSON.parse` throw at App.tsx:40; the model cannot express a malformed slot.
  A stored empty string, which is falsy and would select the defaults, cannot arise either.
- `setTimeout(800)` and `alert` become the split between `BeginSave` and `CompleteSave` (or `FailSave`). Time is
  not modelled; `CompleteSave` may be taken at any point while a save is pending.
- FileReader is a browser API: its result string is an input of `ReadLoadEnd`, and several reads
  may end in any order. `onloadend` also runs after a failed read, with a `null` result, which the
  code stores in the field. The model's result is always a string, so that failure path is absent.
- There is no size or type check on files. Only the `accept` attribute restricts file types, and
  the browser applies it in its own dialog; the model accepts any file.
- React's batching and re-rendering, the scroll and mouse effects, particles, the reveal observer,
  `LazyImage` and `ProjectCard` local state, and hover styling are decorative and not modelled.
- `innerText` is the text as rendered, after CSS. The model takes it as an input of the blur
  handlers and lets no styling apply. The showcase subtitle carries `uppercase`
  (components/ShowCase.tsx:89), so an untouched blur there commits the capitalised text.
- ShowCase.BlurUnchangedText: holds for the text the region stores; for the subtitle the browser
  reports the uppercased rendering instead, so the lemma does not describe that region's blur.
- Session.UnchangedBlurScenario: is stated only for showcase regions that are not uppercased, for
  the same reason.
- Session.EditSession.FailSave: the storage quota itself is not modelled; a failure may be taken
  whenever a save is pending.
- Outside admin mode the text regions are not `contentEditable`, so the browser does not focus
  them and emits no blur. The handlers in the code have no admin check, and neither do the blur
  methods; the model does not capture when the browser emits a blur.
- The Chatbox component (a client of an external text-generation API), Features and Footer
  (static copy), the navbar's mobile menu and page routing are not part of this model.
- The hero's rendering keeps the video test as the code writes it (`Hero.RenderMedia`); the
  intended test of the finding below is `Media.IsVideoIntended`.
- A missing section makes its component throw while rendering: `data.title1` when `hero` is
  absent, `data.mediaUrl.includes` when `hero.mediaUrl` is absent, `data.subtitle` when `showcase`
  is absent, and `siteData.sobre.missao` when `sobre` is absent. Each `Displayed` requires exactly
  what keeps its component from throwing; the thrown error itself is not modelled.

## Findings

| source | as written | input that shows it | evidently intended | confidence | as-written member | corrected member |
|---|---|---|---|---|---|---|
| components/Hero.tsx:151 | a value is rendered as video if it contains "video" anywhere, and inline data URLs are included | `data:image/png;base64,videoAAA` (an image whose padded base64 payload starts with the five base64 digits "video") renders in a `<video>` element | an inline data URL is a video exactly when its mime type is a video type; only remote locators use the substring test | medium, not executed | Media.ImageDataUrlMisclassified | Media.IsVideoIntendedDataUrl |
