/** The edit session of App.tsx: the state cells `siteData`, `isAdmin`,
    `hasChanges` and `isSaving`, the local storage they persist to, the
    two-phase save behind the admin panel's button, the admin toggle of
    components/Navbar.tsx, and the wiring of the components' change
    callbacks into `updateContent`. */
module Session {

  import opened Content
  import opened Media
  import Hero
  import ShowCase
  import DetailPage

  /** Which component's file reader a read belongs to. */
  datatype Target = HeroMedia | ShowCaseMedia

  /** A file read that has been started and whose `onloadend` has not yet run. */
  datatype MediaRead = MediaRead(target: Target, file: File)

  /** The section a target's component is bound to (App.tsx wires Hero to
      "hero" and ShowCase to "showcase"). */
  function TargetSection(t: Target): (section: string)
    ensures section in DefaultData
  {
    match t
    case HeroMedia => "hero"
    case ShowCaseMedia => "showcase"
  }

  /** The media field a target's reader replaces. */
  function TargetKey(t: Target): (key: string)
    ensures key in DefaultData[TargetSection(t)]
    ensures t == HeroMedia ==> forall r :: key != Hero.FieldOf(r)
    ensures t == ShowCaseMedia ==> forall r :: key != ShowCase.FieldOf(r)
  {
    match t
    case HeroMedia => Hero.MediaKey
    case ShowCaseMedia => ShowCase.MediaKey
  }

  class EditSession {
    var siteData: Document
    var isAdmin: bool
    var hasChanges: bool
    var isSaving: bool
    /** The browser's local storage. */
    var storage: Storage
    /** The documents captured by save callbacks that are scheduled and have
        not yet run, oldest first. Each callback closes over `siteData` as
        it was when the save button was clicked. */
    var timers: seq<Document>
    /** File reads in flight. */
    var fileReads: seq<MediaRead>

    /** Saves never overlap: at most one save callback is pending, and one
        is pending only while `isSaving` is set. The converse does not hold:
        a callback whose `setItem` throws leaves `isSaving` set with no
        callback pending. */
    ghost predicate Valid()
      reads this
    {
      |timers| <= 1 && (timers != [] ==> isSaving)
    }

    /** Mounting the app: the document is loaded, every flag is off. */
    constructor (stored: Storage)
      ensures Valid()
      ensures siteData == Load(stored) && storage == stored
      ensures !isAdmin && !hasChanges && !isSaving
      ensures timers == [] && fileReads == []
    {
      siteData := Load(stored);
      storage := stored;
      isAdmin, hasChanges, isSaving := false, false, false;
      timers, fileReads := [], [];
    }

    /** The save button is rendered only in admin mode with unsaved changes. */
    predicate SaveButtonShown()
      reads this
    {
      isAdmin && hasChanges
    }

    /** The save button accepts a click only when shown and not disabled by a
        save in progress. */
    predicate SaveButtonEnabled()
      reads this
    {
      SaveButtonShown() && !isSaving
    }

    /** `updateContent`: replace one field and raise the dirty flag, whether
        or not the value differs from the stored one. */
    method UpdateContent(section: string, key: string, value: string)
      requires Valid()
      modifies this
      ensures Valid()
      ensures siteData == Update(old(siteData), section, key, value)
      ensures hasChanges
      ensures isAdmin == old(isAdmin) && isSaving == old(isSaving)
      ensures storage == old(storage) && timers == old(timers) && fileReads == old(fileReads)
    {
      siteData := Update(siteData, section, key, value);
      hasChanges := true;
    }

    /** The navbar's admin button: `setIsAdmin(!isAdmin)`. Neither the
        document nor the dirty flag changes. */
    method ToggleAdmin()
      requires Valid()
      modifies this
      ensures Valid()
      ensures isAdmin == !old(isAdmin)
      ensures siteData == old(siteData) && hasChanges == old(hasChanges) && isSaving == old(isSaving)
      ensures storage == old(storage) && timers == old(timers) && fileReads == old(fileReads)
    {
      isAdmin := !isAdmin;
    }

    /** A click on the save button. When the button accepts it, `handleSave`
        sets `isSaving` and schedules the save callback with a snapshot of
        the current document; otherwise nothing happens. */
    method BeginSave() returns (started: bool)
      requires Valid()
      modifies this
      ensures Valid()
      ensures started == old(SaveButtonEnabled())
      ensures started ==> isSaving && timers == [old(siteData)]
      ensures !started ==> isSaving == old(isSaving) && timers == old(timers)
      ensures siteData == old(siteData) && hasChanges == old(hasChanges) && isAdmin == old(isAdmin)
      ensures storage == old(storage) && fileReads == old(fileReads)
    {
      started := SaveButtonEnabled();
      if started {
        isSaving := true;
        timers := timers + [siteData];
      }
    }

    /** The save callback runs: it stores the snapshot it captured, which
        is not the current document if edits were made during the delay,
        and clears both flags regardless. */
    method CompleteSave()
      requires Valid() && timers != []
      modifies this
      ensures Valid()
      ensures storage == Save(old(storage), old(timers)[0])
      ensures Load(storage) == old(timers)[0]
      ensures !hasChanges && !isSaving && timers == []
      ensures siteData == old(siteData) && isAdmin == old(isAdmin) && fileReads == old(fileReads)
    {
      storage := Save(storage, timers[0]);
      LoadAfterSave(old(storage), timers[0]);
      timers := timers[1..];
      hasChanges := false;
      isSaving := false;
    }

    /** The save callback runs and `setItem` throws (the serialised document
        exceeds the storage quota): the callback stops before it clears the
        flags, so nothing but the pending callback changes. Since no callback
        is pending any more and the button stays disabled, `isSaving` is
        never cleared again. */
    method FailSave()
      requires Valid() && timers != []
      modifies this
      ensures Valid()
      ensures timers == [] && isSaving && !SaveButtonEnabled()
      ensures storage == old(storage) && siteData == old(siteData)
      ensures hasChanges == old(hasChanges) && isAdmin == old(isAdmin) && fileReads == old(fileReads)
    {
      timers := timers[1..];
    }

    /** The hero's `onChange(key, val)`, bound to `updateContent('hero', key, val)`. */
    method HeroChange(c: Change)
      requires Valid()
      modifies this
      ensures Valid()
      ensures siteData == Update(old(siteData), "hero", c.key, c.value) && hasChanges
      ensures isAdmin == old(isAdmin) && isSaving == old(isSaving)
      ensures storage == old(storage) && timers == old(timers) && fileReads == old(fileReads)
    {
      UpdateContent("hero", c.key, c.value);
    }

    /** The showcase's `onChange(key, val)`, bound to `updateContent('showcase', key, val)`. */
    method ShowCaseChange(c: Change)
      requires Valid()
      modifies this
      ensures Valid()
      ensures siteData == Update(old(siteData), "showcase", c.key, c.value) && hasChanges
      ensures isAdmin == old(isAdmin) && isSaving == old(isSaving)
      ensures storage == old(storage) && timers == old(timers) && fileReads == old(fileReads)
    {
      UpdateContent("showcase", c.key, c.value);
    }

    /** A hero text region loses focus. */
    method BlurHero(r: Hero.Region, innerText: string)
      requires Valid()
      modifies this
      ensures Valid()
      ensures siteData == Update(old(siteData), "hero", Hero.FieldOf(r), innerText) && hasChanges
      ensures isAdmin == old(isAdmin) && isSaving == old(isSaving)
      ensures storage == old(storage) && timers == old(timers) && fileReads == old(fileReads)
    {
      HeroChange(Hero.OnBlur(r, innerText));
    }

    /** A showcase text region loses focus. */
    method BlurShowCase(r: ShowCase.Region, innerText: string)
      requires Valid()
      modifies this
      ensures Valid()
      ensures siteData == Update(old(siteData), "showcase", ShowCase.FieldOf(r), innerText) && hasChanges
      ensures isAdmin == old(isAdmin) && isSaving == old(isSaving)
      ensures storage == old(storage) && timers == old(timers) && fileReads == old(fileReads)
    {
      ShowCaseChange(ShowCase.OnBlur(r, innerText));
    }

    /** A detail-page region loses focus: only the mission paragraph
        reaches `updateContent`; any other region leaves everything as it was. */
    method BlurDetail(r: DetailPage.Region, innerText: string)
      requires Valid()
      modifies this
      ensures Valid()
      ensures r == DetailPage.Mission ==>
        siteData == Update(old(siteData), "sobre", "missao", innerText) && hasChanges
      ensures r != DetailPage.Mission ==> siteData == old(siteData) && hasChanges == old(hasChanges)
      ensures isAdmin == old(isAdmin) && isSaving == old(isSaving)
      ensures storage == old(storage) && timers == old(timers) && fileReads == old(fileReads)
    {
      var commit := DetailPage.OnBlur(r, innerText);
      if commit.Some? {
        UpdateContent(commit.value.section, commit.value.key, commit.value.value);
      }
    }

    /** A file selection on a component's file input (`handleFileChange`).
        The input exists only in admin mode; with no file selected nothing
        happens, otherwise a read of the first file starts. */
    method SelectFiles(t: Target, files: seq<File>)
      requires Valid()
      modifies this
      ensures Valid()
      ensures fileReads == old(fileReads) +
        (if InputMounted(old(isAdmin)) && |files| > 0 then [MediaRead(t, files[0])] else [])
      ensures siteData == old(siteData) && hasChanges == old(hasChanges)
      ensures isAdmin == old(isAdmin) && isSaving == old(isSaving)
      ensures storage == old(storage) && timers == old(timers)
    {
      if InputMounted(isAdmin) {
        var file := SelectedFile(files);
        if file.Some? {
          fileReads := fileReads + [MediaRead(t, file.value)];
        }
      }
    }

    /** The `onloadend` callback of the `i`-th read in flight runs with the
        reader's result: the whole result becomes the target's media field,
        through the component's `onChange`. */
    method ReadLoadEnd(i: nat, result: string)
      requires Valid() && i < |fileReads|
      modifies this
      ensures Valid()
      ensures siteData ==
        Update(old(siteData), TargetSection(old(fileReads)[i].target), TargetKey(old(fileReads)[i].target), result)
      ensures hasChanges
      ensures fileReads == old(fileReads)[..i] + old(fileReads)[i + 1..]
      ensures isAdmin == old(isAdmin) && isSaving == old(isSaving)
      ensures storage == old(storage) && timers == old(timers)
    {
      var read := fileReads[i];
      fileReads := fileReads[..i] + fileReads[i + 1..];
      match read.target
      case HeroMedia => HeroChange(Hero.OnLoadEnd(result));
      case ShowCaseMedia => ShowCaseChange(ShowCase.OnLoadEnd(result));
    }
  }

  /** Default document, admin on, "Nova Era" typed into the first hero title
      and saved: the edit marks the session dirty, the save clears it, a
      second click during the save is refused, and the next start-up loads
      the edit. */
  method SaveRoundTripScenario() returns (title: string, dirtyAfterEdit: bool, secondClick: bool,
                                          dirtyAfterSave: bool, reloaded: string)
    ensures title == "Nova Era" && dirtyAfterEdit && !secondClick
    ensures !dirtyAfterSave && reloaded == "Nova Era"
  {
    var s := new EditSession(map[]);
    s.ToggleAdmin();
    s.BlurHero(Hero.Title1, "Nova Era");
    title := s.siteData["hero"]["title1"];
    dirtyAfterEdit := s.hasChanges;
    var started := s.BeginSave();
    secondClick := s.BeginSave();
    s.CompleteSave();
    dirtyAfterSave := s.hasChanges;
    var next := new EditSession(s.storage);
    reloaded := next.siteData["hero"]["title1"];
  }

  /** An edit made while a save is pending is not stored, yet the session
      reports no unsaved changes once the save completes. */
  method EditDuringSaveScenario(first: string, second: string) returns (stored: Document, current: Document, dirty: bool)
    requires first != second
    ensures stored == Update(DefaultData, "hero", "title1", first)
    ensures current == Update(DefaultData, "hero", "title1", second)
    ensures stored != current && !dirty
  {
    var s := new EditSession(map[]);
    s.ToggleAdmin();
    s.BlurHero(Hero.Title1, first);
    var started := s.BeginSave();
    s.BlurHero(Hero.Title1, second);
    s.CompleteSave();
    stored := Load(s.storage);
    current := s.siteData;
    dirty := s.hasChanges;
    LastWriteWins(DefaultData, "hero", "title1", first, second);
    assert stored["hero"]["title1"] != current["hero"]["title1"];
  }

  /** Blurring a region without changing its text leaves the document as it
      was but still marks the session dirty. The subtitle is left out: its
      `innerText` is the uppercased rendering, not the stored text. */
  method UnchangedBlurScenario(r: ShowCase.Region) returns (same: bool, dirty: bool)
    requires !ShowCase.Uppercased(r)
    ensures same && dirty
  {
    var s := new EditSession(map[]);
    s.ToggleAdmin();
    var before := s.siteData;
    ShowCase.BlurUnchangedText(before, r);
    s.BlurShowCase(r, ShowCase.Displayed(r, before["showcase"]));
    same := s.siteData == before;
    dirty := s.hasChanges;
  }

  /** A video file selected for the hero, read and stored: the hero then
      renders a video; outside admin mode the same selection does nothing. */
  method HeroVideoUploadScenario(file: File, payload: string) returns (video: bool, readsOutsideAdmin: nat)
    requires StartsWith(file.mimeType, "video")
    ensures video && readsOutsideAdmin == 0
  {
    var s := new EditSession(map[]);
    s.SelectFiles(HeroMedia, [file]);
    readsOutsideAdmin := |s.fileReads|;
    s.ToggleAdmin();
    s.SelectFiles(HeroMedia, [file]);
    s.ReadLoadEnd(0, DataUrl(file.mimeType, payload));
    Hero.VideoDataUrlRendersVideo(file.mimeType, payload, s.siteData["hero"]);
    video := Hero.RenderMedia(s.siteData["hero"]).VideoElement?;
  }

  /** A save whose `setItem` throws: the edit is not stored, the session
      stays dirty and saving, and a later click on the save button is
      refused, so nothing can be saved for the rest of the session. */
  method SaveFailureScenario(text: string) returns (stored: Document, dirty: bool, saving: bool, retry: bool)
    ensures stored == DefaultData
    ensures dirty && saving && !retry
  {
    var s := new EditSession(map[]);
    s.ToggleAdmin();
    s.BlurHero(Hero.Title1, text);
    var started := s.BeginSave();
    s.FailSave();
    s.BlurHero(Hero.Title2, text);
    retry := s.BeginSave();
    stored := Load(s.storage);
    dirty, saving := s.hasChanges, s.isSaving;
  }
}
