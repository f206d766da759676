/** Media ingestion shared by the hero and showcase components
    (components/Hero.tsx, components/ShowCase.tsx): which selected file is
    read, the shape of the reader's result, and how a media value is
    classified as video or image for rendering. */
module Media {

  import opened Content

  /** A file handed over by the file input. Its bytes are never inspected
      by the site; the reader's result string is an input to the model. */
  datatype File = File(name: string, mimeType: string)

  datatype Option<T> = None | Some(value: T)

  /** `e.target.files?.[0]`: the first selected file, if any. */
  function SelectedFile(files: seq<File>): (f: Option<File>)
    ensures f.Some? <==> |files| > 0
    ensures f.Some? ==> f.value == files[0]
  {
    if |files| > 0 then Some(files[0]) else None
  }

  /** The hidden file input is rendered only in admin mode. */
  function InputMounted(isAdmin: bool): bool
  {
    isAdmin
  }

  /** `handleImageClick`: the picker is opened only in admin mode and only
      when the input element is mounted. */
  function PickerOpens(isAdmin: bool, inputMounted: bool): (opens: bool)
    ensures opens ==> isAdmin && inputMounted
  {
    isAdmin && inputMounted
  }

  /** With the input mounted exactly in admin mode, clicking the media
      opens the picker exactly in admin mode. */
  lemma PickerOpensIffAdmin(isAdmin: bool)
    ensures PickerOpens(isAdmin, InputMounted(isAdmin)) == isAdmin
  {
  }

  /** JavaScript's `s.startsWith(p)`: the first `|p|` characters of `s` are `p`. */
  predicate StartsWith(s: string, p: string): (b: bool)
    ensures b <==> |p| <= |s| && s[..|p|] == p
  {
    p <= s
  }

  /** JavaScript's `s.includes(p)`: `p` occurs at some position of `s`.
      A prefix is an occurrence, and nothing longer than `s` occurs in it. */
  predicate Includes(s: string, p: string): (b: bool)
    ensures StartsWith(s, p) ==> b
    ensures b ==> |p| <= |s|
  {
    assert StartsWith(s, p) ==> OccursAt(s, p, 0);
    exists i | 0 <= i <= |s| - |p| :: OccursAt(s, p, i)
  }

  /** `p` occurs in `s` starting at position `i`. */
  predicate OccursAt(s: string, p: string, i: int)
  {
    0 <= i <= |s| - |p| && s[i..i + |p|] == p
  }

  /** The result of `readAsDataURL`, in the shape of section 3 of RFC 2397:
      `data:<mime>;base64,<data>`. */
  function DataUrl(mimeType: string, payload: string): (url: string)
    ensures StartsWith(url, "data:")
    ensures |url| == 13 + |mimeType| + |payload|
    ensures url[5..5 + |mimeType|] == mimeType
    ensures url[5 + |mimeType|..13 + |mimeType|] == ";base64,"
    ensures url[13 + |mimeType|..] == payload
  {
    "data:" + mimeType + ";base64," + payload
  }

  /** The classification of components/Hero.tsx as written:
      `includes('video') || startsWith('data:video')`. */
  predicate IsVideo(url: string)
  {
    Includes(url, "video") || StartsWith(url, "data:video")
  }

  /** The second disjunct adds nothing: a value renders as video exactly
      when it contains "video". */
  lemma IsVideoIffIncludesVideo(url: string)
    ensures IsVideo(url) <==> Includes(url, "video")
  {
    if StartsWith(url, "data:video") {
      assert url[..10] == "data:video";
      assert url[5..10] == url[..10][5..10];
      assert OccursAt(url, "video", 5);
    }
  }

  /** A value in which the letter 'v' does not occur is classified as an image. */
  lemma WithoutVIsImage(url: string)
    requires 'v' !in url
    ensures !IsVideo(url)
  {
    IsVideoIffIncludesVideo(url);
    forall i | 0 <= i <= |url| - 5
      ensures !OccursAt(url, "video", i)
    {
      if OccursAt(url, "video", i) {
        OccurrenceStartsWithV(url, i);
      }
    }
  }

  lemma OccurrenceStartsWithV(url: string, i: int)
    requires OccursAt(url, "video", i)
    ensures url[i] == 'v'
  {
    assert url[i] == url[i..i + 5][0];
  }

  /** The default `hero.mediaUrl` (a remote photo) is rendered as an image. */
  lemma DefaultHeroMediaIsImage()
    ensures !IsVideo(DefaultData["hero"]["mediaUrl"])
  {
    assert DefaultData["hero"]["mediaUrl"] == DefaultHeroMediaUrl;
    DefaultHeroMediaHasNoV();
    WithoutVIsImage(DefaultHeroMediaUrl);
  }

  /** The letter 'v' occurs in none of the three parts of the default hero media. */
  lemma DefaultHeroMediaHasNoV()
    ensures 'v' !in DefaultHeroMediaUrl
  {
    HostHasNoV();
    PathHasNoV();
    QueryHasNoV();
  }

  lemma HostHasNoV()
    ensures 'v' !in "https://images.unsplash.com"
  {
  }

  lemma PathHasNoV()
    ensures 'v' !in "/photo-1639762681485-074b7f938ba0"
  {
  }

  lemma QueryHasNoV()
    ensures 'v' !in "?auto=format&fit=crop&q=80&w=2832"
  {
  }

  /** The data URL of an image whose base64 payload starts with "video"
      (all five letters are base64 digits; the payload is padded to a
      multiple of four, as `readAsDataURL` emits it) is classified as a
      video by the predicate as written. */
  lemma ImageDataUrlMisclassified()
    ensures |"videoAAA"| % 4 == 0
    ensures IsVideo(DataUrl("image/png", "videoAAA"))
  {
    var url := DataUrl("image/png", "videoAAA");
    assert url == "data:image/png;base64,videoAAA";
    assert OccursAt(url, "video", 22);
  }

  /** The intended classification: an inline value is a video exactly when
      its mime type is a video type; a remote locator keeps the substring
      test. */
  predicate IsVideoIntended(url: string)
  {
    if StartsWith(url, "data:") then StartsWith(url, "data:video") else Includes(url, "video")
  }

  /** For the reader's results the intended classification depends only on
      the mime type, never on the payload. */
  lemma IsVideoIntendedDataUrl(mimeType: string, payload: string)
    ensures IsVideoIntended(DataUrl(mimeType, payload)) <==> StartsWith(mimeType, "video")
  {
    var rest := mimeType + ";base64," + payload;
    assert DataUrl(mimeType, payload) == "data:" + rest;
    DataPrefix(rest);
    if |mimeType| < 5 {
      assert rest[|mimeType|] == ';';
    } else {
      assert rest[..5] == mimeType[..5];
    }
  }

  /** Behind the scheme, a data URL starts with "video" exactly when the
      whole URL starts with "data:video". */
  lemma DataPrefix(rest: string)
    ensures StartsWith("data:" + rest, "data:video") <==> StartsWith(rest, "video")
  {
    var url := "data:" + rest;
    if |url| >= 10 {
      assert url[..10] == "data:" + rest[..5];
      assert "data:video" == "data:" + "video";
      assert StartsWith(url, "data:video") <==> url[..10] == "data:video";
      assert StartsWith(rest, "video") <==> rest[..5] == "video";
      assert ("data:" + rest[..5])[5..] == rest[..5];
    }
  }

  /** On remote locators the intended classification agrees with the one
      as written. */
  lemma IsVideoIntendedOnRemote(url: string)
    requires !StartsWith(url, "data:")
    ensures IsVideoIntended(url) <==> IsVideo(url)
  {
    IsVideoIffIncludesVideo(url);
  }
}
