/** The hero component (components/Hero.tsx): three editable text regions
    that report their text on blur, and the media slot that renders the
    `mediaUrl` field as a video or an image. */
module Hero {

  import opened Content
  import opened Media

  /** The hero's text regions that carry a blur handler. */
  datatype Region = Title1 | Title2 | Description

  /** The field the media slot shows and the file reader replaces. */
  const MediaKey: string := "mediaUrl"

  /** The field a region displays, `{data.title1}` and so on. */
  function FieldOf(r: Region): (key: string)
    ensures key in DefaultHero && key != MediaKey
  {
    match r
    case Title1 => "title1"
    case Title2 => "title2"
    case Description => "description"
  }

  /** The text a region shows. React renders an absent field as no text;
      `data.mediaUrl.includes` at line 151 throws when `mediaUrl` is
      absent, so the component renders nothing at all without it. */
  function Displayed(r: Region, data: Section): (text: string)
    requires MediaKey in data
    ensures FieldOf(r) in data ==> text == data[FieldOf(r)]
    ensures FieldOf(r) !in data ==> text == ""
  {
    if FieldOf(r) in data then data[FieldOf(r)] else ""
  }

  /** `onBlur={(e) => onChange(key, e.currentTarget.innerText)}`: the
      region's current text, verbatim, for the field it displays. */
  function OnBlur(r: Region, innerText: string): (c: Change)
    ensures c.value == innerText
    ensures c.key in DefaultHero && c.key != MediaKey
  {
    Change(FieldOf(r), innerText)
  }

  /** `reader.onloadend`: the whole reader result becomes `mediaUrl`. */
  function OnLoadEnd(result: string): (c: Change)
    ensures c.key in DefaultHero && c.value == result
    ensures forall r :: c.key != OnBlur(r, result).key
  {
    Change(MediaKey, result)
  }

  /** No two regions write the same field. */
  lemma BlurFieldsDistinct(r1: Region, r2: Region, t1: string, t2: string)
    requires r1 != r2
    ensures OnBlur(r1, t1).key != OnBlur(r2, t2).key
  {
  }

  /** Once a blur is committed, the region shows exactly the committed text
      and the other regions still show what they showed before. */
  lemma BlurThenDisplay(d: Document, r: Region, innerText: string, other: Region)
    requires "hero" in d && MediaKey in d["hero"]
    ensures MediaKey in Update(d, "hero", OnBlur(r, innerText).key, innerText)["hero"]
    ensures Displayed(r, Update(d, "hero", OnBlur(r, innerText).key, innerText)["hero"]) == innerText
    ensures other != r ==>
      Displayed(other, Update(d, "hero", OnBlur(r, innerText).key, innerText)["hero"]) == Displayed(other, d["hero"])
  {
  }

  /** Blurring a region whose text was not changed leaves the document as
      it was exactly when the region's field is present (the session still
      marks it dirty); a blur of an absent field's empty region adds the
      field with the empty text. */
  lemma BlurUnchangedText(d: Document, r: Region)
    requires "hero" in d && MediaKey in d["hero"]
    ensures Update(d, "hero", OnBlur(r, Displayed(r, d["hero"])).key, Displayed(r, d["hero"])) == d
      <==> FieldOf(r) in d["hero"]
  {
    var after := Update(d, "hero", FieldOf(r), Displayed(r, d["hero"]));
    if FieldOf(r) in d["hero"] {
      UpdateWithStoredValue(d, "hero", FieldOf(r));
    } else {
      assert FieldOf(r) in after["hero"];
    }
  }

  /** The element the media slot renders. */
  datatype MediaElement = VideoElement(src: string) | ImageElement(src: string)

  /** Line 151: a `<video>` when the value passes the video test, an `<img>`
      otherwise; either way the value itself is the source. */
  function RenderMedia(data: Section): (e: MediaElement)
    requires MediaKey in data
    ensures e.src == data[MediaKey]
    ensures e.VideoElement? <==> Includes(data[MediaKey], "video")
  {
    IsVideoIffIncludesVideo(data[MediaKey]);
    if IsVideo(data[MediaKey]) then VideoElement(data[MediaKey]) else ImageElement(data[MediaKey])
  }

  /** The default hero media renders as an image. */
  lemma DefaultMediaRendersImage()
    ensures RenderMedia(DefaultHero).ImageElement?
  {
    DefaultHeroMediaIsImage();
  }

  /** A video file's data URL renders as a video. */
  lemma VideoDataUrlRendersVideo(mimeType: string, payload: string, data: Section)
    requires StartsWith(mimeType, "video")
    ensures RenderMedia(data[MediaKey := DataUrl(mimeType, payload)]).VideoElement?
  {
    IsVideoIntendedDataUrl(mimeType, payload);
  }
}
