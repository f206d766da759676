/** The showcase component (components/ShowCase.tsx): three editable text
    regions that report their text on blur, the main image that the file
    reader replaces, and the two cards that navigate to the posts page. */
module ShowCase {

  import opened Content
  import opened Media

  /** The showcase's text regions that carry a blur handler. */
  datatype Region = Subtitle | Title | Description

  /** The field the main card's image shows and the file reader replaces. */
  const MediaKey: string := "mainImage"

  /** The field a region displays, `{data.subtitle}` and so on. */
  function FieldOf(r: Region): (key: string)
    ensures key in DefaultShowCase && key != MediaKey
  {
    match r
    case Subtitle => "subtitle"
    case Title => "title"
    case Description => "description"
  }

  /** The text a region shows. React renders an absent field as no text. */
  function Displayed(r: Region, data: Section): (text: string)
    ensures FieldOf(r) in data ==> text == data[FieldOf(r)]
    ensures FieldOf(r) !in data ==> text == ""
  {
    if FieldOf(r) in data then data[FieldOf(r)] else ""
  }

  /** `onBlur={(e) => onChange(key, e.currentTarget.innerText)}`: the
      region's current text, verbatim, for the field it displays. */
  function OnBlur(r: Region, innerText: string): (c: Change)
    ensures c.value == innerText
    ensures c.key in DefaultShowCase && c.key != MediaKey
  {
    Change(FieldOf(r), innerText)
  }

  /** `reader.onloadend`: the whole reader result becomes `mainImage`. */
  function OnLoadEnd(result: string): (c: Change)
    ensures c.key in DefaultShowCase && c.value == result
    ensures forall r :: c.key != OnBlur(r, result).key
  {
    Change(MediaKey, result)
  }

  /** No two regions write the same field. */
  lemma BlurFieldsDistinct(r1: Region, r2: Region, t1: string, t2: string)
    requires r1 != r2
    ensures OnBlur(r1, t1).key != OnBlur(r2, t2).key
  {
  }

  /** Once a blur is committed, the region shows exactly the committed text
      and the other regions still show what they showed before. */
  lemma BlurThenDisplay(d: Document, r: Region, innerText: string, other: Region)
    requires "showcase" in d
    ensures Displayed(r, Update(d, "showcase", OnBlur(r, innerText).key, innerText)["showcase"]) == innerText
    ensures other != r ==>
      Displayed(other, Update(d, "showcase", OnBlur(r, innerText).key, innerText)["showcase"]) == Displayed(other, d["showcase"])
  {
  }

  /** Blurring a region whose text was not changed leaves the document as
      it was exactly when the region's field is present (the session still
      marks it dirty); a blur of an absent field's empty region adds the
      field with the empty text. */
  lemma BlurUnchangedText(d: Document, r: Region)
    requires "showcase" in d
    ensures Update(d, "showcase", OnBlur(r, Displayed(r, d["showcase"])).key, Displayed(r, d["showcase"])) == d
      <==> FieldOf(r) in d["showcase"]
  {
    var after := Update(d, "showcase", FieldOf(r), Displayed(r, d["showcase"]));
    if FieldOf(r) in d["showcase"] {
      UpdateWithStoredValue(d, "showcase", FieldOf(r));
    } else {
      assert FieldOf(r) in after["showcase"];
    }
  }

  /** Whether the region's styling uppercases its rendering (the
      `uppercase` class of the subtitle, CSS `text-transform: uppercase`).
      The browser's `innerText` is the rendered text, so a blur of such a
      region reports the uppercased text rather than the stored one. */
  function Uppercased(r: Region): bool
  {
    r == Subtitle
  }

  /** The two cards of the section. */
  datatype Card = MainCard | SecondaryCard

  /** The page a click on a card navigates to, if any: the main card only
      outside admin mode (`!isAdmin && onNavigate?.('postagens')`), the
      secondary card always. */
  function CardClick(card: Card, isAdmin: bool): (page: Option<string>)
    ensures page.Some? ==> page.value == "postagens"
    ensures page.None? <==> card == MainCard && isAdmin
  {
    match card
    case MainCard => if !isAdmin then Some("postagens") else None
    case SecondaryCard => Some("postagens")
  }

  /** The "change photo" button, which opens the picker, is shown only in admin mode. */
  function ChangePhotoButtonShown(isAdmin: bool): bool
  {
    isAdmin
  }

  /** A click on the "change photo" button opens the picker exactly in admin mode. */
  lemma ChangePhotoOpensPickerIffAdmin(isAdmin: bool)
    ensures (ChangePhotoButtonShown(isAdmin) && PickerOpens(isAdmin, InputMounted(isAdmin))) == isAdmin
  {
  }
}
