/** The detail pages (components/DetailPage.tsx): `renderContent` picks a
    view by page id; the about view's mission paragraph is the only region
    on these pages whose edits are committed to the document. */
module DetailPage {

  import opened Content
  import opened Media

  /** The editable regions of the detail pages. Only `Mission` has a blur
      handler; project cards, posts and stat figures are editable in admin
      mode but report nothing. */
  datatype Region =
    | Mission
    | ProjectTitle(card: nat)
    | ProjectText(card: nat)
    | PostTitle(post: nat)
    | PostBody(post: nat)
    | StatFigure(stat: nat)

  /** A call `updateContent(section, key, value)`. */
  datatype Commit = Commit(section: string, key: string, value: string)

  /** What a region reports on blur: the mission paragraph commits its
      text to `sobre.missao`, every other region commits nothing. */
  function OnBlur(r: Region, innerText: string): (c: Option<Commit>)
    ensures c.Some? <==> r == Mission
    ensures c.Some? ==> c.value.section in DefaultData && c.value.key in DefaultData[c.value.section]
    ensures c.Some? ==> c.value.value == innerText
  {
    if r == Mission then Some(Commit("sobre", "missao", innerText)) else None
  }

  /** Whether a region accepts typing: every region of the detail pages
      carries `contentEditable={isAdmin}`. */
  function Editable(r: Region, isAdmin: bool): bool
  {
    isAdmin
  }

  /** The view `renderContent` returns. */
  datatype View =
    | Projects(cards: seq<nat>)
    | Photos(images: seq<nat>)
    | Posts(posts: seq<nat>)
    | About
    | Nothing

  /** `renderContent`: the switch on the page id. */
  function RenderContent(page: string): (v: View)
    ensures v.Projects? <==> page == "projetos"
    ensures v.Photos? <==> page == "fotos"
    ensures v.Posts? <==> page == "postagens"
    ensures v.About? <==> page == "sobre"
    ensures v.Nothing? <==> page !in {"projetos", "fotos", "postagens", "sobre"}
  {
    match page
    case "projetos" => Projects([1, 2, 3, 4])
    case "fotos" => Photos(seq(12, i => i))
    case "postagens" => Posts([1, 2, 3])
    case "sobre" => About
    case _ => Nothing
  }

  /** The number of cards, images and posts each page shows. */
  lemma RenderCounts()
    ensures |RenderContent("projetos").cards| == 4
    ensures |RenderContent("fotos").images| == 12
    ensures |RenderContent("postagens").posts| == 3
    ensures forall k :: 0 <= k < 12 ==> RenderContent("fotos").images[k] == k
  {
  }

  /** The editable regions a view contains. */
  function Regions(v: View): set<Region>
  {
    match v
    case Projects(cards) => (set i | i in cards :: ProjectTitle(i)) + (set i | i in cards :: ProjectText(i))
    case Photos(_) => {}
    case Posts(posts) => (set i | i in posts :: PostTitle(i)) + (set i | i in posts :: PostBody(i))
    case About => {Mission, StatFigure(0), StatFigure(1)}
    case Nothing => {}
  }

  /** Of the regions a detail page shows, each is editable exactly in admin
      mode, and the only one whose edit reaches the document is the mission
      paragraph of the about page. */
  lemma OnlyMissionCommits(page: string, r: Region, isAdmin: bool, innerText: string)
    requires r in Regions(RenderContent(page))
    ensures Editable(r, isAdmin) <==> isAdmin
    ensures OnBlur(r, innerText).Some? <==> page == "sobre" && r == Mission
  {
  }

  /** The mission paragraph appears on the about page and nowhere else. */
  lemma MissionOnlyOnAbout(page: string)
    ensures Mission in Regions(RenderContent(page)) <==> page == "sobre"
  {
  }

  /** `siteData.sobre` exists, so that reading `siteData.sobre.missao`
      does not throw. */
  predicate HasAbout(siteData: Document)
  {
    "sobre" in siteData
  }

  /** Decimal digits of a natural number, as a template literal prints it:
      one digit below ten, and otherwise the digits of `n / 10` followed by
      the last digit. */
  function NatToString(n: nat): (s: string)
    ensures |s| > 0
    ensures forall k :: 0 <= k < |s| ==> '0' <= s[k] <= '9'
    ensures n < 10 <==> |s| == 1
    ensures s[|s| - 1] == (48 + n % 10) as char
    decreases n
  {
    var digit := [(48 + n % 10) as char];
    if n < 10 then digit else NatToString(n / 10) + digit
  }

  /** The text a region shows: the mission paragraph shows the document's
      `sobre.missao` (no text when that field is absent), every other
      region shows fixed, non-empty copy. The about view reads
      `siteData.sobre.missao`, which throws without `sobre`, so neither
      the paragraph nor the stat figures beside it render then. */
  function Displayed(r: Region, siteData: Document): (text: string)
    requires r == Mission || r.StatFigure? ==> HasAbout(siteData)
    ensures r == Mission && "missao" in siteData["sobre"] ==> text == siteData["sobre"]["missao"]
    ensures r == Mission && "missao" !in siteData["sobre"] ==> text == ""
    ensures r != Mission ==> |text| > 0
  {
    match r
    case Mission => if "missao" in siteData["sobre"] then siteData["sobre"]["missao"] else ""
    case ProjectTitle(i) => "Alpha System 0" + NatToString(i)
    case ProjectText(_) => "Desenvolvimento de interface neural avançada para processamento de dados quânticos."
    case PostTitle(i) =>
      if i == 1 then "O Futuro das Interfaces Espaciais"
      else if i == 2 then "Arquitetura de Dados em Escala Galáctica"
      else "Design Minimalista"
    case PostBody(_) => "Explorando como a realidade aumentada está mudando a forma como interagimos com o vácuo digital."
    case StatFigure(i) => if i == 0 then "12k+" else "99.9%"
  }

  /** An unbound region's text does not depend on the document in either
      direction: it never shows document content and never writes it. */
  lemma UnboundRegionsIgnoreDocument(r: Region, d1: Document, d2: Document, innerText: string)
    requires r != Mission
    requires r.StatFigure? ==> HasAbout(d1) && HasAbout(d2)
    ensures Displayed(r, d1) == Displayed(r, d2)
    ensures OnBlur(r, innerText).None?
  {
  }

  /** Committing the mission paragraph's text makes the paragraph show
      exactly that text. */
  lemma MissionBlurThenDisplay(d: Document, innerText: string)
    ensures HasAbout(Update(d, "sobre", "missao", innerText))
    ensures OnBlur(Mission, innerText) == Some(Commit("sobre", "missao", innerText))
    ensures Displayed(Mission, Update(d, "sobre", "missao", innerText)) == innerText
  {
  }

  /** The four project cards are titled "Alpha System 01" to "Alpha System 04". */
  lemma ProjectTitles(d: Document)
    ensures forall i :: i in RenderContent("projetos").cards ==>
      Displayed(ProjectTitle(i), d) == "Alpha System 0" + [(48 + i) as char]
  {
    forall i | i in RenderContent("projetos").cards
      ensures Displayed(ProjectTitle(i), d) == "Alpha System 0" + [(48 + i) as char]
    {
      assert i < 10;
    }
  }
}
