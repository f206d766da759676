/** The site's content document and its persistence slot (App.tsx).
    A document maps a section name ("hero", "showcase", "sobre") to a
    section, which maps a field name to its text or media value. */
module Content {

  type Section = map<string, string>
  type Document = map<string, Section>

  /** Durable local storage, one document per slot. The serialisation to
      JSON and back is abstracted: a slot holds the document itself. */
  type Storage = map<string, Document>

  /** A component's change notification `onChange(key, value)`. */
  datatype Change = Change(key: string, value: string)

  /** The single storage slot the site uses. */
  const StorageKey: string := "o_poderoso_site_data_v3"

  const DefaultHero: Section := map[
    "title1" := "A Próxima Era da",
    "title2" := "Inteligência Digital",
    "description" := "Construa o futuro com infraestrutura escalável, design minimalista e performance de ponta. A plataforma definitiva para criadores e engenheiros de elite.",
    "mediaUrl" := DefaultHeroMediaUrl
  ]

  /** The default hero media, a remote photo; written as host, path and
      query so that the verifier can inspect each part. */
  const DefaultHeroMediaUrl: string :=
    "https://images.unsplash.com" + "/photo-1639762681485-074b7f938ba0" + "?auto=format&fit=crop&q=80&w=2832"

  const DefaultShowCase: Section := map[
    "mainImage" := "https://images.unsplash.com/photo-1451187580459-43490279c0fa?auto=format&fit=crop&q=80&w=2072",
    "title" := "Dados em Tempo Real",
    "subtitle" := "Analytics de Próxima Geração",
    "description" := "Monitore cada interação com precisão cirúrgica. Nossa engine de processamento lida com bilhões de eventos diariamente."
  ]

  const DefaultSobre: Section := map[
    "missao" := "Nascemos da necessidade de criar ferramentas que acompanhem a velocidade da luz. O Poderoso não é apenas uma empresa de tecnologia, é um laboratório de experiências futuras."
  ]

  /** The built-in document used when nothing is stored. */
  const DefaultData: Document := map[
    "hero" := DefaultHero,
    "showcase" := DefaultShowCase,
    "sobre" := DefaultSobre
  ]

  /** The default document has the three sections the components read,
      each with exactly the fields its component displays or replaces, and
      every default value is non-empty. */
  lemma DefaultDataFields()
    ensures DefaultData.Keys == {"hero", "showcase", "sobre"}
    ensures DefaultData["hero"].Keys == {"title1", "title2", "description", "mediaUrl"}
    ensures DefaultData["showcase"].Keys == {"mainImage", "title", "subtitle", "description"}
    ensures DefaultData["sobre"].Keys == {"missao"}
    ensures forall s, k :: s in DefaultData && k in DefaultData[s] ==> |DefaultData[s][k]| > 0
  {
  }

  /** The section as the spread `...prev[section]` sees it: an absent
      section spreads as the empty object. */
  function SectionOf(d: Document, section: string): (s: Section)
    ensures section in d ==> s == d[section]
    ensures section !in d ==> s == map[]
  {
    if section in d then d[section] else map[]
  }

  /** The document transform of `updateContent`: replace one field of one
      section, keeping every other section and every other field. */
  function Update(d: Document, section: string, key: string, value: string): (r: Document)
    ensures r.Keys == d.Keys + {section}
    ensures r[section].Keys == SectionOf(d, section).Keys + {key}
    ensures r[section][key] == value
    ensures forall s :: s in d && s != section ==> r[s] == d[s]
    ensures forall k :: k in SectionOf(d, section) && k != key ==> r[section][k] == SectionOf(d, section)[k]
  {
    d[section := SectionOf(d, section)[key := value]]
  }

  /** The initialiser of `siteData`: the stored document if the slot is
      occupied, otherwise the defaults. */
  function Load(storage: Storage): (d: Document)
    ensures StorageKey in storage ==> d == storage[StorageKey]
    ensures StorageKey !in storage ==> d == DefaultData
  {
    if StorageKey in storage then storage[StorageKey] else DefaultData
  }

  /** `localStorage.setItem(STORAGE_KEY, JSON.stringify(doc))`: only the
      site's own slot changes. */
  function Save(storage: Storage, doc: Document): (r: Storage)
    ensures r.Keys == storage.Keys + {StorageKey}
    ensures r[StorageKey] == doc
    ensures forall k :: k in storage && k != StorageKey ==> r[k] == storage[k]
  {
    storage[StorageKey := doc]
  }

  /** What is saved is what the next start-up loads. */
  lemma LoadAfterSave(storage: Storage, doc: Document)
    ensures Load(Save(storage, doc)) == doc
  {
  }

  /** Saving the same document twice leaves the same storage as saving it once. */
  lemma SaveIdempotent(storage: Storage, doc: Document)
    ensures Save(Save(storage, doc), doc) == Save(storage, doc)
  {
  }

  /** With an empty slot the document is exactly the defaults. */
  lemma LoadEmptyIsDefault()
    ensures Load(map[]) == DefaultData
    ensures Load(map[])["hero"]["title1"] == "A Próxima Era da"
  {
  }

  /** A stored document is taken verbatim: a stored document without a
      section stays without it (there is no per-section fallback). */
  lemma LoadDoesNotMergeDefaults(doc: Document)
    requires "showcase" !in doc
    ensures "showcase" !in Load(Save(map[], doc))
  {
    LoadAfterSave(map[], doc);
  }

  /** Updating an absent section creates it holding only the updated key. */
  lemma UpdateAbsentSection(d: Document, section: string, key: string, value: string)
    requires section !in d
    ensures Update(d, section, key, value)[section] == map[key := value]
  {
  }

  /** Last write wins: a second update of the same field overrides the first. */
  lemma LastWriteWins(d: Document, section: string, key: string, v1: string, v2: string)
    ensures Update(Update(d, section, key, v1), section, key, v2) == Update(d, section, key, v2)
  {
    var once := Update(d, section, key, v2);
    var twice := Update(Update(d, section, key, v1), section, key, v2);
    assert twice[section] == once[section];
  }

  /** Updates of two different fields do not interfere: their order does not matter. */
  lemma UpdatesCommute(d: Document, s1: string, k1: string, v1: string, s2: string, k2: string, v2: string)
    requires s1 != s2 || k1 != k2
    ensures Update(Update(d, s1, k1, v1), s2, k2, v2) == Update(Update(d, s2, k2, v2), s1, k1, v1)
  {
    var once1, once2 := Update(d, s1, k1, v1), Update(d, s2, k2, v2);
    if s1 == s2 {
      var base := SectionOf(d, s1);
      assert SectionOf(once1, s1) == base[k1 := v1];
      assert SectionOf(once2, s1) == base[k2 := v2];
      MapUpdatesCommute(base, k1, v1, k2, v2);
    } else {
      assert SectionOf(once1, s2) == SectionOf(d, s2);
      assert SectionOf(once2, s1) == SectionOf(d, s1);
      MapUpdatesCommute(d, s1, SectionOf(d, s1)[k1 := v1], s2, SectionOf(d, s2)[k2 := v2]);
    }
  }

  /** Map updates at two different keys commute. */
  lemma MapUpdatesCommute<K, V>(m: map<K, V>, a: K, x: V, b: K, y: V)
    requires a != b
    ensures m[a := x][b := y] == m[b := y][a := x]
  {
  }

  /** Writing back the value a field already holds leaves the document as it was. */
  lemma UpdateWithStoredValue(d: Document, section: string, key: string)
    requires section in d && key in d[section]
    ensures Update(d, section, key, d[section][key]) == d
  {
    assert Update(d, section, key, d[section][key])[section] == d[section];
  }
}
