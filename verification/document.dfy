/**
 * The resume document: an ordered list of sections, each holding a list of
 * loosely-typed items. Items are records whose fields are chosen by name at
 * run time, so an item is a map from field name to value; a missing key is
 * JavaScript's `undefined`.
 */
module Document {
  import opened Wrappers

  /** A field value: the editors only ever store strings and booleans. */
  datatype Value = Str(s: string) | Flag(b: bool)

  type Item = map<string, Value>

  /** `ResumeSection`: `kind` is the source's `type` field. */
  datatype Section = Section(id: string, kind: string, title: string, items: seq<Item>)

  const Contact := "contact"
  const Summary := "summary"
  const Experience := "experience"
  const Education := "education"
  const Skills := "skills"
  const Projects := "projects"
  const Certifications := "certifications"

  /** `item[f]`, with None for `undefined`. */
  function Field(item: Item, f: string): Option<Value> {
    if f in item then Some(item[f]) else None
  }

  /** Two items that agree on every field are the same item. */
  lemma ItemExtensional(a: Item, b: Item)
    requires forall f :: Field(a, f) == Field(b, f)
    ensures a == b
  {
    assert a.Keys == b.Keys by {
      forall f ensures f in a <==> f in b {
        assert Field(a, f) == Field(b, f);
      }
    }
    forall f | f in a ensures a[f] == b[f] {
      assert Field(a, f) == Field(b, f);
    }
  }

  /** JavaScript truthiness of a field: non-empty strings and `true`. */
  predicate Truthy(v: Option<Value>) {
    match v
    case None => false
    case Some(Str(s)) => s != ""
    case Some(Flag(b)) => b
  }

  /** The text React renders for `{value}`: strings as they are, booleans and `undefined` as nothing. */
  function Shown(v: Option<Value>): string {
    match v
    case Some(Str(s)) => s
    case _ => ""
  }

  /** `item.id === id`: the item has a string id equal to `id` (an item without `id` never matches). */
  predicate HasId(item: Item, id: string) {
    Field(item, "id") == Some(Str(id))
  }

  /** No two sections share an id. */
  predicate UniqueIds(s: seq<Section>) {
    forall i, j :: 0 <= i < j < |s| ==> s[i].id != s[j].id
  }

  /** The kinds whose editors have an "Add" button and whose items carry an id. */
  predicate IsItemKind(kind: string) {
    kind in {Experience, Education, Skills, Projects, Certifications}
  }

  /** The non-optional fields of each item type (`ExperienceItem`, `EducationItem`, ...). */
  function RequiredFields(kind: string): set<string> {
    if kind == Experience then
      {"id", "company", "position", "location", "startDate", "endDate", "current", "description"}
    else if kind == Education then
      {"id", "institution", "degree", "field", "location", "startDate", "endDate", "current", "description"}
    else if kind == Skills then {"id", "name", "level"}
    else if kind == Projects then {"id", "name", "description", "startDate", "endDate"}
    else if kind == Certifications then {"id", "name", "issuer", "date"}
    else if kind == Contact then {"name", "email", "phone", "location"}
    else {}
  }

  /** The optional (`?:`) fields of each item type. */
  function OptionalFields(kind: string): set<string> {
    if kind == Projects || kind == Certifications then {"url"}
    else if kind == Contact then {"linkedin", "website"}
    else {}
  }
}
