/**
 * The editor of one section: renaming it, and adding, deleting and editing
 * its items. Every operation returns the new section value that the editor
 * hands to its `onUpdateSection` callback.
 */
module SectionEditor {
  import opened Wrappers
  import opened Seqs
  import opened Document

  /** `handleTitleChange`: only the title changes. */
  function TitleChanged(sec: Section, title: string): (r: Section)
    ensures r.title == title
    ensures r.id == sec.id && r.kind == sec.kind && r.items == sec.items
  {
    sec.(title := title)
  }

  /** The value a freshly created item gives each of its fields. */
  function BlankValue(f: string, stamp: string): Value {
    if f == "id" then Str(stamp)
    else if f == "current" then Flag(false)
    else if f == "level" then Str("intermediate")
    else Str("")
  }

  /**
   * The factory in `handleAddItem`: for the five kinds with items it builds
   * exactly the required fields of that kind's item type, the id from the
   * clock stamp, and leaves the optional fields (`url`) unset; every other
   * kind gets the empty object `{}`.
   */
  function BlankItem(kind: string, stamp: string): (r: Item)
    ensures IsItemKind(kind) ==> r.Keys == RequiredFields(kind)
    ensures IsItemKind(kind) ==> forall f :: f in r ==> r[f] == BlankValue(f, stamp)
    ensures forall f :: f in OptionalFields(kind) ==> f !in r
    ensures !IsItemKind(kind) ==> r == map[]
  {
    if kind == Experience then
      map["id" := Str(stamp), "company" := Str(""), "position" := Str(""), "location" := Str(""),
          "startDate" := Str(""), "endDate" := Str(""), "current" := Flag(false), "description" := Str("")]
    else if kind == Education then
      map["id" := Str(stamp), "institution" := Str(""), "degree" := Str(""), "field" := Str(""),
          "location" := Str(""), "startDate" := Str(""), "endDate" := Str(""), "current" := Flag(false),
          "description" := Str("")]
    else if kind == Skills then
      map["id" := Str(stamp), "name" := Str(""), "level" := Str("intermediate")]
    else if kind == Projects then
      map["id" := Str(stamp), "name" := Str(""), "description" := Str(""), "startDate" := Str(""),
          "endDate" := Str("")]
    else if kind == Certifications then
      map["id" := Str(stamp), "name" := Str(""), "issuer" := Str(""), "date" := Str("")]
    else
      map[]
  }

  /** A blank skill is an unnamed intermediate skill; blank experience and education entries are empty and not current. */
  lemma BlankItemDefaults(stamp: string)
    ensures Field(BlankItem(Skills, stamp), "name") == Some(Str(""))
    ensures Field(BlankItem(Skills, stamp), "level") == Some(Str("intermediate"))
    ensures forall kind, f :: kind in {Experience, Education} && f in BlankItem(kind, stamp) && f != "id" ==>
      BlankItem(kind, stamp)[f] == if f == "current" then Flag(false) else Str("")
  {
  }

  /** The `{}` of the factory's default branch has no id, so no later delete or edit by id reaches it. */
  lemma DefaultItemHasNoId(kind: string, stamp: string, id: string)
    requires !IsItemKind(kind)
    ensures !HasId(BlankItem(kind, stamp), id)
  {
  }

  /** `handleAddItem`: one blank item appended; everything else is as before. */
  function ItemAdded(sec: Section, stamp: string): (r: Section)
    ensures r.id == sec.id && r.kind == sec.kind && r.title == sec.title
    ensures |r.items| == |sec.items| + 1 && r.items[..|sec.items|] == sec.items
    ensures r.items[|sec.items|] == BlankItem(sec.kind, stamp)
  {
    sec.(items := sec.items + [BlankItem(sec.kind, stamp)])
  }

  /** The filter condition of `handleDeleteItem`: keep items whose id differs. */
  function KeepItem(itemId: string): Item -> bool {
    (item: Item) => !HasId(item, itemId)
  }

  /** `handleDeleteItem`: drops exactly the items with the id, keeping the rest in order. */
  function ItemDeleted(sec: Section, itemId: string): (r: Section)
    ensures r.id == sec.id && r.kind == sec.kind && r.title == sec.title
    ensures IsSubseq(r.items, sec.items)
    ensures forall item :: multiset(r.items)[item] == if HasId(item, itemId) then 0 else multiset(sec.items)[item]
  {
    FilterIsSubseq(sec.items, KeepItem(itemId));
    FilterCount(sec.items, KeepItem(itemId));
    sec.(items := Filter(sec.items, KeepItem(itemId)))
  }

  /** The item list of `handleItemChange`: `{ ...item, [field]: value }` on the matching items. */
  function ChangedItems(items: seq<Item>, itemId: string, field: string, value: Value): (r: seq<Item>)
    ensures |r| == |items|
    ensures forall i :: 0 <= i < |items| && !HasId(items[i], itemId) ==> r[i] == items[i]
    ensures forall i :: 0 <= i < |items| && HasId(items[i], itemId) ==>
      Field(r[i], field) == Some(value) &&
      forall g :: g != field ==> Field(r[i], g) == Field(items[i], g)
  {
    if items == [] then []
    else
      [if HasId(items[0], itemId) then items[0][field := value] else items[0]]
        + ChangedItems(items[1..], itemId, field, value)
  }

  /** `handleItemChange`: sets one field of the items with the id; siblings and other fields are untouched. */
  function ItemChanged(sec: Section, itemId: string, field: string, value: Value): (r: Section)
    ensures r.id == sec.id && r.kind == sec.kind && r.title == sec.title
    ensures r.items == ChangedItems(sec.items, itemId, field, value)
  {
    sec.(items := ChangedItems(sec.items, itemId, field, value))
  }

  /** An edit addressed to an id no item has leaves the section as it was. */
  lemma {:induction false} ItemChangeNoMatch(sec: Section, itemId: string, field: string, value: Value)
    requires forall i :: 0 <= i < |sec.items| ==> !HasId(sec.items[i], itemId)
    ensures ItemChanged(sec, itemId, field, value) == sec
  {
    var r := ChangedItems(sec.items, itemId, field, value);
    assert r == sec.items;
  }

  /** Repeating an edit changes nothing more. */
  lemma ItemChangeIdempotent(sec: Section, itemId: string, field: string, value: Value)
    ensures ItemChanged(ItemChanged(sec, itemId, field, value), itemId, field, value)
         == ItemChanged(sec, itemId, field, value)
  {
    var once := ChangedItems(sec.items, itemId, field, value);
    var twice := ChangedItems(once, itemId, field, value);
    forall i | 0 <= i < |once| ensures twice[i] == once[i] {
      if HasId(once[i], itemId) {
        ItemExtensional(twice[i], once[i]);
      }
    }
  }

  /** A delete addressed to an id no item has leaves the section as it was. */
  lemma ItemDeleteNoMatch(sec: Section, itemId: string)
    requires forall i :: 0 <= i < |sec.items| ==> !HasId(sec.items[i], itemId)
    ensures ItemDeleted(sec, itemId) == sec
  {
    FilterKeepsAll(sec.items, KeepItem(itemId));
  }

  /** Deleting the item just added (under a fresh stamp) restores the section. */
  lemma AddThenDeleteItem(sec: Section, stamp: string)
    requires IsItemKind(sec.kind)
    requires forall i :: 0 <= i < |sec.items| ==> !HasId(sec.items[i], stamp)
    ensures ItemDeleted(ItemAdded(sec, stamp), stamp) == sec
  {
    var blank := BlankItem(sec.kind, stamp);
    assert HasId(blank, stamp);
    FilterConcat(sec.items, [blank], KeepItem(stamp));
    FilterKeepsAll(sec.items, KeepItem(stamp));
    assert Filter([blank], KeepItem(stamp)) == [];
  }
}
