/**
 * What the resume preview derives from the sections before laying them out:
 * the contact record, the summary text, section headings, the items shown,
 * date ranges, skill bars and labels, and which template renders.
 */
module Preview {
  import opened Wrappers
  import opened Seqs
  import opened Document

  /** `sections.find(section => section.type === kind)`: the first section of the kind. */
  function FindByKind(s: seq<Section>, kind: string): (r: Option<Section>)
    ensures r.None? <==> forall i :: 0 <= i < |s| ==> s[i].kind != kind
    ensures r.Some? ==> exists i :: 0 <= i < |s| && s[i] == r.value && s[i].kind == kind &&
                                   (forall j :: 0 <= j < i ==> s[j].kind != kind)
  {
    match FirstIndex(s, (sec: Section) => sec.kind == kind)
    case None => None
    case Some(i) => Some(s[i])
  }

  /** `getContactInfo`: the first item of the first contact section, or the empty record. */
  function GetContactInfo(s: seq<Section>): (r: Item)
    ensures (forall i :: 0 <= i < |s| ==> s[i].kind != Contact) ==> r == map[]
    ensures forall i :: 0 <= i < |s| && s[i].kind == Contact && (forall j :: 0 <= j < i ==> s[j].kind != Contact) ==>
      r == if |s[i].items| > 0 then s[i].items[0] else map[]
  {
    match FindByKind(s, Contact)
    case Some(sec) => if |sec.items| > 0 then sec.items[0] else map[]
    case None => map[]
  }

  /** `getSummary`: the first summary item's `content` when truthy, otherwise the empty string. */
  function GetSummary(s: seq<Section>): (r: Value)
    ensures (forall i :: 0 <= i < |s| ==> s[i].kind != Summary) ==> r == Str("")
    ensures forall i :: 0 <= i < |s| && s[i].kind == Summary && (forall j :: 0 <= j < i ==> s[j].kind != Summary) ==>
      Some(r) == if |s[i].items| > 0 && Truthy(Field(s[i].items[0], "content"))
                 then Field(s[i].items[0], "content") else Some(Str(""))
  {
    match FindByKind(s, Summary)
    case Some(sec) =>
      if |sec.items| > 0 && Truthy(Field(sec.items[0], "content")) then Field(sec.items[0], "content").value
      else Str("")
    case None => Str("")
  }

  /** The name line: the contact's name when truthy, otherwise "Your Name"; it is never blank. */
  function DisplayName(contact: Item): (r: string)
    ensures Field(contact, "name").Some? && Field(contact, "name").value.Str? && Truthy(Field(contact, "name")) ==>
      r == Field(contact, "name").value.s
    ensures !Truthy(Field(contact, "name")) ==> r == "Your Name"
  {
    if Truthy(Field(contact, "name")) then Shown(Field(contact, "name")) else "Your Name"
  }

  /** The summary block is shown exactly when the summary text is non-empty. */
  predicate SummaryShown(s: seq<Section>) {
    Truthy(Some(GetSummary(s)))
  }

  /**
   * The summary block appears exactly when the first summary section exists
   * and its first item's `content` is truthy.
   */
  lemma SummaryShownIff(s: seq<Section>, i: nat)
    requires i < |s| && s[i].kind == Summary && forall j :: 0 <= j < i ==> s[j].kind != Summary
    ensures SummaryShown(s) <==> |s[i].items| > 0 && Truthy(Field(s[i].items[0], "content"))
  {
  }

  /** Without a summary section there is never a summary block. */
  lemma NoSummarySectionNoBlock(s: seq<Section>)
    requires forall i :: 0 <= i < |s| ==> s[i].kind != Summary
    ensures !SummaryShown(s)
  {
  }

  /** The heading used when a section's title is empty. */
  function DefaultHeading(kind: string): string {
    if kind == Experience then "Experience"
    else if kind == Education then "Education"
    else if kind == Skills then "Skills"
    else if kind == Projects then "Projects"
    else "Certifications"
  }

  /**
   * The heading of a kind's block: absent when no section has the kind (the
   * block is not rendered), otherwise the first section's title or, when that
   * is empty, the kind's default heading. A rendered heading is never blank.
   */
  function BlockHeading(s: seq<Section>, kind: string): (r: Option<string>)
    requires IsItemKind(kind)
    ensures r.None? <==> forall i :: 0 <= i < |s| ==> s[i].kind != kind
    ensures forall i :: 0 <= i < |s| && s[i].kind == kind && (forall j :: 0 <= j < i ==> s[j].kind != kind) ==>
      r == Some(if s[i].title != "" then s[i].title else DefaultHeading(kind))
    ensures r.Some? ==> r.value != ""
  {
    match FindByKind(s, kind)
    case None => None
    case Some(sec) => Some(if sec.title != "" then sec.title else DefaultHeading(kind))
  }

  /** The items a template renders for a kind: those of the first section of that kind only. */
  function RenderedItems(s: seq<Section>, kind: string): (r: seq<Item>)
    ensures (forall i :: 0 <= i < |s| ==> s[i].kind != kind) ==> r == []
    ensures forall i :: 0 <= i < |s| && s[i].kind == kind && (forall j :: 0 <= j < i ==> s[j].kind != kind) ==>
      r == s[i].items
  {
    match FindByKind(s, kind)
    case None => []
    case Some(sec) => sec.items
  }

  /**
   * Sections after the first one of a kind never reach the preview: appending
   * any sections to a list that already has the kind renders the same block,
   * with the same heading and the same items.
   */
  lemma LaterSectionsIgnored(s: seq<Section>, t: seq<Section>, kind: string)
    requires exists i :: 0 <= i < |s| && s[i].kind == kind
    ensures RenderedItems(s + t, kind) == RenderedItems(s, kind)
    ensures IsItemKind(kind) ==> BlockHeading(s + t, kind) == BlockHeading(s, kind)
  {
    var i :| 0 <= i < |s| && s[i].kind == kind;
    var st := s + t;
    var first :| 0 <= first <= i && s[first].kind == kind && forall j :: 0 <= j < first ==> s[j].kind != kind by {
      FirstOfKindExists(s, kind, i);
    }
    assert st[first] == s[first];
    assert forall j :: 0 <= j < first ==> st[j].kind != kind;
  }

  lemma {:induction false} FirstOfKindExists(s: seq<Section>, kind: string, i: nat)
    requires i < |s| && s[i].kind == kind
    ensures exists first :: 0 <= first <= i && s[first].kind == kind && forall j :: 0 <= j < first ==> s[j].kind != kind
  {
    if !(forall j :: 0 <= j < i ==> s[j].kind != kind) {
      var j :| 0 <= j < i && s[j].kind == kind;
      FirstOfKindExists(s, kind, j);
    }
  }

  /** Experience and education show "Present" for a current entry; projects always show the end date. */
  function EndDateText(kind: string, item: Item): (r: string)
    ensures (kind == Experience || kind == Education) && Truthy(Field(item, "current")) ==> r == "Present"
    ensures !((kind == Experience || kind == Education) && Truthy(Field(item, "current"))) ==>
      r == Shown(Field(item, "endDate"))
  {
    if (kind == Experience || kind == Education) && Truthy(Field(item, "current")) then "Present"
    else Shown(Field(item, "endDate"))
  }

  /** `{item.startDate} - {end}`. */
  function DateRange(kind: string, item: Item): string {
    Shown(Field(item, "startDate")) + " - " + EndDateText(kind, item)
  }

  /**
   * A current experience or education entry reads "start - Present"; a
   * non-current one reads "start - end"; a project always reads
   * "start - end", whatever its flag.
   */
  lemma CurrentFlagOnlyForDatedKinds(item: Item, start: string, end: string)
    requires Field(item, "startDate") == Some(Str(start)) && Field(item, "endDate") == Some(Str(end))
    ensures DateRange(Experience, item["current" := Flag(true)]) == start + " - Present"
    ensures DateRange(Education, item["current" := Flag(true)]) == start + " - Present"
    ensures DateRange(Experience, item["current" := Flag(false)]) == start + " - " + end
    ensures DateRange(Education, item["current" := Flag(false)]) == start + " - " + end
    ensures DateRange(Projects, item["current" := Flag(true)]) == start + " - " + end
    ensures DateRange(Projects, item["current" := Flag(false)]) == start + " - " + end
  {
    var on, off := item["current" := Flag(true)], item["current" := Flag(false)];
    assert Field(on, "startDate") == Field(off, "startDate") == Some(Str(start));
    assert Field(on, "endDate") == Field(off, "endDate") == Some(Str(end));
    assert Field(on, "current") == Some(Flag(true)) && Field(off, "current") == Some(Flag(false));
  }

  /** The width of a skill bar in percent: 25, 50 and 75 for the three lower levels, 100 for anything else. */
  function SkillWidth(item: Item): (r: nat)
    ensures Field(item, "level") == Some(Str("beginner")) ==> r == 25
    ensures Field(item, "level") == Some(Str("intermediate")) ==> r == 50
    ensures Field(item, "level") == Some(Str("advanced")) ==> r == 75
    ensures Field(item, "level") !in {Some(Str("beginner")), Some(Str("intermediate")), Some(Str("advanced"))} ==> r == 100
  {
    var level := Field(item, "level");
    if level == Some(Str("beginner")) then 25
    else if level == Some(Str("intermediate")) then 50
    else if level == Some(Str("advanced")) then 75
    else 100
  }

  /** The creative template's label for a skill level; anything unrecognised reads "Expert". */
  function SkillLabel(item: Item): (r: string)
    ensures Field(item, "level") == Some(Str("beginner")) ==> r == "Basic"
    ensures Field(item, "level") == Some(Str("intermediate")) ==> r == "Intermediate"
    ensures Field(item, "level") == Some(Str("advanced")) ==> r == "Advanced"
    ensures Field(item, "level") !in {Some(Str("beginner")), Some(Str("intermediate")), Some(Str("advanced"))} ==> r == "Expert"
  {
    var level := Field(item, "level");
    if level == Some(Str("beginner")) then "Basic"
    else if level == Some(Str("intermediate")) then "Intermediate"
    else if level == Some(Str("advanced")) then "Advanced"
    else "Expert"
  }

  /** Bar and label always tell the same level: the pair is one of four, and two skills share a bar exactly when they share a label. */
  lemma SkillBarMatchesLabel(item: Item, other: Item)
    ensures (SkillWidth(item), SkillLabel(item)) in
      {(25, "Basic"), (50, "Intermediate"), (75, "Advanced"), (100, "Expert")}
    ensures SkillWidth(item) == SkillWidth(other) <==> SkillLabel(item) == SkillLabel(other)
  {
  }

  /** The four layouts `renderTemplate` can choose. */
  datatype Layout = Minimal | Professional | Modern | Creative

  function LayoutId(l: Layout): string {
    match l
    case Minimal => "minimal"
    case Professional => "professional"
    case Modern => "modern"
    case Creative => "creative"
  }

  /** `renderTemplate`: a known template id picks its layout, any other id falls back to minimal. */
  function RenderTemplate(templateId: string): (r: Layout)
    ensures LayoutId(r) == templateId || (r == Minimal && templateId !in {"minimal", "professional", "modern", "creative"})
  {
    if templateId == "professional" then Professional
    else if templateId == "modern" then Modern
    else if templateId == "creative" then Creative
    else Minimal
  }

  /** Every layout is reached from its own id. */
  lemma RenderTemplateRoundTrip(l: Layout)
    ensures RenderTemplate(LayoutId(l)) == l
  {
  }
}
