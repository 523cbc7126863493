/**
 * Properties that follow the data through several components: the builder's
 * list operations, the section editor and the preview.
 */
module Walkthrough {
  import opened Wrappers
  import opened Document
  import opened SectionEditor
  import opened SectionList
  import opened Preview

  /** A fresh document previews as "Your Name" with no summary block. */
  lemma InitialPreviewHeader()
    ensures DisplayName(GetContactInfo(InitialSections())) == "Your Name"
    ensures !SummaryShown(InitialSections())
  {
    var s := InitialSections();
    assert GetContactInfo(s) == s[0].items[0];
    assert Field(s[0].items[0], "name") == Some(Str(""));
    SummaryShownIff(s, 1);
  }

  /** A fresh document has an empty "Work Experience" block and no projects block. */
  lemma InitialPreviewBlocks()
    ensures RenderedItems(InitialSections(), Experience) == []
    ensures BlockHeading(InitialSections(), Experience) == Some("Work Experience")
    ensures BlockHeading(InitialSections(), Projects) == None
  {
    var s := InitialSections();
    assert s[2].kind == Experience && s[0].kind != Experience && s[1].kind != Experience;
    assert FindByKind(s, Experience) == Some(s[2]);
    assert forall i :: 0 <= i < |s| ==> s[i].kind != Projects;
  }

  /**
   * Adding a second experience section, giving it an entry and editing that
   * entry's company stores the entry in the new section, yet the preview
   * still shows only the first experience section, which is empty.
   */
  lemma SecondExperienceSectionHidden(stamp: string, itemStamp: string)
    ensures var doc1 := AddedSections(InitialSections(), Experience, stamp);
            var edited := ItemChanged(ItemAdded(doc1[5], itemStamp), itemStamp, "company", Str("Acme"));
            var doc2 := UpdatedSections(doc1, edited);
            && |doc2| == 6
            && |doc2[5].items| == 1
            && Field(doc2[5].items[0], "company") == Some(Str("Acme"))
            && Field(doc2[5].items[0], "position") == Some(Str(""))
            && RenderedItems(doc2, Experience) == []
  {
    var s := InitialSections();
    var doc1 := AddedSections(s, Experience, stamp);
    var newId := Experience + "-" + stamp;
    assert forall i :: 0 <= i < 5 ==> |s[i].id| < |newId|;
    AddKeepsUnique(s, Experience, stamp);
    var added := ItemAdded(doc1[5], itemStamp);
    assert added.items == [BlankItem(Experience, itemStamp)];
    assert HasId(added.items[0], itemStamp);
    var edited := ItemChanged(added, itemStamp, "company", Str("Acme"));
    UpdateAtUniqueId(doc1, edited, 5);
    var doc2 := UpdatedSections(doc1, edited);
    assert doc2 == s + [edited];
    LaterSectionsIgnored(s, [edited], Experience);
    assert s[2].kind == Experience;
    assert s[0].kind != Experience && s[1].kind != Experience;
  }

  /** A new skill previews as a half bar labelled "Intermediate". */
  lemma BlankSkillPreview(stamp: string)
    ensures SkillWidth(BlankItem(Skills, stamp)) == 50
    ensures SkillLabel(BlankItem(Skills, stamp)) == "Intermediate"
  {
    BlankItemDefaults(stamp);
  }

  /** A new experience entry shows an empty date range, since it is not current. */
  lemma BlankExperienceDates(stamp: string)
    ensures DateRange(Experience, BlankItem(Experience, stamp)) == " - "
  {
    BlankItemDefaults(stamp);
  }
}
