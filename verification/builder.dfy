/**
 * The state of the resume builder page: the list of sections, the id of the
 * section being dragged, and the selected template. Each handler replaces
 * the list with the value the corresponding list operation computes.
 */
module Builder {
  import opened Wrappers
  import opened Document
  import opened SectionList

  class ResumeBuilder {
    var sections: seq<Section>
    var draggedSectionId: Option<string>
    var selectedTemplateId: string

    /** The page's initial state: the five default sections, no drag, the minimal template. */
    constructor ()
      ensures sections == InitialSections() && draggedSectionId == None && selectedTemplateId == "minimal"
      ensures UniqueIds(sections)
    {
      sections := InitialSections();
      draggedSectionId := None;
      selectedTemplateId := "minimal";
    }

    /** `handleSelectTemplate`. */
    method SelectTemplate(templateId: string)
      modifies this
      ensures selectedTemplateId == templateId
      ensures sections == old(sections) && draggedSectionId == old(draggedSectionId)
    {
      selectedTemplateId := templateId;
    }

    /** `handleUpdateSection`. */
    method UpdateSection(updated: Section)
      modifies this
      ensures sections == UpdatedSections(old(sections), updated)
      ensures draggedSectionId == old(draggedSectionId) && selectedTemplateId == old(selectedTemplateId)
      ensures UniqueIds(old(sections)) ==> UniqueIds(sections)
    {
      if UniqueIds(sections) {
        UpdateKeepsUnique(sections, updated);
      }
      sections := UpdatedSections(sections, updated);
    }

    /** `handleDeleteSection`. */
    method DeleteSection(sectionId: string)
      modifies this
      ensures sections == DeletedSections(old(sections), sectionId)
      ensures draggedSectionId == old(draggedSectionId) && selectedTemplateId == old(selectedTemplateId)
      ensures UniqueIds(old(sections)) ==> UniqueIds(sections)
    {
      if UniqueIds(sections) {
        DeleteKeepsUnique(sections, sectionId);
      }
      sections := DeletedSections(sections, sectionId);
    }

    /** `handleAddSection`; `stamp` is the text of the clock reading that makes up the new id. */
    method AddSection(sectionType: string, stamp: string)
      modifies this
      ensures sections == AddedSections(old(sections), sectionType, stamp)
      ensures draggedSectionId == old(draggedSectionId) && selectedTemplateId == old(selectedTemplateId)
      ensures UniqueIds(old(sections)) && (forall i :: 0 <= i < |old(sections)| ==> old(sections)[i].id != sectionType + "-" + stamp)
        ==> UniqueIds(sections)
    {
      if UniqueIds(sections) && forall i :: 0 <= i < |sections| ==> sections[i].id != sectionType + "-" + stamp {
        AddKeepsUnique(sections, sectionType, stamp);
      }
      sections := AddedSections(sections, sectionType, stamp);
    }

    /** `handleDragStart`. */
    method DragStart(id: string)
      modifies this
      ensures draggedSectionId == Some(id)
      ensures sections == old(sections) && selectedTemplateId == old(selectedTemplateId)
    {
      draggedSectionId := Some(id);
    }

    /**
     * `handleDrop`: on each early return nothing changes, the drag id included;
     * otherwise the sections are relocated and the drag id is cleared.
     */
    method Drop(targetId: string)
      modifies this
      ensures selectedTemplateId == old(selectedTemplateId)
      ensures DropResult(old(sections), old(draggedSectionId), targetId).None? ==>
        sections == old(sections) && draggedSectionId == old(draggedSectionId)
      ensures DropResult(old(sections), old(draggedSectionId), targetId).Some? ==>
        sections == DropResult(old(sections), old(draggedSectionId), targetId).value && draggedSectionId == None
      ensures UniqueIds(old(sections)) ==> UniqueIds(sections)
    {
      if draggedSectionId.None? || draggedSectionId.value == "" || draggedSectionId.value == targetId {
        return;
      }
      var draggedIndex := IndexOfId(sections, draggedSectionId.value);
      var targetIndex := IndexOfId(sections, targetId);
      if draggedIndex.None? || targetIndex.None? {
        return;
      }
      if UniqueIds(sections) {
        MovedKeepsUnique(sections, draggedIndex.value, targetIndex.value);
      }
      var newSections := SpliceMove(sections, draggedIndex.value, targetIndex.value);
      sections := newSections;
      draggedSectionId := None;
    }
  }

  /** The editor offers "Delete Section" only for sections that are neither contact nor summary. */
  predicate DeleteOffered(sec: Section) {
    sec.kind != Contact && sec.kind != Summary
  }

  /**
   * With unique ids, no delete the editor offers can remove a contact or
   * summary section: they survive every offered delete.
   */
  lemma OfferedDeleteKeepsMandatory(s: seq<Section>, i: nat)
    requires UniqueIds(s) && i < |s| && DeleteOffered(s[i])
    ensures forall sec :: sec in s && !DeleteOffered(sec) ==> sec in DeletedSections(s, s[i].id)
  {
    forall sec | sec in s && !DeleteOffered(sec) ensures sec in DeletedSections(s, s[i].id) {
      var k :| 0 <= k < |s| && s[k] == sec;
      assert k != i;
      assert sec.id != s[i].id;
      assert multiset(s)[sec] > 0;
    }
  }

  /** In the initial document exactly the contact and summary sections lack the delete button. */
  lemma InitialDeletePolicy()
    ensures forall i :: 0 <= i < 5 ==> (DeleteOffered(InitialSections()[i]) <==> i >= 2)
  {
  }
}
