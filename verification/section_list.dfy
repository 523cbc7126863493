/**
 * The section-list operations of the resume builder: the initial document,
 * update by id, delete by id, append a new section, and drag-and-drop
 * relocation by array splice. Each returns the new list of sections.
 */
module SectionList {
  import opened Wrappers
  import opened Seqs
  import opened Document

  /** The five sections a new resume starts with. */
  function InitialSections(): (r: seq<Section>)
    ensures |r| == 5 && UniqueIds(r)
    ensures r[0].kind == Contact && r[1].kind == Summary && r[2].kind == Experience
    ensures r[3].kind == Education && r[4].kind == Skills
    ensures |r[0].items| == 1 && |r[1].items| == 1
    ensures r[2].items == [] && r[3].items == [] && r[4].items == []
    ensures forall f :: f in RequiredFields(Contact) ==> Field(r[0].items[0], f) == Some(Str(""))
    ensures Field(r[1].items[0], "content") == Some(Str(""))
  {
    [ Section("contact", Contact, "Contact Information",
        [map["id" := Str("contact-1"), "name" := Str(""), "email" := Str(""), "phone" := Str(""),
             "location" := Str("")]]),
      Section("summary", Summary, "Professional Summary",
        [map["id" := Str("summary-1"), "content" := Str("")]]),
      Section("experience", Experience, "Work Experience", []),
      Section("education", Education, "Education", []),
      Section("skills", Skills, "Skills", []) ]
  }

  /** `handleUpdateSection`: every section with the update's id is replaced, in place. */
  function UpdatedSections(s: seq<Section>, u: Section): (r: seq<Section>)
    ensures |r| == |s|
    ensures forall i :: 0 <= i < |s| && s[i].id == u.id ==> r[i] == u
    ensures forall i :: 0 <= i < |s| && s[i].id != u.id ==> r[i] == s[i]
  {
    if s == [] then []
    else [if s[0].id == u.id then u else s[0]] + UpdatedSections(s[1..], u)
  }

  /** An update whose id is absent leaves the list as it was. */
  lemma UpdateNoMatch(s: seq<Section>, u: Section)
    requires forall i :: 0 <= i < |s| ==> s[i].id != u.id
    ensures UpdatedSections(s, u) == s
  {
  }

  /** With unique ids an update replaces exactly one position. */
  lemma UpdateAtUniqueId(s: seq<Section>, u: Section, i: nat)
    requires UniqueIds(s) && i < |s| && s[i].id == u.id
    ensures UpdatedSections(s, u) == s[i := u]
  {
  }

  /** An update never breaks id uniqueness: it keeps every position's id. */
  lemma UpdateKeepsUnique(s: seq<Section>, u: Section)
    requires UniqueIds(s)
    ensures UniqueIds(UpdatedSections(s, u))
  {
    var r := UpdatedSections(s, u);
    assert forall i :: 0 <= i < |s| ==> r[i].id == s[i].id;
  }

  /** The filter condition of `handleDeleteSection`. */
  function KeepSection(id: string): Section -> bool {
    (sec: Section) => sec.id != id
  }

  /** `handleDeleteSection`: drops exactly the sections with the id, keeping the others in order. */
  function DeletedSections(s: seq<Section>, id: string): (r: seq<Section>)
    ensures IsSubseq(r, s)
    ensures forall sec :: multiset(r)[sec] == if sec.id == id then 0 else multiset(s)[sec]
  {
    FilterIsSubseq(s, KeepSection(id));
    FilterCount(s, KeepSection(id));
    Filter(s, KeepSection(id))
  }

  /** A delete whose id is absent leaves the list as it was. */
  lemma DeleteNoMatch(s: seq<Section>, id: string)
    requires forall i :: 0 <= i < |s| ==> s[i].id != id
    ensures DeletedSections(s, id) == s
  {
    FilterKeepsAll(s, KeepSection(id));
  }

  /** Filtering a list with unique ids keeps them unique. */
  lemma {:induction false} FilterKeepsUniqueIds(s: seq<Section>, p: Section -> bool)
    requires UniqueIds(s)
    ensures UniqueIds(Filter(s, p))
  {
    if s != [] {
      FilterKeepsUniqueIds(s[1..], p);
      FilterMembers(s[1..], p);
      var rest := Filter(s[1..], p);
      forall x | x in rest ensures x.id != s[0].id {
        var k :| 0 <= k < |s[1..]| && s[1..][k] == x;
        assert s[k + 1] == x;
      }
      if p(s[0]) {
        var r := [s[0]] + rest;
        forall i, j | 0 <= i < j < |r| ensures r[i].id != r[j].id {
          assert r[j] == rest[j - 1] && r[j] in rest;
        }
      }
    }
  }

  lemma DeleteKeepsUnique(s: seq<Section>, id: string)
    requires UniqueIds(s)
    ensures UniqueIds(DeletedSections(s, id))
  {
    FilterKeepsUniqueIds(s, KeepSection(id));
  }

  /** The title table of `handleAddSection`; every other type keeps the empty title. */
  function TitleFor(kind: string): (r: string)
    ensures kind == Experience ==> r == "Work Experience"
    ensures kind == Education ==> r == "Education"
    ensures kind == Skills ==> r == "Skills"
    ensures kind == Projects ==> r == "Projects"
    ensures kind == Certifications ==> r == "Certifications"
    ensures r != "" <==> IsItemKind(kind)
  {
    if kind == Experience then "Work Experience"
    else if kind == Education then "Education"
    else if kind == Skills then "Skills"
    else if kind == Projects then "Projects"
    else if kind == Certifications then "Certifications"
    else ""
  }

  /** The table agrees with the titles of the initial document. */
  lemma InitialTitlesFromTable()
    ensures forall i :: 2 <= i < 5 ==> InitialSections()[i].title == TitleFor(InitialSections()[i].kind)
  {
  }

  /** `handleAddSection`: one new, empty section appended; its id is the type, a dash and the clock stamp. */
  function AddedSections(s: seq<Section>, kind: string, stamp: string): (r: seq<Section>)
    ensures |r| == |s| + 1 && r[..|s|] == s
    ensures r[|s|].id == kind + "-" + stamp && r[|s|].kind == kind
    ensures r[|s|].title == TitleFor(kind) && r[|s|].items == []
  {
    s + [Section(kind + "-" + stamp, kind, TitleFor(kind), [])]
  }

  /** An added section whose id is fresh keeps the ids unique. */
  lemma AddKeepsUnique(s: seq<Section>, kind: string, stamp: string)
    requires UniqueIds(s)
    requires forall i :: 0 <= i < |s| ==> s[i].id != kind + "-" + stamp
    ensures UniqueIds(AddedSections(s, kind, stamp))
  {
  }

  /** `a.splice(i, 1)`: the list without position `i`. */
  function Removed(s: seq<Section>, i: nat): seq<Section>
    requires i < |s|
  {
    s[..i] + s[i + 1..]
  }

  /** `a.splice(i, 0, x)`: `x` inserted so that it ends up at position `i`. */
  function Inserted(s: seq<Section>, i: nat, x: Section): seq<Section>
    requires i <= |s|
  {
    s[..i] + [x] + s[i..]
  }

  /** The two splices of `handleDrop`: take the section out of `from`, put it back at `to`. */
  function Moved(s: seq<Section>, from: nat, to: nat): seq<Section>
    requires from < |s| && to < |s|
  {
    Inserted(Removed(s, from), to, s[from])
  }

  /** Where the section now at position `k` of `Removed(s, from)` stood before. */
  function RemovedIndex(from: nat, k: nat): nat {
    if k < from then k else k + 1
  }

  lemma RemovedAt(s: seq<Section>, from: nat)
    requires from < |s|
    ensures |Removed(s, from)| == |s| - 1
    ensures forall k :: 0 <= k < |s| - 1 ==> RemovedIndex(from, k) < |s| && Removed(s, from)[k] == s[RemovedIndex(from, k)]
  {
  }

  lemma InsertedAt(s: seq<Section>, i: nat, x: Section)
    requires i <= |s|
    ensures |Inserted(s, i, x)| == |s| + 1
    ensures forall k :: 0 <= k <= |s| ==> Inserted(s, i, x)[k] == if k < i then s[k] else if k == i then x else s[k - 1]
  {
  }

  /** Where the section now at position `k` of a move stood before it. */
  function SourceIndex(from: nat, to: nat, k: nat): nat {
    if k == to then from
    else if k < to then RemovedIndex(from, k)
    else RemovedIndex(from, k - 1)
  }

  /**
   * The shape of a relocation: the moved section lands on `to`; positions
   * outside [min(from, to), max(from, to)] keep their section; those in
   * between shift by one towards `from`.
   */
  lemma MovedShape(s: seq<Section>, from: nat, to: nat)
    requires from < |s| && to < |s|
    ensures |Moved(s, from, to)| == |s|
    ensures forall k :: 0 <= k < |s| ==> SourceIndex(from, to, k) < |s| && Moved(s, from, to)[k] == s[SourceIndex(from, to, k)]
    ensures Moved(s, from, to)[to] == s[from]
    ensures forall k :: 0 <= k < |s| && (k < from || to < k) && (k < to || from < k) ==> Moved(s, from, to)[k] == s[k]
    ensures from < to ==> forall k :: from <= k < to ==> Moved(s, from, to)[k] == s[k + 1]
    ensures to < from ==> forall k :: to < k <= from ==> Moved(s, from, to)[k] == s[k - 1]
  {
    RemovedAt(s, from);
    InsertedAt(Removed(s, from), to, s[from]);
  }

  /** A relocation is a permutation. */
  lemma MovedPermutation(s: seq<Section>, from: nat, to: nat)
    requires from < |s| && to < |s|
    ensures multiset(Moved(s, from, to)) == multiset(s)
  {
    assert s == s[..from] + [s[from]] + s[from + 1..];
    assert multiset(s) == multiset(s[..from]) + multiset{s[from]} + multiset(s[from + 1..]);
    var rest := Removed(s, from);
    assert multiset(rest) == multiset(s[..from]) + multiset(s[from + 1..]);
    assert rest == rest[..to] + rest[to..];
    assert multiset(rest) == multiset(rest[..to]) + multiset(rest[to..]);
    var r := Moved(s, from, to);
    assert r == rest[..to] + [s[from]] + rest[to..];
    assert multiset(r) == multiset(rest[..to]) + multiset{s[from]} + multiset(rest[to..]);
    assert multiset(r) == multiset(rest) + multiset{s[from]};
    assert multiset(s) == multiset(rest) + multiset{s[from]};
  }

  /** A relocation keeps ids unique. */
  lemma MovedKeepsUnique(s: seq<Section>, from: nat, to: nat)
    requires from < |s| && to < |s| && UniqueIds(s)
    ensures UniqueIds(Moved(s, from, to))
  {
    MovedShape(s, from, to);
    var r := Moved(s, from, to);
    forall i, j | 0 <= i < j < |r| ensures r[i].id != r[j].id {
      var si, sj := SourceIndex(from, to, i), SourceIndex(from, to, j);
      assert si != sj;
      if si < sj {
        assert s[si].id != s[sj].id;
      } else {
        assert s[sj].id != s[si].id;
      }
    }
  }

  /** `a.splice(from, 1)` on a fixed-size array: the tail shifts left by one; the last slot is left stale. */
  method SpliceOut(a: array<Section>, from: nat)
    requires from < a.Length
    modifies a
    ensures forall k :: 0 <= k < a.Length - 1 ==> a[k] == old(a[RemovedIndex(from, k)])
  {
    var i := from;
    while i < a.Length - 1
      invariant from <= i <= a.Length - 1
      invariant forall k :: 0 <= k < i ==> a[k] == old(a[RemovedIndex(from, k)])
      invariant forall k :: i <= k < a.Length ==> a[k] == old(a[k])
    {
      a[i] := a[i + 1];
      i := i + 1;
    }
  }

  /** `a.splice(to, 0, x)` on a fixed-size array whose last slot is free: the tail shifts right by one. */
  method SpliceIn(a: array<Section>, to: nat, x: Section)
    requires to < a.Length
    modifies a
    ensures forall k :: 0 <= k < a.Length ==> a[k] == if k < to then old(a[k]) else if k == to then x else old(a[k - 1])
  {
    var j := a.Length - 1;
    while j > to
      invariant to <= j <= a.Length - 1
      invariant forall k :: 0 <= k <= j ==> a[k] == old(a[k])
      invariant forall k :: j < k < a.Length ==> a[k] == old(a[k - 1])
    {
      a[j] := a[j - 1];
      j := j - 1;
    }
    a[to] := x;
  }

  /**
   * The body of `handleDrop` once both indices are known: copy the list into
   * an array, splice the dragged section out, splice it back in at the
   * target's index.
   */
  method SpliceMove(s: seq<Section>, from: nat, to: nat) returns (r: seq<Section>)
    requires from < |s| && to < |s|
    ensures r == Moved(s, from, to)
  {
    var a := new Section[|s|](i requires 0 <= i < |s| => s[i]);
    var dragged := a[from];
    SpliceOut(a, from);
    ghost var removed := a[..];
    SpliceIn(a, to, dragged);
    r := a[..];
    MovedShape(s, from, to);
    forall k | 0 <= k < |s| ensures r[k] == s[SourceIndex(from, to, k)] {
      if k > to {
        assert r[k] == removed[k - 1];
      } else if k < to {
        assert r[k] == removed[k];
      }
    }
  }

  /** `sections.findIndex(section => section.id === id)`. */
  function IndexOfId(s: seq<Section>, id: string): (r: Option<nat>)
    ensures r.Some? ==> r.value < |s| && s[r.value].id == id && forall j :: 0 <= j < r.value ==> s[j].id != id
    ensures r.None? <==> forall j :: 0 <= j < |s| ==> s[j].id != id
  {
    FirstIndex(s, (sec: Section) => sec.id == id)
  }

  /** `!draggedSectionId || draggedSectionId === targetId`: no drag (or an empty id), or a drop on itself. */
  predicate DropIgnored(dragged: Option<string>, target: string) {
    dragged.None? || dragged.value == "" || dragged.value == target
  }

  /**
   * The outcome of `handleDrop`: None for each early return, otherwise the
   * list with the dragged section relocated onto the target's index.
   */
  function DropResult(s: seq<Section>, dragged: Option<string>, target: string): Option<seq<Section>> {
    if DropIgnored(dragged, target) then None
    else
      match (IndexOfId(s, dragged.value), IndexOfId(s, target))
      case (Some(d), Some(t)) => Some(Moved(s, d, t))
      case _ => None
  }

  /** A drop does nothing exactly when no drag is in progress, it is onto itself, or either id is absent. */
  lemma DropNoOpIff(s: seq<Section>, dragged: Option<string>, target: string)
    ensures DropResult(s, dragged, target).None? <==>
      DropIgnored(dragged, target)
      || (forall j :: 0 <= j < |s| ==> s[j].id != dragged.value)
      || (forall j :: 0 <= j < |s| ==> s[j].id != target)
  {
  }

  /**
   * A drop that happens relocates the first section with the dragged id onto
   * the index of the first section with the target id: the result is a
   * permutation and positions outside the range between the two are kept.
   */
  lemma DropRelocates(s: seq<Section>, dragged: string, target: string)
    requires DropResult(s, Some(dragged), target).Some?
    ensures IndexOfId(s, dragged).Some? && IndexOfId(s, target).Some?
    ensures var r, d, t := DropResult(s, Some(dragged), target).value, IndexOfId(s, dragged).value, IndexOfId(s, target).value;
      && |r| == |s|
      && multiset(r) == multiset(s)
      && r[t] == s[d] && r[t].id == dragged
      && (forall k :: 0 <= k < |s| && (k < d || t < k) && (k < t || d < k) ==> r[k] == s[k])
      && (d < t ==> forall k :: d <= k < t ==> r[k] == s[k + 1])
      && (t < d ==> forall k :: t < k <= d ==> r[k] == s[k - 1])
  {
    var d, t := IndexOfId(s, dragged).value, IndexOfId(s, target).value;
    MovedShape(s, d, t);
    MovedPermutation(s, d, t);
  }

  /** Dropping the first of four sections on the third gives [S2, S3, S1, S4]. */
  lemma DropExample(s1: Section, s2: Section, s3: Section, s4: Section)
    requires s1.id == "s1" && s2.id == "s2" && s3.id == "s3" && s4.id == "s4"
    ensures DropResult([s1, s2, s3, s4], Some("s1"), "s3") == Some([s2, s3, s1, s4])
  {
    var s := [s1, s2, s3, s4];
    assert forall j :: 0 <= j < 4 && j != 2 ==> s[j].id != "s3";
    assert IndexOfId(s, "s1") == Some(0);
    assert s[2].id == "s3";
    assert IndexOfId(s, "s3") == Some(2);
    assert !DropIgnored(Some("s1"), "s3");
    var rest := Removed(s, 0);
    assert rest == [s2, s3, s4];
    assert Inserted(rest, 2, s1) == [s2, s3] + [s1] + [s4];
    assert Moved(s, 0, 2) == [s2, s3, s1, s4];
    assert DropResult(s, Some("s1"), "s3") == Some(Moved(s, 0, 2));
  }

  /** Relocation is not a swap: dropping S1 on S3 and then S3 on S1 does not restore the order. */
  lemma DropIsNotSwap(s1: Section, s2: Section, s3: Section, s4: Section)
    requires s1.id == "s1" && s2.id == "s2" && s3.id == "s3" && s4.id == "s4"
    ensures DropResult([s2, s3, s1, s4], Some("s3"), "s1") == Some([s2, s1, s3, s4])
    ensures [s2, s1, s3, s4] != [s1, s2, s3, s4]
  {
    var s := [s2, s3, s1, s4];
    assert s[1].id == "s3" && s[2].id == "s1";
    assert forall j :: 0 <= j < 4 && j != 1 ==> s[j].id != "s3";
    assert forall j :: 0 <= j < 4 && j != 2 ==> s[j].id != "s1";
    assert IndexOfId(s, "s3") == Some(1);
    assert IndexOfId(s, "s1") == Some(2);
    assert !DropIgnored(Some("s3"), "s1");
    var rest := Removed(s, 1);
    assert rest == [s2, s1, s4];
    assert Inserted(rest, 2, s3) == [s2, s1] + [s3] + [s4];
    assert Moved(s, 1, 2) == [s2, s1, s3, s4];
    assert DropResult(s, Some("s3"), "s1") == Some(Moved(s, 1, 2));
    assert [s2, s1, s3, s4][0].id == "s2";
  }

  /** The user's actions on the list, with the clock stamps and ids they carry. */
  datatype Action =
    | Add(kind: string, stamp: string)
    | Delete(id: string)
    | Update(section: Section)
    | Drop(dragged: Option<string>, target: string)

  function Apply(s: seq<Section>, a: Action): seq<Section> {
    match a
    case Add(kind, stamp) => AddedSections(s, kind, stamp)
    case Delete(id) => DeletedSections(s, id)
    case Update(u) => UpdatedSections(s, u)
    case Drop(dragged, target) =>
      match DropResult(s, dragged, target)
      case None => s
      case Some(r) => r
  }

  function Replay(s: seq<Section>, actions: seq<Action>): seq<Section>
    decreases |actions|
  {
    if actions == [] then s else Replay(Apply(s, actions[0]), actions[1..])
  }

  /** Every added section gets an id not yet in the list at the time it is added. */
  predicate FreshAdds(s: seq<Section>, actions: seq<Action>)
    decreases |actions|
  {
    actions != [] ==>
      (actions[0].Add? ==> forall i :: 0 <= i < |s| ==> s[i].id != actions[0].kind + "-" + actions[0].stamp)
      && FreshAdds(Apply(s, actions[0]), actions[1..])
  }

  /** Ids stay unique across any run of actions whose added ids are fresh. */
  lemma {:induction false} ReplayKeepsUniqueIds(s: seq<Section>, actions: seq<Action>)
    requires UniqueIds(s) && FreshAdds(s, actions)
    ensures UniqueIds(Replay(s, actions))
    decreases |actions|
  {
    if actions != [] {
      var a := actions[0];
      match a {
      case Add(kind, stamp) => AddKeepsUnique(s, kind, stamp);
      case Delete(id) => DeleteKeepsUnique(s, id);
      case Update(u) => UpdateKeepsUnique(s, u);
      case Drop(dragged, target) => {
        if DropResult(s, dragged, target).Some? {
          MovedKeepsUnique(s, IndexOfId(s, dragged.value).value, IndexOfId(s, target).value);
        }
      }
      }
      ReplayKeepsUniqueIds(Apply(s, a), actions[1..]);
    }
  }
}
