/**
 * The editing operations of src/pages/ResumeBuilder.tsx. List edits follow
 * the component's `updateItem` (merge an update into every entry with the
 * given id), `addItem` (prepend a blank template under a fresh id) and the
 * delete buttons (filter by id, or by position for skill groups). The
 * section list is an array the editor changes in place: neighbours are
 * swapped to reorder, and one descriptor's visibility or title is set.
 * Fresh ids are a parameter: the component draws them from `Math.random`.
 */
module Editor {
  import opened Text
  import opened Seqs
  import opened ResumeTypes

  /** `updateItem`: every entry whose id matches is merged with the update,
      all other entries stay as they are, in place. */
  function UpdateById<T>(xs: seq<T>, idOf: T -> string, id: string, merge: T -> T): (r: seq<T>)
    ensures |r| == |xs|
    ensures forall i :: 0 <= i < |xs| && idOf(xs[i]) == id ==> r[i] == merge(xs[i])
    ensures forall i :: 0 <= i < |xs| && idOf(xs[i]) != id ==> r[i] == xs[i]
  {
    MapSeq(xs, (x: T) => if idOf(x) == id then merge(x) else x)
  }

  /** An update whose merge keeps the id leaves the list of ids as it was. */
  lemma UpdateByIdKeepsIds<T>(xs: seq<T>, idOf: T -> string, id: string, merge: T -> T)
    requires forall i :: 0 <= i < |xs| ==> idOf(merge(xs[i])) == idOf(xs[i])
    ensures MapSeq(UpdateById(xs, idOf, id, merge), idOf) == MapSeq(xs, idOf)
  {
  }

  /** An id that no entry carries changes nothing. */
  lemma UpdateByIdNoMatch<T>(xs: seq<T>, idOf: T -> string, id: string, merge: T -> T)
    requires forall i :: 0 <= i < |xs| ==> idOf(xs[i]) != id
    ensures UpdateById(xs, idOf, id, merge) == xs
  {
  }

  /** The delete buttons: drop every entry with the id, keep the rest. */
  function DeleteById<T>(xs: seq<T>, idOf: T -> string, id: string): (r: seq<T>)
    ensures forall i :: 0 <= i < |r| ==> idOf(r[i]) != id
    ensures forall i :: 0 <= i < |xs| && idOf(xs[i]) != id ==> xs[i] in r
    ensures |r| <= |xs|
  {
    Filter(xs, (x: T) => idOf(x) != id)
  }

  /** Deleting keeps every other entry as often as it occurred and removes
      every copy of the deleted one. */
  lemma DeleteByIdCounts<T>(xs: seq<T>, idOf: T -> string, id: string, x: T)
    ensures multiset(DeleteById(xs, idOf, id))[x] == if idOf(x) != id then multiset(xs)[x] else 0
  {
    FilterCounts(xs, (x: T) => idOf(x) != id, x);
  }

  /** Deleting keeps the survivors in their order: it distributes over any
      split of the list. */
  lemma DeleteByIdAppend<T>(a: seq<T>, b: seq<T>, idOf: T -> string, id: string)
    ensures DeleteById(a + b, idOf, id) == DeleteById(a, idOf, id) + DeleteById(b, idOf, id)
  {
    FilterAppend(a, b, (x: T) => idOf(x) != id);
  }

  /** `addItem`: the new entry comes first and the old ones follow in their
      order. */
  function Prepend<T>(item: T, xs: seq<T>): (r: seq<T>)
    ensures |r| == |xs| + 1 && r[0] == item && r[1..] == xs
  {
    [item] + xs
  }

  // The field updates the entry forms send to `updateItem`. A bullets
  // update carries the text of the textarea, which is split at newlines.

  datatype LinkEdit = SetUrl(url: string)

  datatype ExperienceEdit =
    | SetCompany(company: string)
    | SetExperienceYear(year: string)
    | SetPosition(position: string)
    | SetExperienceLocation(location: string)
    | SetExperienceBullets(text: string)

  datatype ProjectEdit =
    | SetProjectTitle(title: string)
    | SetTechStack(techStack: string)
    | SetLiveLink(liveLink: string)
    | SetProjectBullets(text: string)

  datatype FreelanceEdit =
    | SetFreelanceProject(project: string)
    | SetDuration(duration: string)
    | SetRole(role: string)
    | SetFreelanceBullets(text: string)

  datatype EducationEdit =
    | SetSchool(school: string)
    | SetEducationYear(year: string)
    | SetDegree(degree: string)
    | SetMajor(major: string)
    | SetResult(result: string)

  datatype OtherEdit =
    | SetOtherTitle(title: string)
    | SetDescription(description: string)

  /** The value a textarea holds for a list of bullets. */
  function BulletsText(highlights: seq<string>): string {
    Join(highlights, "\n")
  }

  /** The bullets a textarea value stands for. */
  function BulletsOf(text: string): seq<string> {
    Split(text, '\n')
  }

  function ApplyLinkEdit(l: LinkEntry, edit: LinkEdit): LinkEntry {
    l.(url := edit.url)
  }

  function ApplyExperienceEdit(e: ExperienceEntry, edit: ExperienceEdit): ExperienceEntry {
    match edit
    case SetCompany(v) => e.(company := v)
    case SetExperienceYear(v) => e.(year := v)
    case SetPosition(v) => e.(position := v)
    case SetExperienceLocation(v) => e.(location := v)
    case SetExperienceBullets(text) => e.(highlights := BulletsOf(text))
  }

  function ApplyProjectEdit(p: ProjectEntry, edit: ProjectEdit): ProjectEntry {
    match edit
    case SetProjectTitle(v) => p.(title := v)
    case SetTechStack(v) => p.(techStack := v)
    case SetLiveLink(v) => p.(liveLink := v)
    case SetProjectBullets(text) => p.(highlights := BulletsOf(text))
  }

  function ApplyFreelanceEdit(f: FreelanceEntry, edit: FreelanceEdit): FreelanceEntry {
    match edit
    case SetFreelanceProject(v) => f.(project := v)
    case SetDuration(v) => f.(duration := v)
    case SetRole(v) => f.(role := v)
    case SetFreelanceBullets(text) => f.(highlights := BulletsOf(text))
  }

  function ApplyEducationEdit(e: EducationEntry, edit: EducationEdit): EducationEntry {
    match edit
    case SetSchool(v) => e.(school := v)
    case SetEducationYear(v) => e.(year := v)
    case SetDegree(v) => e.(degree := v)
    case SetMajor(v) => e.(major := v)
    case SetResult(v) => e.(result := v)
  }

  function ApplyOtherEdit(o: OtherEntry, edit: OtherEdit): OtherEntry {
    match edit
    case SetOtherTitle(v) => o.(title := v)
    case SetDescription(v) => o.(description := v)
  }

  /** Showing the bullets in the textarea and taking the text back changes
      nothing, as long as there is at least one bullet and none holds a
      line break. */
  lemma {:induction false} BulletsRoundTrip(highlights: seq<string>)
    requires |highlights| >= 1
    requires forall i :: 0 <= i < |highlights| ==> '\n' !in highlights[i]
    ensures BulletsOf(BulletsText(highlights)) == highlights
  {
    SplitJoin(highlights, '\n');
  }

  /** Any textarea text survives the trip back to bullets and out again. */
  lemma TextRoundTrip(text: string)
    ensures BulletsText(BulletsOf(text)) == text
  {
    JoinSplit(text, '\n');
  }

  /** Re-sending an unchanged textarea leaves the experience as it was. */
  lemma ExperienceBulletsUnchanged(e: ExperienceEntry)
    requires |e.highlights| >= 1
    requires forall i :: 0 <= i < |e.highlights| ==> '\n' !in e.highlights[i]
    ensures ApplyExperienceEdit(e, SetExperienceBullets(BulletsText(e.highlights))) == e
  {
    BulletsRoundTrip(e.highlights);
  }

  /** Every entry edit keeps the entry's id, so the list of ids is stable
      under `updateItem`. */
  lemma EditsKeepIds(e: ExperienceEntry, ee: ExperienceEdit, p: ProjectEntry, pe: ProjectEdit,
                     f: FreelanceEntry, fe: FreelanceEdit, d: EducationEntry, de: EducationEdit,
                     o: OtherEntry, oe: OtherEdit, l: LinkEntry, le: LinkEdit)
    ensures ApplyExperienceEdit(e, ee).id == e.id && ApplyProjectEdit(p, pe).id == p.id
    ensures ApplyFreelanceEdit(f, fe).id == f.id && ApplyEducationEdit(d, de).id == d.id
    ensures ApplyOtherEdit(o, oe).id == o.id && ApplyLinkEdit(l, le).id == l.id
  {
  }

  // The blank templates of the `+ Add` buttons, under the fresh id.

  function BlankLink(id: string): LinkEntry { LinkEntry(id, "", "") }

  /** The skill template also receives an id, which the record type of a
      skill group does not have and nothing reads. */
  function BlankSkill(): SkillGroup { SkillGroup("", "") }

  function BlankExperience(id: string): ExperienceEntry { ExperienceEntry(id, "", "", "", "", [""]) }

  function BlankProject(id: string): ProjectEntry { ProjectEntry(id, "", "", "", "", None, [""]) }

  function BlankFreelance(id: string): FreelanceEntry { FreelanceEntry(id, "", "", "", [""]) }

  function BlankEducation(id: string): EducationEntry { EducationEntry(id, "", "", "", "", "") }

  function BlankOther(id: string): OtherEntry { OtherEntry(id, "", "") }

  /** The one bullet of a new entry is blank: its textarea shows the empty
      string, and an empty textarea gives back that one blank bullet. */
  lemma BlankBulletsText()
    ensures BulletsText([""]) == "" && BulletsOf("") == [""]
  {
  }

  function LinkId(l: LinkEntry): string { l.id }
  function ExperienceId(e: ExperienceEntry): string { e.id }
  function ProjectId(p: ProjectEntry): string { p.id }
  function FreelanceId(f: FreelanceEntry): string { f.id }
  function EducationId(e: EducationEntry): string { e.id }
  function OtherId(o: OtherEntry): string { o.id }

  /** The text inputs of the identity card and the summary textarea. */
  datatype Field = FullName | Location | Email | Phone | SummaryText

  function SetField(d: ResumeData, field: Field, v: string): ResumeData {
    match field
    case FullName => d.(fullName := v)
    case Location => d.(location := v)
    case Email => d.(email := v)
    case Phone => d.(phone := v)
    case SummaryText => d.(summary := v)
  }

  /** Moving a section up from `index` swaps it with its upper neighbour. */
  function MoveUpSeq(secs: seq<SectionConfig>, index: nat): seq<SectionConfig>
    requires 0 < index < |secs|
  {
    SwapAdjacent(secs, index - 1)
  }

  /** Moving a section down from `index` swaps it with its lower neighbour. */
  function MoveDownSeq(secs: seq<SectionConfig>, index: nat): seq<SectionConfig>
    requires index + 1 < |secs|
  {
    SwapAdjacent(secs, index)
  }

  /** A move up is a permutation that exchanges exactly the two neighbours,
      and moving down from the new position undoes it. */
  lemma MoveUpThenDown(secs: seq<SectionConfig>, index: nat)
    requires 0 < index < |secs|
    ensures multiset(MoveUpSeq(secs, index)) == multiset(secs)
    ensures MoveUpSeq(secs, index)[index - 1] == secs[index]
    ensures MoveUpSeq(secs, index)[index] == secs[index - 1]
    ensures forall k :: 0 <= k < |secs| && k != index - 1 && k != index ==> MoveUpSeq(secs, index)[k] == secs[k]
    ensures MoveDownSeq(MoveUpSeq(secs, index), index - 1) == secs
  {
    SwapAdjacentIsPermutation(secs, index - 1);
    SwapAdjacentTwice(secs, index - 1);
  }

  /** A move down is a permutation that exchanges exactly the two
      neighbours, and moving up from the new position undoes it. */
  lemma MoveDownThenUp(secs: seq<SectionConfig>, index: nat)
    requires index + 1 < |secs|
    ensures multiset(MoveDownSeq(secs, index)) == multiset(secs)
    ensures MoveDownSeq(secs, index)[index] == secs[index + 1]
    ensures MoveDownSeq(secs, index)[index + 1] == secs[index]
    ensures forall k :: 0 <= k < |secs| && k != index && k != index + 1 ==> MoveDownSeq(secs, index)[k] == secs[k]
    ensures MoveUpSeq(MoveDownSeq(secs, index), index + 1) == secs
  {
    SwapAdjacentIsPermutation(secs, index);
    SwapAdjacentTwice(secs, index);
  }

  function ToggleSeq(secs: seq<SectionConfig>, index: nat): seq<SectionConfig>
    requires index < |secs|
  {
    secs[index := secs[index].(isVisible := !secs[index].isVisible)]
  }

  /** Toggling flips the visibility of that descriptor only, and toggling
      twice restores the list. */
  lemma ToggleTwice(secs: seq<SectionConfig>, index: nat)
    requires index < |secs|
    ensures |ToggleSeq(secs, index)| == |secs|
    ensures ToggleSeq(secs, index)[index].isVisible == !secs[index].isVisible
    ensures ToggleSeq(secs, index)[index].id == secs[index].id
    ensures ToggleSeq(secs, index)[index].title == secs[index].title
    ensures forall k :: 0 <= k < |secs| && k != index ==> ToggleSeq(secs, index)[k] == secs[k]
    ensures ToggleSeq(ToggleSeq(secs, index), index) == secs
  {
  }

  /**
   * The editor's state: the record, with its section descriptors held in an
   * array that the section controls change in place. `Data()` is the record
   * the renderers see. The array is the only copy of the descriptors: the
   * `sections` field of `record` is emptied at construction and never read.
   */
  class ResumeEditor {
    var record: ResumeData
    var sections: array<SectionConfig>

    function Data(): ResumeData
      reads this, sections
    {
      record.(sections := sections[..])
    }

    constructor(initial: ResumeData)
      ensures Data() == initial
    {
      record := initial.(sections := []);
      sections := new SectionConfig[|initial.sections|](i requires 0 <= i < |initial.sections| => initial.sections[i]);
    }

    /** An identity field or the summary takes the typed value. */
    method SetText(field: Field, v: string)
      modifies this
      ensures sections == old(sections)
      ensures Data() == SetField(old(Data()), field, v)
    {
      record := SetField(record, field, v);
    }

    method AddLink(freshId: string)
      modifies this
      ensures sections == old(sections)
      ensures Data() == old(Data()).(links := Prepend(BlankLink(freshId), old(Data()).links))
    {
      record := record.(links := Prepend(BlankLink(freshId), record.links));
    }

    method UpdateLink(id: string, edit: LinkEdit)
      modifies this
      ensures sections == old(sections)
      ensures Data() == old(Data()).(links := UpdateById(old(Data()).links, LinkId, id, l => ApplyLinkEdit(l, edit)))
    {
      record := record.(links := UpdateById(record.links, LinkId, id, l => ApplyLinkEdit(l, edit)));
    }

    method DeleteLink(id: string)
      modifies this
      ensures sections == old(sections)
      ensures Data() == old(Data()).(links := DeleteById(old(Data()).links, LinkId, id))
    {
      record := record.(links := DeleteById(record.links, LinkId, id));
    }

    method AddSkill()
      modifies this
      ensures sections == old(sections)
      ensures Data() == old(Data()).(technicalSkills := Prepend(BlankSkill(), old(Data()).technicalSkills))
    {
      record := record.(technicalSkills := Prepend(BlankSkill(), record.technicalSkills));
    }

    /** A skill group's category input; groups are addressed by position. */
    method SetSkillCategory(index: nat, v: string)
      requires index < |record.technicalSkills|
      modifies this
      ensures sections == old(sections)
      ensures Data() == old(Data()).(technicalSkills := old(Data()).technicalSkills[index := old(Data()).technicalSkills[index].(category := v)])
    {
      record := record.(technicalSkills := record.technicalSkills[index := record.technicalSkills[index].(category := v)]);
    }

    method SetSkillSkills(index: nat, v: string)
      requires index < |record.technicalSkills|
      modifies this
      ensures sections == old(sections)
      ensures Data() == old(Data()).(technicalSkills := old(Data()).technicalSkills[index := old(Data()).technicalSkills[index].(skills := v)])
    {
      record := record.(technicalSkills := record.technicalSkills[index := record.technicalSkills[index].(skills := v)]);
    }

    /** Skill groups are deleted by position. */
    method DeleteSkillAt(index: nat)
      modifies this
      ensures sections == old(sections)
      ensures Data() == old(Data()).(technicalSkills := RemoveAt(old(Data()).technicalSkills, index))
    {
      record := record.(technicalSkills := RemoveAt(record.technicalSkills, index));
    }

    method AddExperience(freshId: string)
      modifies this
      ensures sections == old(sections)
      ensures Data() == old(Data()).(experiences := Prepend(BlankExperience(freshId), old(Data()).experiences))
    {
      record := record.(experiences := Prepend(BlankExperience(freshId), record.experiences));
    }

    method UpdateExperience(id: string, edit: ExperienceEdit)
      modifies this
      ensures sections == old(sections)
      ensures Data() == old(Data()).(experiences := UpdateById(old(Data()).experiences, ExperienceId, id, e => ApplyExperienceEdit(e, edit)))
    {
      record := record.(experiences := UpdateById(record.experiences, ExperienceId, id, e => ApplyExperienceEdit(e, edit)));
    }

    method DeleteExperience(id: string)
      modifies this
      ensures sections == old(sections)
      ensures Data() == old(Data()).(experiences := DeleteById(old(Data()).experiences, ExperienceId, id))
    {
      record := record.(experiences := DeleteById(record.experiences, ExperienceId, id));
    }

    method AddProject(freshId: string)
      modifies this
      ensures sections == old(sections)
      ensures Data() == old(Data()).(projects := Prepend(BlankProject(freshId), old(Data()).projects))
    {
      record := record.(projects := Prepend(BlankProject(freshId), record.projects));
    }

    method UpdateProject(id: string, edit: ProjectEdit)
      modifies this
      ensures sections == old(sections)
      ensures Data() == old(Data()).(projects := UpdateById(old(Data()).projects, ProjectId, id, p => ApplyProjectEdit(p, edit)))
    {
      record := record.(projects := UpdateById(record.projects, ProjectId, id, p => ApplyProjectEdit(p, edit)));
    }

    method DeleteProject(id: string)
      modifies this
      ensures sections == old(sections)
      ensures Data() == old(Data()).(projects := DeleteById(old(Data()).projects, ProjectId, id))
    {
      record := record.(projects := DeleteById(record.projects, ProjectId, id));
    }

    method AddFreelance(freshId: string)
      modifies this
      ensures sections == old(sections)
      ensures Data() == old(Data()).(freelance := Prepend(BlankFreelance(freshId), old(Data()).freelance))
    {
      record := record.(freelance := Prepend(BlankFreelance(freshId), record.freelance));
    }

    method UpdateFreelance(id: string, edit: FreelanceEdit)
      modifies this
      ensures sections == old(sections)
      ensures Data() == old(Data()).(freelance := UpdateById(old(Data()).freelance, FreelanceId, id, f => ApplyFreelanceEdit(f, edit)))
    {
      record := record.(freelance := UpdateById(record.freelance, FreelanceId, id, f => ApplyFreelanceEdit(f, edit)));
    }

    method DeleteFreelance(id: string)
      modifies this
      ensures sections == old(sections)
      ensures Data() == old(Data()).(freelance := DeleteById(old(Data()).freelance, FreelanceId, id))
    {
      record := record.(freelance := DeleteById(record.freelance, FreelanceId, id));
    }

    method AddEducation(freshId: string)
      modifies this
      ensures sections == old(sections)
      ensures Data() == old(Data()).(education := Prepend(BlankEducation(freshId), old(Data()).education))
    {
      record := record.(education := Prepend(BlankEducation(freshId), record.education));
    }

    method UpdateEducation(id: string, edit: EducationEdit)
      modifies this
      ensures sections == old(sections)
      ensures Data() == old(Data()).(education := UpdateById(old(Data()).education, EducationId, id, e => ApplyEducationEdit(e, edit)))
    {
      record := record.(education := UpdateById(record.education, EducationId, id, e => ApplyEducationEdit(e, edit)));
    }

    method DeleteEducation(id: string)
      modifies this
      ensures sections == old(sections)
      ensures Data() == old(Data()).(education := DeleteById(old(Data()).education, EducationId, id))
    {
      record := record.(education := DeleteById(record.education, EducationId, id));
    }

    method AddOther(freshId: string)
      modifies this
      ensures sections == old(sections)
      ensures Data() == old(Data()).(others := Prepend(BlankOther(freshId), old(Data()).others))
    {
      record := record.(others := Prepend(BlankOther(freshId), record.others));
    }

    method UpdateOther(id: string, edit: OtherEdit)
      modifies this
      ensures sections == old(sections)
      ensures Data() == old(Data()).(others := UpdateById(old(Data()).others, OtherId, id, o => ApplyOtherEdit(o, edit)))
    {
      record := record.(others := UpdateById(record.others, OtherId, id, o => ApplyOtherEdit(o, edit)));
    }

    method DeleteOther(id: string)
      modifies this
      ensures sections == old(sections)
      ensures Data() == old(Data()).(others := DeleteById(old(Data()).others, OtherId, id))
    {
      record := record.(others := DeleteById(record.others, OtherId, id));
    }

    /** `onMoveUp`; the button is disabled on the first section. */
    method MoveUp(index: nat)
      requires 0 < index < sections.Length
      modifies sections
      ensures sections[..] == MoveUpSeq(old(sections[..]), index)
      ensures Data() == old(Data()).(sections := MoveUpSeq(old(sections[..]), index))
    {
      sections[index - 1], sections[index] := sections[index], sections[index - 1];
    }

    /** `onMoveDown`; the button is disabled on the last section. */
    method MoveDown(index: nat)
      requires index + 1 < sections.Length
      modifies sections
      ensures sections[..] == MoveDownSeq(old(sections[..]), index)
      ensures Data() == old(Data()).(sections := MoveDownSeq(old(sections[..]), index))
    {
      sections[index], sections[index + 1] := sections[index + 1], sections[index];
    }

    /** `onToggleVisibility`: flips the flag of the descriptor in place. */
    method ToggleVisibility(index: nat)
      requires index < sections.Length
      modifies sections
      ensures sections[..] == ToggleSeq(old(sections[..]), index)
      ensures Data() == old(Data()).(sections := ToggleSeq(old(sections[..]), index))
    {
      sections[index] := sections[index].(isVisible := !sections[index].isVisible);
    }

    /** `onTitleChange`: sets the title of the descriptor in place. */
    method SetTitle(index: nat, v: string)
      requires index < sections.Length
      modifies sections
      ensures sections[..] == old(sections[..])[index := old(sections[index]).(title := v)]
      ensures Data() == old(Data()).(sections := old(sections[..])[index := old(sections[index]).(title := v)])
    {
      sections[index] := sections[index].(title := v);
    }
  }
}
