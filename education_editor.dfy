/** The education editor: add, update one field, remove. */
module EducationEditor {
  import opened Common
  import opened ResumeData
  import EntryList

  datatype Field = Degree | School | Location | StartDate | EndDate | Gpa | Description

  function TextOf(e: Education, f: Field): string
  {
    match f
    case Degree => e.degree
    case School => e.school
    case Location => e.location
    case StartDate => e.startDate
    case EndDate => e.endDate
    case Gpa => e.gpa
    case Description => e.description
  }

  /** `{ ...edu, [field]: value }`: the named field takes the value and nothing else changes. */
  function Edited(e: Education, f: Field, v: string): (r: Education)
    ensures r.id == e.id && TextOf(r, f) == v
    ensures forall g :: g != f ==> TextOf(r, g) == TextOf(e, g)
  {
    match f
    case Degree => e.(degree := v)
    case School => e.(school := v)
    case Location => e.(location := v)
    case StartDate => e.(startDate := v)
    case EndDate => e.(endDate := v)
    case Gpa => e.(gpa := v)
    case Description => e.(description := v)
  }

  /** `addEducation`: the list with one new entry at the end, carrying `id` and only empty fields. */
  function Add(data: seq<Education>, id: Id): (r: seq<Education>)
    ensures |r| == |data| + 1 && r[..|data|] == data
    ensures r[|data|].id == id && forall f :: TextOf(r[|data|], f) == ""
  {
    data + [Education(id, "", "", "", "", "", "", "")]
  }

  /** `updateEducation`: every entry with that id is edited, every other one is kept, in the same order. */
  function Update(data: seq<Education>, id: Id, f: Field, v: string): (r: seq<Education>)
    ensures |r| == |data|
    ensures forall i :: 0 <= i < |data| && data[i].id == id ==> r[i] == Edited(data[i], f, v)
    ensures forall i :: 0 <= i < |data| && data[i].id != id ==> r[i] == data[i]
  {
    EntryList.MapWhere(data, EducationId, id, e => Edited(e, f, v))
  }

  /** `removeEducation`: exactly the entries with another id are kept. */
  function Remove(data: seq<Education>, id: Id): (r: seq<Education>)
    ensures |r| <= |data|
    ensures forall i :: 0 <= i < |r| ==> r[i].id != id
    ensures forall x :: x in r <==> x in data && x.id != id
  {
    assert forall x :: x in EntryList.Without(data, EducationId, id) <==> x in data && x.id != id by {
      forall x ensures x in EntryList.Without(data, EducationId, id) <==> x in data && x.id != id {
        EntryList.WithoutMembers(data, EducationId, id, x);
      }
    }
    EntryList.Without(data, EducationId, id)
  }

  /** Adding with an unused id keeps ids unique, and removing that id again restores the list. */
  lemma AddFresh(data: seq<Education>, id: Id)
    requires EntryList.UniqueIds(data, EducationId) && !EntryList.HasId(data, EducationId, id)
    ensures EntryList.UniqueIds(Add(data, id), EducationId)
    ensures Remove(Add(data, id), id) == data
  {
    var e := Education(id, "", "", "", "", "", "", "");
    EntryList.AppendFreshKeepsUnique(data, EducationId, e);
    EntryList.WithoutSplice(data, e, [], EducationId);
    assert data + [e] + [] == Add(data, id) && data + [] == data;
  }

  /** An update never changes ids, so it keeps them unique; an id no entry has changes nothing. */
  lemma UpdateKeepsIds(data: seq<Education>, id: Id, f: Field, v: string)
    ensures EntryList.UniqueIds(data, EducationId) ==> EntryList.UniqueIds(Update(data, id, f, v), EducationId)
    ensures !EntryList.HasId(data, EducationId, id) ==> Update(data, id, f, v) == data
  {
    EntryList.MapWhereKeepsIds(data, EducationId, id, e => Edited(e, f, v));
    if !EntryList.HasId(data, EducationId, id) {
      EntryList.MapWhereAbsent(data, EducationId, id, e => Edited(e, f, v));
    }
  }

  /** Removal keeps the other entries in order (it cuts out exactly the entry with that id) and is idempotent. */
  lemma RemoveCutsOut(data: seq<Education>, i: nat)
    requires EntryList.UniqueIds(data, EducationId) && i < |data|
    ensures Remove(data, data[i].id) == data[..i] + data[i + 1..]
    ensures Remove(Remove(data, data[i].id), data[i].id) == Remove(data, data[i].id)
  {
    EntryList.WithoutAt(data, EducationId, i);
    EntryList.WithoutIdempotent(data, EducationId, data[i].id);
  }
}
