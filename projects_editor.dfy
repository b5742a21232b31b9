/** The projects editor: add, update one field, remove. */
module ProjectsEditor {
  import opened Common
  import opened ResumeData
  import EntryList

  datatype Field = Name | Description | Technologies | Url | Github | StartDate | EndDate

  function TextOf(p: Project, f: Field): string
  {
    match f
    case Name => p.name
    case Description => p.description
    case Technologies => p.technologies
    case Url => p.url
    case Github => p.github
    case StartDate => p.startDate
    case EndDate => p.endDate
  }

  /**
   * `{ ...project, [field]: value }`: the named field takes the value and nothing else changes. The
   * technologies text is stored exactly as typed.
   */
  function Edited(p: Project, f: Field, v: string): (r: Project)
    ensures r.id == p.id && TextOf(r, f) == v
    ensures forall g :: g != f ==> TextOf(r, g) == TextOf(p, g)
  {
    match f
    case Name => p.(name := v)
    case Description => p.(description := v)
    case Technologies => p.(technologies := v)
    case Url => p.(url := v)
    case Github => p.(github := v)
    case StartDate => p.(startDate := v)
    case EndDate => p.(endDate := v)
  }

  /** `addProject`: the list with one new entry at the end, carrying `id` and only empty fields. */
  function Add(data: seq<Project>, id: Id): (r: seq<Project>)
    ensures |r| == |data| + 1 && r[..|data|] == data
    ensures r[|data|].id == id && forall f :: TextOf(r[|data|], f) == ""
  {
    data + [Project(id, "", "", "", "", "", "", "")]
  }

  /** `updateProject`: every entry with that id is edited, every other one is kept, in the same order. */
  function Update(data: seq<Project>, id: Id, f: Field, v: string): (r: seq<Project>)
    ensures |r| == |data|
    ensures forall i :: 0 <= i < |data| && data[i].id == id ==> r[i] == Edited(data[i], f, v)
    ensures forall i :: 0 <= i < |data| && data[i].id != id ==> r[i] == data[i]
  {
    EntryList.MapWhere(data, ProjectId, id, e => Edited(e, f, v))
  }

  /** `removeProject`: exactly the entries with another id are kept. */
  function Remove(data: seq<Project>, id: Id): (r: seq<Project>)
    ensures |r| <= |data|
    ensures forall i :: 0 <= i < |r| ==> r[i].id != id
    ensures forall x :: x in r <==> x in data && x.id != id
  {
    assert forall x :: x in EntryList.Without(data, ProjectId, id) <==> x in data && x.id != id by {
      forall x ensures x in EntryList.Without(data, ProjectId, id) <==> x in data && x.id != id {
        EntryList.WithoutMembers(data, ProjectId, id, x);
      }
    }
    EntryList.Without(data, ProjectId, id)
  }

  /** Adding with an unused id keeps ids unique, and removing that id again restores the list. */
  lemma AddFresh(data: seq<Project>, id: Id)
    requires EntryList.UniqueIds(data, ProjectId) && !EntryList.HasId(data, ProjectId, id)
    ensures EntryList.UniqueIds(Add(data, id), ProjectId)
    ensures Remove(Add(data, id), id) == data
  {
    var e := Project(id, "", "", "", "", "", "", "");
    EntryList.AppendFreshKeepsUnique(data, ProjectId, e);
    EntryList.WithoutSplice(data, e, [], ProjectId);
    assert data + [e] + [] == Add(data, id) && data + [] == data;
  }

  /** An update never changes ids, so it keeps them unique; an id no entry has changes nothing. */
  lemma UpdateKeepsIds(data: seq<Project>, id: Id, f: Field, v: string)
    ensures EntryList.UniqueIds(data, ProjectId) ==> EntryList.UniqueIds(Update(data, id, f, v), ProjectId)
    ensures !EntryList.HasId(data, ProjectId, id) ==> Update(data, id, f, v) == data
  {
    EntryList.MapWhereKeepsIds(data, ProjectId, id, e => Edited(e, f, v));
    if !EntryList.HasId(data, ProjectId, id) {
      EntryList.MapWhereAbsent(data, ProjectId, id, e => Edited(e, f, v));
    }
  }

  /** Removal keeps the other entries in order (it cuts out exactly the entry with that id) and is idempotent. */
  lemma RemoveCutsOut(data: seq<Project>, i: nat)
    requires EntryList.UniqueIds(data, ProjectId) && i < |data|
    ensures Remove(data, data[i].id) == data[..i] + data[i + 1..]
    ensures Remove(Remove(data, data[i].id), data[i].id) == Remove(data, data[i].id)
  {
    EntryList.WithoutAt(data, ProjectId, i);
    EntryList.WithoutIdempotent(data, ProjectId, data[i].id);
  }
}
