/** The work-experience editor: add, update one field, remove, and the "I currently work here" box. */
module ExperienceEditor {
  import opened Common
  import opened ResumeData
  import EntryList

  /** The text fields of an entry an input can change. */
  datatype Field = JobTitle | Company | Location | StartDate | EndDate | Description

  /** `[field]: value`: a text field set to a string, or the `current` flag set to a boolean. */
  datatype Edit = SetText(field: Field, text: string) | SetCurrent(current: bool)

  function TextOf(e: Experience, f: Field): string
  {
    match f
    case JobTitle => e.jobTitle
    case Company => e.company
    case Location => e.location
    case StartDate => e.startDate
    case EndDate => e.endDate
    case Description => e.description
  }

  /** `{ ...exp, [field]: value }`: the named field takes the value and nothing else changes. */
  function Edited(e: Experience, edit: Edit): (r: Experience)
    ensures r.id == e.id
    ensures edit.SetText? ==> TextOf(r, edit.field) == edit.text && r.current == e.current
    ensures edit.SetText? ==> forall g :: g != edit.field ==> TextOf(r, g) == TextOf(e, g)
    ensures edit.SetCurrent? ==> r.current == edit.current && forall g :: TextOf(r, g) == TextOf(e, g)
  {
    match edit
    case SetCurrent(c) => e.(current := c)
    case SetText(f, v) =>
      match f
      case JobTitle => e.(jobTitle := v)
      case Company => e.(company := v)
      case Location => e.(location := v)
      case StartDate => e.(startDate := v)
      case EndDate => e.(endDate := v)
      case Description => e.(description := v)
  }

  /** `addExperience`: the list with one new entry at the end, carrying `id`, empty texts and `current` false. */
  function Add(data: seq<Experience>, id: Id): (r: seq<Experience>)
    ensures |r| == |data| + 1 && r[..|data|] == data
    ensures r[|data|].id == id && !r[|data|].current
    ensures forall f :: TextOf(r[|data|], f) == ""
  {
    data + [Experience(id, "", "", "", "", "", false, "")]
  }

  /** `updateExperience`: every entry with that id is edited, every other one is kept, in the same order. */
  function Update(data: seq<Experience>, id: Id, edit: Edit): (r: seq<Experience>)
    ensures |r| == |data|
    ensures forall i :: 0 <= i < |data| && data[i].id == id ==> r[i] == Edited(data[i], edit)
    ensures forall i :: 0 <= i < |data| && data[i].id != id ==> r[i] == data[i]
  {
    EntryList.MapWhere(data, ExperienceId, id, e => Edited(e, edit))
  }

  /** `removeExperience`: exactly the entries with another id are kept. */
  function Remove(data: seq<Experience>, id: Id): (r: seq<Experience>)
    ensures |r| <= |data|
    ensures forall i :: 0 <= i < |r| ==> r[i].id != id
    ensures forall x :: x in r <==> x in data && x.id != id
  {
    assert forall x :: x in EntryList.Without(data, ExperienceId, id) <==> x in data && x.id != id by {
      forall x ensures x in EntryList.Without(data, ExperienceId, id) <==> x in data && x.id != id {
        EntryList.WithoutMembers(data, ExperienceId, id, x);
      }
    }
    EntryList.Without(data, ExperienceId, id)
  }

  /** Adding with an unused id keeps ids unique, and removing that id again restores the list. */
  lemma AddFresh(data: seq<Experience>, id: Id)
    requires EntryList.UniqueIds(data, ExperienceId) && !EntryList.HasId(data, ExperienceId, id)
    ensures EntryList.UniqueIds(Add(data, id), ExperienceId)
    ensures Remove(Add(data, id), id) == data
  {
    var e := Experience(id, "", "", "", "", "", false, "");
    EntryList.AppendFreshKeepsUnique(data, ExperienceId, e);
    EntryList.WithoutSplice(data, e, [], ExperienceId);
    assert data + [e] + [] == Add(data, id) && data + [] == data;
  }

  /** An id that no entry has: the update changes nothing. */
  lemma UpdateAbsent(data: seq<Experience>, id: Id, edit: Edit)
    requires !EntryList.HasId(data, ExperienceId, id)
    ensures Update(data, id, edit) == data
  {
    EntryList.MapWhereAbsent(data, ExperienceId, id, e => Edited(e, edit));
  }

  /** An update never changes an id, so it keeps ids unique; an update of an absent id changes nothing. */
  lemma UpdateKeepsIds(data: seq<Experience>, id: Id, edit: Edit)
    ensures forall i :: 0 <= i < |data| ==> Update(data, id, edit)[i].id == data[i].id
    ensures EntryList.UniqueIds(data, ExperienceId) ==> EntryList.UniqueIds(Update(data, id, edit), ExperienceId)
  {
    EntryList.MapWhereKeepsIds(data, ExperienceId, id, e => Edited(e, edit));
  }

  /** Removal keeps the other entries in order (it cuts out exactly the entry with that id) and is idempotent. */
  lemma RemoveCutsOut(data: seq<Experience>, i: nat)
    requires EntryList.UniqueIds(data, ExperienceId) && i < |data|
    ensures Remove(data, data[i].id) == data[..i] + data[i + 1..]
    ensures Remove(Remove(data, data[i].id), data[i].id) == Remove(data, data[i].id)
  {
    EntryList.WithoutAt(data, ExperienceId, i);
    EntryList.WithoutIdempotent(data, ExperienceId, data[i].id);
  }

  /**
   * The change handler of the "I currently work here" checkbox, as written: the lists it emits, in order.
   * Both are computed from the same `data`: the first sets `current`, the second, only when checking,
   * clears `endDate` and does not contain the first one's change.
   */
  function CurrentChanged(data: seq<Experience>, id: Id, checked: bool): (emitted: seq<seq<Experience>>)
    ensures |emitted| == if checked then 2 else 1
    ensures emitted[0] == Update(data, id, SetCurrent(checked))
    ensures checked ==> emitted[1] == Update(data, id, SetText(EndDate, ""))
  {
    [Update(data, id, SetCurrent(checked))] + if checked then [Update(data, id, SetText(EndDate, ""))] else []
  }

  /**
   * The list that prevails is the last one emitted. When the box is checked it is `data` with only the
   * matching entries' `endDate` cleared: their `current` keeps its old value (false, since the box was
   * unchecked), so checking has no visible effect except clearing the end date.
   */
  lemma CheckingKeepsStaleCurrent(data: seq<Experience>, id: Id)
    ensures var emitted := CurrentChanged(data, id, true);
      var last := emitted[|emitted| - 1];
      |last| == |data| &&
      forall i :: 0 <= i < |data| ==> last[i] == if data[i].id == id then data[i].(endDate := "") else data[i]
  {
  }

  /** A concrete case: one entry, box checked; the prevailing list still says `current == false`. */
  lemma CheckingOneEntry(id: Id)
    ensures var data := Add([], id);
      var last := CurrentChanged(data, id, true)[1];
      !last[0].current
  {
  }

  /** Unchecking emits one list: `data` with `current` false on the matching entries, `endDate` as it was. */
  lemma UncheckingClearsFlagOnly(data: seq<Experience>, id: Id)
    ensures var emitted := CurrentChanged(data, id, false);
      |emitted| == 1 && |emitted[0]| == |data| &&
      forall i :: 0 <= i < |data| ==>
        emitted[0][i] == if data[i].id == id then data[i].(current := false) else data[i]
  {
  }

  /**
   * The evidently intended handler: the `endDate` update applied to the list the `current` update produced,
   * so that the matching entry ends with `current == checked`, and with an empty `endDate` when checked.
   */
  function CurrentChangedIntended(data: seq<Experience>, id: Id, checked: bool): (r: seq<Experience>)
    ensures |r| == |data|
    ensures forall i :: 0 <= i < |data| && data[i].id == id ==>
      r[i] == data[i].(current := checked, endDate := if checked then "" else data[i].endDate)
    ensures forall i :: 0 <= i < |data| && data[i].id == id ==>
      r[i].id == id && r[i].current == checked && (checked ==> r[i].endDate == "")
    ensures forall i :: 0 <= i < |data| && data[i].id != id ==> r[i] == data[i]
  {
    var flagged := Update(data, id, SetCurrent(checked));
    if checked then Update(flagged, id, SetText(EndDate, "")) else flagged
  }
}
