/** The skills editor: the new-skill input with its trim guard, level changes, removal, proficiency bars. */
module SkillsEditor {
  import opened Common
  import opened ResumeData
  import Text
  import EntryList

  /** The options of the level selector, in order. */
  const Levels: seq<string> := ["Beginner", "Intermediate", "Advanced", "Expert"]

  /** The level a new skill starts with. */
  const DefaultLevel: string := "Intermediate"

  /**
   * The skill `addSkill` would create from the input text: none when the text is whitespace only,
   * otherwise one named by the trimmed text, with the default level.
   */
  function NewSkill(text: string, id: Id): (r: Option<Skill>)
    ensures r.None? <==> Text.AllWhitespace(text)
    ensures r.Some? ==> r.value.id == id && r.value.level == Levels[1]
    ensures r.Some? ==> r.value.name == Text.Trim(text) && r.value.name != []
    ensures r.Some? ==> !Text.IsWhitespace(r.value.name[0]) && !Text.IsWhitespace(r.value.name[|r.value.name| - 1])
  {
    Text.TrimEmptyIff(text);
    var name := Text.Trim(text);
    if name == [] then None else Some(Skill(id, name, DefaultLevel))
  }

  /** The list `addSkill` emits, if any: the old list with the new skill at the end. */
  function Add(data: seq<Skill>, text: string, id: Id): (emitted: Option<seq<Skill>>)
    ensures emitted.None? <==> Text.AllWhitespace(text)
    ensures emitted.Some? ==> |emitted.value| == |data| + 1 && emitted.value[..|data|] == data
    ensures emitted.Some? ==> Some(emitted.value[|data|]) == NewSkill(text, id)
  {
    match NewSkill(text, id)
    case None => None
    case Some(skill) => Some(data + [skill])
  }

  /** `removeSkill`: exactly the skills with another id are kept. */
  function Remove(data: seq<Skill>, id: Id): (r: seq<Skill>)
    ensures |r| <= |data|
    ensures forall i :: 0 <= i < |r| ==> r[i].id != id
    ensures forall x :: x in r <==> x in data && x.id != id
  {
    assert forall x :: x in EntryList.Without(data, SkillId, id) <==> x in data && x.id != id by {
      forall x ensures x in EntryList.Without(data, SkillId, id) <==> x in data && x.id != id {
        EntryList.WithoutMembers(data, SkillId, id, x);
      }
    }
    EntryList.Without(data, SkillId, id)
  }

  /** `updateSkillLevel`: only `level` of the matching skills changes; names and every other skill stay. */
  function UpdateLevel(data: seq<Skill>, id: Id, level: string): (r: seq<Skill>)
    ensures |r| == |data|
    ensures forall i :: 0 <= i < |data| ==> r[i].id == data[i].id && r[i].name == data[i].name
    ensures forall i :: 0 <= i < |data| ==> r[i].level == if data[i].id == id then level else data[i].level
  {
    EntryList.MapWhere(data, SkillId, id, (s: Skill) => s.(level := level))
  }

  /** Adding a skill with an unused id keeps ids unique, and removing that id again restores the list. */
  lemma AddFresh(data: seq<Skill>, text: string, id: Id)
    requires EntryList.UniqueIds(data, SkillId) && !EntryList.HasId(data, SkillId, id)
    ensures Add(data, text, id).Some? ==> EntryList.UniqueIds(Add(data, text, id).value, SkillId)
    ensures Add(data, text, id).Some? ==> Remove(Add(data, text, id).value, id) == data
  {
    var emitted := Add(data, text, id);
    if emitted.Some? {
      var s := NewSkill(text, id).value;
      assert emitted.value == data + [s];
      EntryList.AppendFreshKeepsUnique(data, SkillId, s);
      EntryList.WithoutSplice(data, s, [], SkillId);
      assert data + [s] + [] == data + [s] && data + [] == data;
    }
  }

  /** Removal keeps the other skills in order (it cuts out exactly the skill with that id) and is idempotent. */
  lemma RemoveCutsOut(data: seq<Skill>, i: nat)
    requires EntryList.UniqueIds(data, SkillId) && i < |data|
    ensures Remove(data, data[i].id) == data[..i] + data[i + 1..]
    ensures Remove(Remove(data, data[i].id), data[i].id) == Remove(data, data[i].id)
  {
    EntryList.WithoutAt(data, SkillId, i);
    EntryList.WithoutIdempotent(data, SkillId, data[i].id);
  }

  /** Proficiency bar width in percent: a quarter per level, full for Expert and for any unknown level. */
  function BarWidth(level: string): (percent: nat)
    ensures percent in {25, 50, 75, 100}
    ensures percent == 25 <==> level == "Beginner"
    ensures percent == 50 <==> level == "Intermediate"
    ensures percent == 75 <==> level == "Advanced"
  {
    if level == "Beginner" then 25
    else if level == "Intermediate" then 50
    else if level == "Advanced" then 75
    else 100
  }

  /** The selector offers four distinct levels, and the bar grows by a quarter with each of them, in order. */
  lemma LevelsAreGraded()
    ensures |Levels| == 4
    ensures forall i :: 0 <= i < |Levels| ==> BarWidth(Levels[i]) == 25 * (i + 1)
    ensures forall i, j :: 0 <= i < j < |Levels| ==> Levels[i] != Levels[j]
  {
    assert BarWidth(Levels[3]) == 100;
  }

  /** The editor's local state: the text of the new-skill input. */
  class SkillInput {
    var newSkill: string

    constructor ()
      ensures newSkill == ""
    {
      newSkill := "";
    }

    /** The input's `onChange`. */
    method Change(text: string)
      modifies this
      ensures newSkill == text
    {
      newSkill := text;
    }

    /** `addSkill`: emits the extended list and clears the input, or does nothing when the text is blank. */
    method AddSkill(data: seq<Skill>, id: Id) returns (emitted: Option<seq<Skill>>)
      modifies this
      ensures emitted == Add(data, old(newSkill), id)
      ensures emitted.None? ==> newSkill == old(newSkill)
      ensures emitted.Some? ==> newSkill == ""
    {
      emitted := Add(data, newSkill, id);
      if emitted.Some? {
        newSkill := "";
      }
    }

    /** `handleKeyPress`: Enter adds the skill; any other key does nothing. */
    method KeyPress(key: string, data: seq<Skill>, id: Id) returns (emitted: Option<seq<Skill>>)
      modifies this
      ensures key == "Enter" ==> emitted == Add(data, old(newSkill), id)
      ensures key != "Enter" ==> emitted.None?
      ensures emitted.None? ==> newSkill == old(newSkill)
      ensures emitted.Some? ==> newSkill == ""
    {
      if key == "Enter" {
        emitted := AddSkill(data, id);
      } else {
        emitted := None;
      }
    }
  }
}
