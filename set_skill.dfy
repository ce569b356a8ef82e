/**
 * SetSkill: put a skill on the right mouse button by pressing its key
 * binding, but only when the skill has a binding and is not already there.
 */
module SetSkill {
  import opened Common
  import opened V2Context

  /** The input SetSkill issues for skill `id` against snapshot `d`. */
  function SkillInput(d: Snapshot, id: Skill): (r: seq<InputEvent>)
    ensures |r| <= 1
    ensures r != [] <==> id in d.bindings && d.rightSkill != id
    ensures r != [] ==> r == [PressKeyBinding(d.bindings[id])]
  {
    if id in d.bindings && d.rightSkill != id then [PressKeyBinding(d.bindings[id])] else []
  }

  /** Once the game shows the skill on the right button, asking again presses nothing. */
  lemma SetSkillSettles(d: Snapshot, id: Skill)
    ensures SkillInput(d.(rightSkill := id), id) == []
  {
  }

  method SetSkill(ctx: Context, id: Skill)
    modifies ctx`lastStep, ctx`trace
    ensures ctx.lastStep == "SetSkill"
    ensures |ctx.trace| == |old(ctx.trace)| + |SkillInput(ctx.data, id)|
    ensures ctx.trace[..|old(ctx.trace)|] == old(ctx.trace)
    ensures forall i :: 0 <= i < |SkillInput(ctx.data, id)| ==>
              ctx.trace[|old(ctx.trace)| + i] == Input(SkillInput(ctx.data, id)[i])
  {
    ctx.lastStep := "SetSkill";
    if id in ctx.data.bindings {
      var kb := ctx.data.bindings[id];
      if ctx.data.rightSkill != id {
        ctx.PressKeyBinding(kb);
      }
    }
  }
}
