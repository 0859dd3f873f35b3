/** AutoGroq's `Current_Project` (AutoGroq/AutoGroq/configs/current_project.py):
    a list of deliverables, each with a done flag and one flag per
    implementation phase, and the project's current phase. */
module CurrentProject {
  import opened Base

  const Phases: seq<string> := ["Planning", "Development", "Testing", "Deployment"]

  /** One entry of `deliverables`: the dict {"text", "done", "phase"}. */
  datatype Deliverable = Deliverable(text: string, done: bool, phase: map<string, bool>)

  predicate AllSet(flags: map<string, bool>)
  {
    forall k :: k in flags ==> flags[k]
  }

  /** What every deliverable satisfies: each implementation phase has a
      flag, a flag for any other name is set (only `mark_deliverable_phase_done`
      adds one, and it adds it set), and a done deliverable has every flag set. */
  ghost predicate DeliverableOk(d: Deliverable)
  {
    && (forall p :: p in Phases ==> p in d.phase)
    && (forall k :: k in d.phase && k !in Phases ==> d.phase[k])
    && (d.done ==> AllSet(d.phase))
  }

  /** A new deliverable: not done, no phase done. */
  function NewDeliverable(text: string): (d: Deliverable)
    ensures DeliverableOk(d) && !d.done && d.text == text
    ensures d.phase.Keys == set p | p in Phases && forall p :: p in d.phase ==> !d.phase[p]
  {
    Deliverable(text, false, map p | p in Phases :: false)
  }

  /** `mark_deliverable_phase_done` on one deliverable: the phase's flag is
      set, and done is set when that leaves every flag set. */
  function MarkPhase(d: Deliverable, phase: string): (r: Deliverable)
    ensures r.text == d.text && r.phase == d.phase[phase := true]
    ensures AllSet(r.phase) ==> r.done
    ensures !AllSet(r.phase) ==> r.done == d.done
  {
    var flags := d.phase[phase := true];
    Deliverable(d.text, if AllSet(flags) then true else d.done, flags)
  }

  /** Marking keeps the invariant, and afterwards done holds exactly when
      every flag is set. */
  lemma {:induction false} MarkPhaseOk(d: Deliverable, phase: string)
    requires DeliverableOk(d)
    ensures DeliverableOk(MarkPhase(d, phase))
    ensures MarkPhase(d, phase).done <==> AllSet(MarkPhase(d, phase).phase)
  {
    var r := MarkPhase(d, phase);
    if d.done {
      forall k | k in r.phase
        ensures r.phase[k]
      {
      }
    }
  }

  /** Marking the phases `ps` in order. */
  function MarkPhases(d: Deliverable, ps: seq<string>): Deliverable
    decreases |ps|
  {
    if |ps| == 0 then d else MarkPhases(MarkPhase(d, ps[0]), ps[1..])
  }

  /** Marking keeps every flag already set, sets the marked ones, and
      leaves done whenever every flag is set. */
  lemma {:induction false} MarkPhasesSets(d: Deliverable, ps: seq<string>)
    requires |ps| > 0
    ensures var r := MarkPhases(d, ps);
      && (forall k :: k in d.phase && d.phase[k] ==> k in r.phase && r.phase[k])
      && (forall p :: p in ps ==> p in r.phase && r.phase[p])
      && (forall k :: k in r.phase ==> k in d.phase || k in ps)
      && (AllSet(r.phase) ==> r.done)
    decreases |ps|
  {
    if |ps| > 1 {
      MarkPhasesSets(MarkPhase(d, ps[0]), ps[1..]);
      assert forall p :: p in ps ==> p == ps[0] || p in ps[1..];
    }
  }

  /** Marking every implementation phase, in any order and with any
      repetition, completes a deliverable. */
  lemma {:induction false} MarkingEveryPhaseCompletes(d: Deliverable, ps: seq<string>)
    requires DeliverableOk(d)
    requires forall p :: p in Phases ==> p in ps
    ensures MarkPhases(d, ps).done
  {
    assert Phases[0] in ps;
    MarkPhasesSets(d, ps);
    var r := MarkPhases(d, ps);
    forall k | k in r.phase
      ensures r.phase[k]
    {
      if k !in ps && k !in Phases {
        assert k in d.phase && d.phase[k];
      }
    }
  }

  /** Phase k is the first implementation phase, in order, not done. */
  predicate FirstUnsetPhase(d: Deliverable, k: int)
  {
    && 0 <= k < |Phases|
    && Phases[k] in d.phase && !d.phase[Phases[k]]
    && forall j :: 0 <= j < k ==> Phases[j] in d.phase && d.phase[Phases[j]]
  }

  class Project {
    var deliverables: seq<Deliverable>
    var reEngineeredPrompt: string
    var currentPhase: string

    ghost predicate Valid()
      reads this
    {
      currentPhase in Phases && forall d :: d in deliverables ==> DeliverableOk(d)
    }

    predicate InRange(index: int)
      reads this
    {
      0 <= index < |deliverables|
    }

    constructor ()
      ensures Valid() && deliverables == [] && reEngineeredPrompt == "" && currentPhase == "Planning"
    {
      deliverables := [];
      reEngineeredPrompt := "";
      currentPhase := "Planning";
    }

    method AddDeliverable(text: string)
      requires Valid()
      modifies this
      ensures Valid()
      ensures deliverables == old(deliverables) + [NewDeliverable(text)]
      ensures reEngineeredPrompt == old(reEngineeredPrompt) && currentPhase == old(currentPhase)
    {
      deliverables := deliverables + [NewDeliverable(text)];
    }

    /** The first deliverable not done, with its text. */
    method NextUncheckedDeliverable() returns (r: Option<(nat, string)>)
      ensures r.None? <==> forall i :: 0 <= i < |deliverables| ==> deliverables[i].done
      ensures r.Some? ==>
        && r.value.0 < |deliverables|
        && !deliverables[r.value.0].done
        && r.value.1 == deliverables[r.value.0].text
        && forall i :: 0 <= i < r.value.0 ==> deliverables[i].done
    {
      var index := 0;
      while index < |deliverables|
        invariant index <= |deliverables|
        invariant forall i :: 0 <= i < index ==> deliverables[i].done
      {
        if !deliverables[index].done {
          return Some((index, deliverables[index].text));
        }
        index := index + 1;
      }
      return None;
    }

    /** `is_deliverable_complete`: every flag of an existing deliverable is set. */
    predicate IsDeliverableComplete(index: int)
      reads this
    {
      InRange(index) && AllSet(deliverables[index].phase)
    }

    /** The first implementation phase, in order, not done for the
        deliverable; none when the index is out of range or every phase
        is done, which is exactly when the deliverable is complete. */
    method NextUncompletedPhase(index: int) returns (r: Option<string>)
      requires Valid()
      ensures !InRange(index) ==> r.None?
      ensures InRange(index) ==> (r.None? <==> IsDeliverableComplete(index))
      ensures r.Some? ==> InRange(index)
      ensures r.Some? ==> exists k :: FirstUnsetPhase(deliverables[index], k) && r.value == Phases[k]
    {
      if 0 <= index < |deliverables| {
        var d := deliverables[index];
        assert d in deliverables;
        var k := 0;
        while k < |Phases|
          invariant k <= |Phases|
          invariant forall j :: 0 <= j < k ==> d.phase[Phases[j]]
        {
          if !d.phase[Phases[k]] {
            return Some(Phases[k]);
          }
          k := k + 1;
        }
        forall key | key in d.phase
          ensures d.phase[key]
        {
          if key in Phases {
            var j :| 0 <= j < |Phases| && Phases[j] == key;
          }
        }
      }
      return None;
    }

    method MarkDeliverablePhaseDone(index: int, phase: string)
      requires Valid()
      modifies this
      ensures Valid()
      ensures old(InRange(index)) ==> deliverables == old(deliverables)[index := MarkPhase(old(deliverables)[index], phase)]
      ensures !old(InRange(index)) ==> deliverables == old(deliverables)
      ensures reEngineeredPrompt == old(reEngineeredPrompt) && currentPhase == old(currentPhase)
    {
      if 0 <= index < |deliverables| {
        var d := deliverables[index];
        assert d in deliverables;
        MarkPhaseOk(d, phase);
        var flags := d.phase[phase := true];
        d := d.(phase := flags);
        if AllSet(flags) {
          d := d.(done := true);
        }
        deliverables := deliverables[index := d];
      }
    }

    /** Clears done and keeps the phase flags. */
    method MarkDeliverableUndone(index: int)
      requires Valid()
      modifies this
      ensures Valid()
      ensures old(InRange(index)) ==> deliverables == old(deliverables)[index := old(deliverables)[index].(done := false)]
      ensures !old(InRange(index)) ==> deliverables == old(deliverables)
      ensures reEngineeredPrompt == old(reEngineeredPrompt) && currentPhase == old(currentPhase)
    {
      if 0 <= index < |deliverables| {
        assert deliverables[index] in deliverables;
        deliverables := deliverables[index := deliverables[index].(done := false)];
      }
    }

    /** One step along the phase order; nothing at the last phase. */
    method MoveToNextPhase()
      requires Valid()
      modifies this
      ensures Valid()
      ensures forall k :: 0 <= k < |Phases| && old(currentPhase) == Phases[k] ==>
        currentPhase == Phases[if k < |Phases| - 1 then k + 1 else k]
      ensures deliverables == old(deliverables) && reEngineeredPrompt == old(reEngineeredPrompt)
    {
      var k := 0;
      while Phases[k] != currentPhase
        invariant 0 <= k < |Phases|
        invariant forall j :: 0 <= j < k ==> Phases[j] != currentPhase
        decreases |Phases| - k
      {
        k := k + 1;
      }
      if k < |Phases| - 1 {
        currentPhase := Phases[k + 1];
      }
    }

    method SetReEngineeredPrompt(prompt: string)
      modifies this
      ensures reEngineeredPrompt == prompt
      ensures deliverables == old(deliverables) && currentPhase == old(currentPhase)
    {
      reEngineeredPrompt := prompt;
    }
  }
}
