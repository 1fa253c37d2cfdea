/**
 * The post-save scrap propagation rule: once a saved request is in the Scrap
 * stage, its equipment is marked scrapped. The hook is called explicitly
 * after each save of a request instead of through signal dispatch.
 */
module Signals {
  import opened Wrappers
  import opened Models

  /** What a hook that returned normally left behind. */
  datatype Effect = Effect(equipment: Option<EquipmentRow>, saved: bool)

  /**
   * A hook either returns, or raises AttributeError because it read
   * `is_scrapped` off a request whose equipment is null.
   */
  datatype HookOutcome = Returned(effect: Effect) | AttributeError

  /** The scrap rule on values: the stage of the saved request and its equipment row. */
  function ScrapRule(stage: Stage, equipment: Option<EquipmentRow>): (r: HookOutcome)
    ensures r.AttributeError? <==> stage == Scrap && equipment.None?
    ensures r.Returned? ==> (r.effect.equipment.Some? <==> equipment.Some?)
    ensures r.Returned? && equipment.Some? ==>
      r.effect.equipment.value == equipment.value.(isScrapped := equipment.value.isScrapped || stage == Scrap)
    ensures r.Returned? ==> (r.effect.saved <==> stage == Scrap && equipment.Some? && !equipment.value.isScrapped)
  {
    if stage != Scrap then Returned(Effect(equipment, false))
    else match equipment
      case None => AttributeError
      case Some(row) =>
        if row.isScrapped then Returned(Effect(equipment, false))
        else Returned(Effect(Some(row.(isScrapped := true)), true))
  }

  /** Running the rule a second time on its own result changes and writes nothing. */
  lemma ScrapRuleIdempotent(stage: Stage, equipment: Option<EquipmentRow>)
    requires ScrapRule(stage, equipment).Returned?
    ensures var after := ScrapRule(stage, equipment).effect.equipment;
      ScrapRule(stage, after) == Returned(Effect(after, false))
  {
  }

  /**
   * The equipment was written exactly once by a hook that reports a save,
   * and not at all by one that does not.
   */
  twostate predicate WrittenAsReported(equipment: Option<Equipment>, outcome: HookOutcome)
    reads Targets(equipment)
  {
    equipment.Some? && outcome.Returned? ==>
      var e := equipment.value;
      if outcome.effect.saved then e.stored == Some(e.Row()) && e.saves == old(e.saves) + 1
      else e.stored == old(e.stored) && e.saves == old(e.saves)
  }

  /** `check_scrap_condition`, called after every save of `instance`, whether created or updated. */
  method CheckScrapCondition(instance: MaintenanceRequest, created: bool) returns (outcome: HookOutcome)
    modifies Targets(instance.equipment)
    ensures outcome == ScrapRule(instance.stage, old(RowOf(instance.equipment)))
    ensures outcome.Returned? ==> RowOf(instance.equipment) == outcome.effect.equipment
    ensures WrittenAsReported(instance.equipment, outcome)
  {
    if instance.stage == Scrap {
      match instance.equipment
      case None =>
        outcome := AttributeError;
      case Some(equipment) =>
        if !equipment.isScrapped {
          equipment.isScrapped := true;
          equipment.Save();
          outcome := Returned(Effect(Some(equipment.Row()), true));
        } else {
          outcome := Returned(Effect(Some(equipment.Row()), false));
        }
    } else {
      outcome := Returned(Effect(RowOf(instance.equipment), false));
    }
  }

  /**
   * The equipment object holds exactly its stored row, as one freshly
   * loaded from the database does.
   */
  predicate InSync(equipment: Option<Equipment>)
    reads Targets(equipment)
  {
    equipment.Some? ==> equipment.value.stored == Some(equipment.value.Row())
  }

  /**
   * `update_request_stage` without its HTTP and JSON handling: assign any
   * stage, save the request, run the hook. No form validation takes place.
   * The endpoint loads the request, and through it the equipment, from the
   * database, so the equipment object starts in sync with its stored row.
   */
  method UpdateRequestStage(req: MaintenanceRequest, newStage: Stage) returns (saved: MaintenanceRequest, outcome: HookOutcome)
    requires InSync(req.equipment)
    modifies Targets(req.equipment)
    ensures InSync(req.equipment)
    ensures saved == req.(stage := newStage)
    ensures outcome == ScrapRule(newStage, old(RowOf(req.equipment)))
    ensures outcome.Returned? ==> RowOf(req.equipment) == outcome.effect.equipment
    ensures WrittenAsReported(req.equipment, outcome)
  {
    saved := req.(stage := newStage);
    outcome := CheckScrapCondition(saved, false);
  }

  // ---------------------------------------------------------------------------
  // Any sequence of stage updates on one request.
  // ---------------------------------------------------------------------------

  /**
   * The equipment after a run of updates, how many times it was written,
   * and how many of the hooks raised.
   */
  datatype History = History(equipment: Option<EquipmentRow>, saves: nat, failures: nat)

  /**
   * The updates `stages`, applied in order to one request whose equipment
   * is `equipment`. A hook that raises fails that one update; the next one
   * goes ahead on the unchanged equipment.
   *
   * Scrapping is monotone and written at most once: the equipment ends up
   * scrapped exactly when it was already scrapped or some update was to
   * Scrap, nothing else about it changes, and it is written once if it
   * became scrapped during the run and never otherwise. Without equipment,
   * every update to Scrap fails.
   */
  function RunStageUpdates(stages: seq<Stage>, equipment: Option<EquipmentRow>): (h: History)
    decreases |stages|
    ensures h.equipment.Some? <==> equipment.Some?
    ensures equipment.Some? ==>
      h.equipment.value == equipment.value.(isScrapped := equipment.value.isScrapped || Scrap in stages)
    ensures h.saves == if equipment.Some? && !equipment.value.isScrapped && Scrap in stages then 1 else 0
    ensures h.failures == if equipment.None? then multiset(stages)[Scrap] else 0
  {
    if stages == [] then History(equipment, 0, 0)
    else
      assert stages == [stages[0]] + stages[1..];
      match ScrapRule(stages[0], equipment)
      case AttributeError =>
        var rest := RunStageUpdates(stages[1..], equipment);
        rest.(failures := rest.failures + 1)
      case Returned(effect) =>
        var rest := RunStageUpdates(stages[1..], effect.equipment);
        rest.(saves := rest.saves + if effect.saved then 1 else 0)
  }

  /**
   * The updates `stages`, sent one after another to `update_request_stage`
   * for the same request. The equipment ends as `RunStageUpdates` says and is
   * written as often as it counts.
   */
  method ApplyStageUpdates(req: MaintenanceRequest, stages: seq<Stage>) returns (last: MaintenanceRequest)
    requires InSync(req.equipment)
    modifies Targets(req.equipment)
    ensures InSync(req.equipment)
    ensures RowOf(req.equipment) == RunStageUpdates(stages, old(RowOf(req.equipment))).equipment
    ensures req.equipment.Some? ==>
      req.equipment.value.saves == old(req.equipment.value.saves) + RunStageUpdates(stages, old(RowOf(req.equipment))).saves
    ensures last == if stages == [] then req else req.(stage := stages[|stages| - 1])
  {
    last := req;
    var i := 0;
    while i < |stages|
      invariant 0 <= i <= |stages|
      invariant last.equipment == req.equipment
      invariant InSync(req.equipment)
      invariant last == if i == 0 then req else req.(stage := stages[i - 1])
      invariant RowOf(req.equipment) == RunStageUpdates(stages[..i], old(RowOf(req.equipment))).equipment
      invariant req.equipment.Some? ==>
        req.equipment.value.saves == old(req.equipment.value.saves) + RunStageUpdates(stages[..i], old(RowOf(req.equipment))).saves
    {
      assert Scrap in stages[..i + 1] <==> Scrap in stages[..i] || stages[i] == Scrap by {
        assert stages[..i + 1] == stages[..i] + [stages[i]];
      }
      var outcome;
      last, outcome := UpdateRequestStage(last, stages[i]);
      i := i + 1;
    }
    assert stages[..i] == stages;
  }

  /** Once an update to Scrap has run, later updates neither unscrap nor write the equipment. */
  lemma ScrapIsPermanent(before: seq<Stage>, after: seq<Stage>, equipment: EquipmentRow)
    requires Scrap in before
    ensures var mid := RunStageUpdates(before, Some(equipment)).equipment;
      && mid.value.isScrapped
      && RunStageUpdates(after, mid) == History(mid, 0, 0)
  {
  }

  /**
   * A request on an equipment moved to Scrap and then to Repaired: the
   * equipment is scrapped by the first update, written once, and stays
   * scrapped. The same update on a request with only a work center raises.
   */
  method ScrapThenRepair()
  {
    var press := new Equipment("Press", "SN-001", "Production", "Hall A");
    press.Save();
    var leak := NewRequest("Hydraulic leak", Some(press), None, 1);
    assert Clean(leak) == Accepted;

    var scrapped, outcome := UpdateRequestStage(leak, Scrap);
    assert press.isScrapped && press.saves == 2 && press.stored.value.isScrapped;

    var repaired, again := UpdateRequestStage(scrapped, Repaired);
    assert repaired.stage == Repaired;
    assert press.isScrapped && press.saves == 2 && press.stored.value.isScrapped;

    var line := NewRequest("Line audit", None, Some(WorkCenter("Assembly", "WC-1")), 1);
    assert Clean(line) == Accepted;
    var _, failed := UpdateRequestStage(line, Scrap);
    assert failed == AttributeError;
  }
}
