/**
 * The onboarding tour (frontend/src/Onboarding.js): a fixed table of eight
 * steps and the callback that moves the controlled step index as the tour
 * library reports events, asks the router to navigate, and forwards every
 * event to the outer callback.
 */
module Onboarding {
  import opened Wrappers

  /** The tour library's actions (`ACTIONS`); `Restart` is the name the callback tests. */
  datatype Action = Init | Start | Stop | Reset | Prev | Next | Go | Close | Skip | Update | Restart

  /** The tour library's event types (`EVENTS`). */
  datatype EventType =
    | TourStart | StepBefore | Beacon | Tooltip | StepAfter | TourEnd | TourStatus
    | TargetNotFound | Error

  /** The data the library passes to the callback; `status` is carried along unread. */
  datatype TourEvent = TourEvent(action: Action, index: int, status: string, eventType: EventType)

  /** A step of the table, without its rendered content. */
  datatype Step = Step(target: string, location: Option<string>, skipLocations: Option<seq<string>>)

  /** The `steps` table. */
  function Steps(): (s: seq<Step>)
    ensures |s| == 8
    ensures forall i :: 0 <= i < |s| ==> (s[i].skipLocations.Some? <==> i == 2)
    ensures s[2].skipLocations == Some(["/models"])
    ensures forall i :: 0 <= i < |s| ==> (s[i].location.None? <==> i == 1 || i == 2)
    ensures s[0].location == Some("/home")
    ensures s[3].location == Some("/models") && s[4].location == Some("/models")
    ensures forall i :: 5 <= i < |s| ==> s[i].location == Some("/models/base-models")
  {
    [ Step("body", Some("/home"), None),
      Step(".MuiToolbar-root", None, None),
      Step("a[href$='/models']", None, Some(["/models"])),
      Step("body", Some("/models"), None),
      Step("button[aria-label=\"Add item\"]", Some("/models"), None),
      Step("body", Some("/models/base-models"), None),
      Step(".base-model-card.id-1", Some("/models/base-models"), None),
      Step(".base-model-card.id-2", Some("/models/base-models"), None) ]
  }

  /** `steps[i]` is a step (and not `undefined`). */
  predicate InTable(i: int)
  {
    0 <= i < |Steps()|
  }

  /** The direction of travel: back on PREV, forward on anything else. */
  function Direction(action: Action): int
  {
    if action == Prev then -1 else 1
  }

  /** The step is to be skipped when the tour reaches it on one of its skip locations. */
  predicate Skips(step: Step, path: string)
  {
    step.skipLocations.Some? && path in step.skipLocations.value
  }

  /**
   * The callback fails (reads a property of `undefined`) on STEP_BEFORE when
   * the reported index is outside the table, or when that step has a location
   * and the current step index is outside the table.
   */
  predicate Throws(stepIndex: int, e: TourEvent)
  {
    e.eventType == StepBefore &&
    (!InTable(e.index) || (Steps()[e.index].location.Some? && !InTable(stepIndex)))
  }

  /**
   * The step index the callback leaves: of its writes, the last one made
   * wins, and with none the index is unchanged.
   */
  function NextStepIndex(stepIndex: int, e: TourEvent, path: string): int
  {
    if e.eventType == StepAfter || e.eventType == TargetNotFound then
      e.index + Direction(e.action)
    else if e.eventType == StepBefore && InTable(e.index) && Skips(Steps()[e.index], path) then
      e.index + Direction(e.action)
    else if e.action == Start || e.action == Restart then
      0
    else
      stepIndex
  }

  /** The navigations the callback asks for: the location of the step at the current index. */
  function NavigationsOf(stepIndex: int, e: TourEvent): seq<Option<string>>
  {
    if e.eventType == StepBefore && InTable(e.index) && Steps()[e.index].location.Some?
       && InTable(stepIndex)
    then [Steps()[stepIndex].location]
    else []
  }

  /** Only step 2 is ever skipped, and only on "/models", to step 1 or step 3. */
  lemma SkipsExactly(i: int, path: string)
    requires InTable(i)
    ensures Skips(Steps()[i], path) <==> i == 2 && path == "/models"
  {
  }

  /** STEP_BEFORE moves the index only at step 2 on "/models". */
  lemma StepBeforeMovesOnlyAtModels(stepIndex: int, e: TourEvent, path: string)
    requires e.eventType == StepBefore
    requires NextStepIndex(stepIndex, e, path) != (if e.action in {Start, Restart} then 0 else stepIndex)
    ensures e.index == 2 && path == "/models"
    ensures NextStepIndex(stepIndex, e, path) == 2 + Direction(e.action)
  {
    SkipsExactly(e.index, path);
  }

  /**
   * When the library reports the step the tour is on (it is driven by the
   * step index), the index ends at 0 or within one of the reported index.
   */
  lemma NextStepIndexNearReported(stepIndex: int, e: TourEvent, path: string)
    requires e.index == stepIndex
    ensures var r := NextStepIndex(stepIndex, e, path);
      r == 0 || e.index - 1 <= r <= e.index + 1
  {
  }

  /** There is no clamping: both ends of the table can be left. */
  lemma IndexLeavesTable(path: string, status: string)
    ensures NextStepIndex(0, TourEvent(Prev, 0, status, StepAfter), path) == -1
    ensures NextStepIndex(7, TourEvent(Next, 7, status, StepAfter), path) == |Steps()|
  {
  }

  /**
   * A navigation is asked for only on STEP_BEFORE for a step with a location,
   * and its target is the location of the step at the current index, which is
   * that step's own location when the library reports the current step.
   */
  lemma NavigationOnlyBeforeLocatedStep(stepIndex: int, e: TourEvent)
    ensures |NavigationsOf(stepIndex, e)| <= 1
    ensures NavigationsOf(stepIndex, e) != [] ==>
      e.eventType == StepBefore && Steps()[e.index].location.Some? &&
      NavigationsOf(stepIndex, e) == [Steps()[stepIndex].location]
    ensures e.index == stepIndex && e.eventType == StepBefore && InTable(e.index) ==>
      (NavigationsOf(stepIndex, e) != [] <==> e.index !in {1, 2})
  {
  }

  /** An event for the step the tour is on never makes the callback fail. */
  lemma ReportedStepNeverThrows(stepIndex: int, e: TourEvent)
    requires e.index == stepIndex && InTable(stepIndex)
    ensures !Throws(stepIndex, e)
  {
  }

  /** The component's state and what it has asked of the router and the outer callback. */
  class Tour {
    var stepIndex: int
    var navigations: seq<Option<string>>
    var forwarded: seq<TourEvent>

    constructor ()
      ensures stepIndex == 0 && navigations == [] && forwarded == []
    {
      stepIndex := 0;
      navigations := [];
      forwarded := [];
    }

    /**
     * internalCallback: a sequence of step-index writes, of which the last
     * wins, a navigation, and the forwarding of the event. `rendered` is the
     * step index the callback was created with; the writes do not change it.
     * On failure the writes made before it stand and nothing is forwarded.
     */
    method InternalCallback(data: TourEvent, locationName: string) returns (threw: bool)
      modifies this
      ensures threw == Throws(old(stepIndex), data)
      ensures stepIndex == NextStepIndex(old(stepIndex), data, locationName)
      ensures navigations == old(navigations) + NavigationsOf(old(stepIndex), data)
      ensures forwarded == if threw then old(forwarded) else old(forwarded) + [data]
    {
      var steps := Steps();
      var rendered := stepIndex;
      var action, index, eventType := data.action, data.index, data.eventType;
      if action == Start || action == Restart {
        stepIndex := 0;
      }
      if eventType == StepBefore {
        if !(0 <= index < |steps|) {
          return true;
        }
        var skipLocations := steps[index].skipLocations;
        if skipLocations.Some? && locationName in skipLocations.value {
          stepIndex := index + (if action == Prev then -1 else 1);
        }
        if steps[index].location.Some? {
          if !(0 <= rendered < |steps|) {
            return true;
          }
          navigations := navigations + [steps[rendered].location];
        }
      }
      if eventType == StepAfter || eventType == TargetNotFound {
        stepIndex := index + (if action == Prev then -1 else 1);
      }
      forwarded := forwarded + [data];
      return false;
    }
  }
}
