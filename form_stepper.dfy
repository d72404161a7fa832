/**
 * A multi-step form: a list of steps, the index of the current one, the set
 * of completed step indices and a dictionary of per-step data. Next checks
 * the current step's validator, marks the step completed and moves on;
 * Previous and "go to" only move. Finish checks and completes the last
 * step and hands out a copy of the data.
 *
 * A step's validator is code the form only calls, so its verdict is a
 * parameter of the methods that consult it. The progress indicator keeps
 * its own copy of the titles and the current step. The form never passes
 * it the completed steps, so its completed set stays empty.
 */
module FormStepper {
  import opened Common

  /** A step: its title and description, and whether it has a validator. */
  datatype Step = Step(title: string, description: string, hasValidator: bool)

  /** The data stored for one step (a Python dictionary, with string values here). */
  type StepData = map<string, string>

  /** The navigation buttons: Previous enabled, and which of Next or Finish shows. */
  datatype Nav = Nav(prevEnabled: bool, nextVisible: bool, finishVisible: bool)

  /** `_update_navigation` for a non-empty form: Finish replaces Next on the last step. */
  function NavFor(current: nat, count: nat): (r: Nav)
    requires current < count
    ensures r.prevEnabled <==> current > 0
    ensures r.finishVisible <==> current + 1 == count
    ensures r.nextVisible != r.finishVisible
  {
    Nav(current > 0, current != count - 1, current == count - 1)
  }

  /**
   * `remove_step`'s adjustment: a current step that fell off the end moves
   * to the new last step, or to 0 when none is left; otherwise it stays.
   */
  function AfterRemoval(current: nat, count: nat): (r: nat)
    ensures count == 0 ==> r == 0
    ensures count > 0 ==> r < count
    ensures current < count ==> r == current
    ensures r <= current
  {
    if current >= count then (if count - 1 > 0 then count - 1 else 0) else current
  }

  /** Whether Next moves on: there is a later step, and a validator the step has accepts. */
  predicate NextAllowed(steps: seq<Step>, current: nat, validatorAccepts: bool)
    requires current < |steps| || current == 0
  {
    current + 1 < |steps| && (!steps[current].hasValidator || validatorAccepts)
  }

  /** The progress indicator above the form. */
  class StepProgressIndicator {
    var titles: seq<(string, string)>
    var current: int
    var completed: set<int>

    constructor ()
      ensures titles == [] && current == 0 && completed == {}
    {
      titles := [];
      current := 0;
      completed := {};
    }

    /** `add_step`. */
    method AddStep(title: string, description: string)
      modifies this`titles
      ensures titles == old(titles) + [(title, description)]
    {
      titles := titles + [(title, description)];
    }

    /** `remove_step`: only an index in range is removed. */
    method RemoveStep(index: int)
      modifies this`titles
      ensures titles == if 0 <= index < |old(titles)| then DeleteAt(old(titles), index) else old(titles)
    {
      if 0 <= index < |titles| {
        titles := DeleteAt(titles, index);
      }
    }

    /** `set_current_step`. */
    method SetCurrentStep(i: int)
      modifies this`current
      ensures current == i
    {
      current := i;
    }

    /** `set_completed_steps`. */
    method SetCompletedSteps(s: set<int>)
      modifies this`completed
      ensures completed == s
    {
      completed := s;
    }
  }

  class FormStepperWidget {
    var steps: seq<Step>
    var current: nat
    var completed: set<int>
    var data: map<int, StepData>
    var nav: Nav
    const progress: StepProgressIndicator

    /**
     * The current step is a real step (or 0 when there are none), the
     * buttons follow it whenever there are steps, and the indicator lists
     * the steps' titles with no completed step.
     */
    ghost predicate Valid()
      reads this, progress
    {
      ValidSteps() && (steps != [] ==> nav == NavFor(current, |steps|))
    }

    /** Everything `Valid` asks but the buttons. */
    ghost predicate ValidSteps()
      reads this, progress
    {
      && (current < |steps| || current == 0)
      && |progress.titles| == |steps|
      && (forall i :: 0 <= i < |steps| ==> progress.titles[i] == (steps[i].title, steps[i].description))
      && progress.completed == {}
    }

    constructor ()
      ensures Valid() && fresh(progress)
      ensures steps == [] && current == 0 && completed == {} && data == map[]
      ensures nav == Nav(false, true, false) && progress.current == 0
    {
      steps := [];
      current := 0;
      completed := {};
      data := map[];
      nav := Nav(false, true, false);
      progress := new StepProgressIndicator();
    }

    /** `_update_navigation`: nothing changes for an empty form. */
    method UpdateNavigation()
      requires current < |steps| || current == 0
      modifies this`nav
      ensures nav == if steps == [] then old(nav) else NavFor(current, |steps|)
    {
      if steps != [] {
        nav := NavFor(current, |steps|);
      }
    }

    /** `_update_current_step`: the indicator and buttons follow the current step, which is reported. */
    method UpdateCurrentStep() returns (changed: nat)
      requires ValidSteps()
      modifies this`nav, progress`current
      ensures Valid() && changed == current && progress.current == current
      ensures nav == if steps == [] then old(nav) else NavFor(current, |steps|)
    {
      progress.SetCurrentStep(current);
      UpdateNavigation();
      changed := current;
    }

    /** `_update_navigation` as evidently intended: an empty form offers neither Next nor Finish. */
    method UpdateNavigationIntended()
      requires current < |steps| || current == 0
      modifies this`nav
      ensures steps == [] ==> !nav.prevEnabled && !nav.nextVisible && !nav.finishVisible
      ensures steps != [] ==> nav == NavFor(current, |steps|)
    {
      if steps == [] {
        nav := Nav(false, false, false);
      } else {
        nav := NavFor(current, |steps|);
      }
    }

    /** `add_step`: the step is appended, to the indicator too, and the buttons follow. */
    method AddStep(title: string, description: string, hasValidator: bool)
      requires Valid()
      modifies this`steps, this`nav, progress`titles
      ensures Valid()
      ensures steps == old(steps) + [Step(title, description, hasValidator)]
      ensures nav == NavFor(current, |steps|)
    {
      steps := steps + [Step(title, description, hasValidator)];
      progress.AddStep(title, description);
      UpdateNavigation();
    }

    /**
     * `remove_step`: an index in range is removed from the form and the
     * indicator, the current step is pulled back when it fell off the end,
     * and the buttons follow. Completed indices are not renumbered.
     */
    method RemoveStep(index: int)
      requires Valid()
      modifies this`steps, this`current, this`nav, progress`titles
      ensures Valid()
      ensures 0 <= index < |old(steps)| ==>
                && steps == DeleteAt(old(steps), index)
                && current == AfterRemoval(old(current), |steps|)
                && nav == (if steps == [] then old(nav) else NavFor(current, |steps|))
      ensures !(0 <= index < |old(steps)|) ==>
                steps == old(steps) && current == old(current) && nav == old(nav)
    {
      if 0 <= index < |steps| {
        steps := DeleteAt(steps, index);
        progress.RemoveStep(index);
        current := AfterRemoval(current, |steps|);
        UpdateNavigation();
      }
    }

    /** `remove_step` with the intended navigation: once no step is left, Finish is no longer offered. */
    method RemoveStepIntended(index: int)
      requires Valid()
      modifies this`steps, this`current, this`nav, progress`titles
      ensures Valid()
      ensures 0 <= index < |old(steps)| ==>
                && steps == DeleteAt(old(steps), index)
                && current == AfterRemoval(old(current), |steps|)
                && nav == (if steps == [] then Nav(false, false, false) else NavFor(current, |steps|))
      ensures !(0 <= index < |old(steps)|) ==>
                steps == old(steps) && current == old(current) && nav == old(nav)
    {
      if 0 <= index < |steps| {
        steps := DeleteAt(steps, index);
        progress.RemoveStep(index);
        current := AfterRemoval(current, |steps|);
        UpdateNavigationIntended();
      }
    }

    /**
     * `next_step`: with a later step and an accepting (or absent)
     * validator, the current step is marked completed and reported, and the
     * next one becomes current and is reported; otherwise nothing changes.
     */
    method NextStep(validatorAccepts: bool) returns (stepCompleted: Option<nat>, changed: Option<nat>)
      requires Valid()
      modifies this`current, this`completed, this`nav, progress`current
      ensures Valid()
      ensures NextAllowed(old(steps), old(current), validatorAccepts) ==>
                && completed == old(completed) + {old(current)}
                && current == old(current) + 1
                && stepCompleted == Some(old(current)) && changed == Some(current)
                && nav == NavFor(current, |steps|)
      ensures !NextAllowed(old(steps), old(current), validatorAccepts) ==>
                && completed == old(completed) && current == old(current) && nav == old(nav)
                && stepCompleted == None && changed == None
    {
      stepCompleted, changed := None, None;
      if current + 1 < |steps| {
        if steps[current].hasValidator && !validatorAccepts {
          return;
        }
        completed := completed + {current};
        stepCompleted := Some(current);
        current := current + 1;
        var c := UpdateCurrentStep();
        changed := Some(c);
      }
    }

    /** `previous_step`: moves back one step, if there is one, and reports it; nothing is completed. */
    method PreviousStep() returns (changed: Option<nat>)
      requires Valid()
      modifies this`current, this`nav, progress`current
      ensures Valid() && completed == old(completed)
      ensures old(current) > 0 ==> current == old(current) - 1 && changed == Some(current) && nav == NavFor(current, |steps|)
      ensures old(current) == 0 ==> current == 0 && changed == None && nav == old(nav)
    {
      changed := None;
      if current > 0 {
        current := current - 1;
        var c := UpdateCurrentStep();
        changed := Some(c);
      }
    }

    /** `go_to_step`: jumps to an index in range, reporting it; nothing is completed. */
    method GoToStep(i: int) returns (changed: Option<nat>)
      requires Valid()
      modifies this`current, this`nav, progress`current
      ensures Valid() && completed == old(completed)
      ensures 0 <= i < |steps| ==> current == i && changed == Some(i) && nav == NavFor(current, |steps|)
      ensures !(0 <= i < |steps|) ==> current == old(current) && changed == None && nav == old(nav)
    {
      changed := None;
      if 0 <= i < |steps| {
        current := i;
        var c := UpdateCurrentStep();
        changed := Some(c);
      }
    }

    /**
     * `_finish_form`: unless the current step's validator rejects it, the
     * step is marked completed and reported, and a copy of all data is
     * handed out. On a form whose steps were all removed, the Finish button
     * can still be shown, and a click fails with IndexError on
     * `self._steps[0]`, changing nothing.
     */
    method FinishForm(validatorAccepts: bool) returns (stepCompleted: Option<nat>, formData: Option<map<int, StepData>>, indexError: bool)
      requires Valid()
      modifies this`completed
      ensures Valid()
      ensures indexError <==> steps == []
      ensures indexError ==> completed == old(completed) && stepCompleted == None && formData == None
      ensures !indexError ==> var accepted := !steps[current].hasValidator || validatorAccepts;
        && completed == (if accepted then old(completed) + {current} else old(completed))
        && stepCompleted == (if accepted then Some(current) else None)
        && formData == (if accepted then Some(data) else None)
    {
      indexError := steps == [];
      if indexError {
        return None, None, true;
      }
      if steps[current].hasValidator && !validatorAccepts {
        return None, None, false;
      }
      completed := completed + {current};
      stepCompleted := Some(current);
      formData := Some(data);
    }

    /** `set_step_data`. */
    method SetStepData(i: int, d: StepData)
      modifies this`data
      ensures data == old(data)[i := d]
    {
      data := data[i := d];
    }

    /** `get_step_data`: the stored data, or an empty dictionary. */
    method GetStepData(i: int) returns (d: StepData)
      ensures d == if i in data then data[i] else map[]
    {
      d := if i in data then data[i] else map[];
    }

    method GetAllData() returns (d: map<int, StepData>)
      ensures d == data
    {
      d := data;
    }

    method GetCurrentStep() returns (i: nat)
      ensures i == current
    {
      i := current;
    }

    method GetStepCount() returns (n: nat)
      ensures n == |steps|
    {
      n := |steps|;
    }

    method IsStepCompleted(i: int) returns (b: bool)
      ensures b <==> i in completed
    {
      b := i in completed;
    }

    /** `reset_form`: back to the first step with nothing completed and no data; the step is reported. */
    method ResetForm() returns (changed: nat)
      requires Valid()
      modifies this`current, this`completed, this`data, this`nav, progress`current
      ensures Valid()
      ensures current == 0 && completed == {} && data == map[] && changed == 0
      ensures nav == if steps == [] then old(nav) else NavFor(0, |steps|)
    {
      current := 0;
      completed := {};
      data := map[];
      changed := UpdateCurrentStep();
    }
  }

  /**
   * As written, removing the only step leaves the Finish button shown, and
   * clicking it fails with IndexError.
   */
  method EmptiedFormFinishFails() returns (finishShown: bool, indexError: bool)
    ensures finishShown && indexError
  {
    var f := new FormStepperWidget();
    f.AddStep("Account", "", false);
    f.RemoveStep(0);
    finishShown := f.nav.finishVisible;
    var stepCompleted, formData, e := f.FinishForm(true);
    indexError := e;
  }

  /** With the intended navigation, an emptied form no longer offers Finish. */
  method EmptiedFormNoFinishIntended() returns (finishShown: bool)
    ensures !finishShown
  {
    var f := new FormStepperWidget();
    f.AddStep("Account", "", false);
    f.RemoveStepIntended(0);
    finishShown := f.nav.finishVisible;
  }

  // ---------------------------------------------------------------------
  // the simple stepper

  /** The simple stepper's caption: "Step i of n: title", counting from one. */
  function StepCaption(titles: seq<string>, current: nat): string
    requires current < |titles|
  {
    "Step " + NatToStr(current + 1) + " of " + NatToStr(|titles|) + ": " + titles[current]
  }

  /** The caption tells the step: two steps of one stepper never share a caption. */
  lemma StepCaptionInjective(titles: seq<string>, c1: nat, c2: nat)
    requires c1 < |titles| && c2 < |titles|
    requires StepCaption(titles, c1) == StepCaption(titles, c2)
    ensures c1 == c2
  {
    var n1, n2 := NatToStr(c1 + 1), NatToStr(c2 + 1);
    var t1 := " of " + NatToStr(|titles|) + ": " + titles[c1];
    var t2 := " of " + NatToStr(|titles|) + ": " + titles[c2];
    CaptionParts(titles, c1);
    CaptionParts(titles, c2);
    assert n1 + t1 == StepCaption(titles, c1)[5..];
    assert n2 + t2 == StepCaption(titles, c2)[5..];
    SplitAtSpace(n1, t1, n2, t2);
    NatToStrInjective(c1 + 1, c2 + 1);
  }

  /** The caption is "Step ", a run of digits, and the rest starting with a space. */
  lemma CaptionParts(titles: seq<string>, c: nat)
    requires c < |titles|
    ensures StepCaption(titles, c) == "Step " + (NatToStr(c + 1) + (" of " + NatToStr(|titles|) + ": " + titles[c]))
    ensures ' ' !in NatToStr(c + 1)
  {
    var a := NatToStr(c + 1);
    assert forall k :: 0 <= k < |a| ==> IsDigit(a[k]);
  }

  class SimpleFormStepper {
    const titles: seq<string>
    var current: nat
    var progressValue: int
    var caption: string
    var prevEnabled: bool
    var nextEnabled: bool

    /** The step is one of the titles, and the bar, caption and buttons follow it. */
    ghost predicate Valid()
      reads this
    {
      && current < |titles|
      && progressValue == current
      && caption == StepCaption(titles, current)
    }

    /** The stepper needs at least one title: its caption shows the first. */
    constructor (steps: seq<string>)
      requires steps != []
      ensures Valid() && titles == steps && current == 0
      ensures !prevEnabled && nextEnabled
    {
      titles := steps;
      current := 0;
      progressValue := 0;
      caption := StepCaption(steps, 0);
      prevEnabled := false;
      nextEnabled := true;
    }

    /** `_update_ui`: bar, caption and buttons follow the step, which is reported. */
    method UpdateUi() returns (changed: nat)
      requires current < |titles|
      modifies this`progressValue, this`caption, this`prevEnabled, this`nextEnabled
      ensures Valid() && changed == current
      ensures prevEnabled == (current > 0) && nextEnabled == (current + 1 < |titles|)
    {
      progressValue := current;
      caption := StepCaption(titles, current);
      prevEnabled := current > 0;
      nextEnabled := current + 1 < |titles|;
      changed := current;
    }

    /** `next_step`: moves on unless on the last title. */
    method NextStep() returns (changed: Option<nat>)
      requires Valid()
      modifies this`current, this`progressValue, this`caption, this`prevEnabled, this`nextEnabled
      ensures Valid()
      ensures current == if old(current) + 1 < |titles| then old(current) + 1 else old(current)
      ensures changed == if old(current) + 1 < |titles| then Some(current) else None
      ensures changed.Some? ==> prevEnabled == (current > 0) && nextEnabled == (current + 1 < |titles|)
      ensures changed.None? ==> prevEnabled == old(prevEnabled) && nextEnabled == old(nextEnabled)
    {
      changed := None;
      if current + 1 < |titles| {
        current := current + 1;
        var c := UpdateUi();
        changed := Some(c);
      }
    }

    /** `previous_step`: moves back unless on the first title. */
    method PreviousStep() returns (changed: Option<nat>)
      requires Valid()
      modifies this`current, this`progressValue, this`caption, this`prevEnabled, this`nextEnabled
      ensures Valid()
      ensures current == if old(current) > 0 then old(current) - 1 else old(current)
      ensures changed == if old(current) > 0 then Some(current) else None
      ensures changed.Some? ==> prevEnabled == (current > 0) && nextEnabled == (current + 1 < |titles|)
      ensures changed.None? ==> prevEnabled == old(prevEnabled) && nextEnabled == old(nextEnabled)
    {
      changed := None;
      if current > 0 {
        current := current - 1;
        var c := UpdateUi();
        changed := Some(c);
      }
    }

    method GetCurrentStep() returns (i: nat)
      ensures i == current
    {
      i := current;
    }
  }
}
