/**
 * The plan screen: a local household size that starts at the plan's
 * portion size and can be stepped, an update button that asks for the plan
 * to be regenerated at the local size, a bookmark button, and the cooking
 * steps numbered from 1.
 */
module ResultView {
  import opened Types
  import opened Stepper

  /** The screen's local state: the household size the stepper shows. */
  datatype Panel = Panel(localSize: int)

  /** The screen as it mounts for a plan. */
  function Open(data: RecipeResponse): (p: Panel)
    ensures p.localSize == data.portionSize
    ensures !ShowUpdateButton(p, data)
  {
    Panel(data.portionSize)
  }

  /**
   * A new plan arrives. The effect depends on the portion size only, so the
   * local size is reset when the portion size changed and kept otherwise.
   */
  function Rerender(p: Panel, previous: RecipeResponse, data: RecipeResponse): (r: Panel)
    ensures previous.portionSize != data.portionSize ==> r.localSize == data.portionSize
    ensures previous.portionSize == data.portionSize ==> r == p
  {
    if previous.portionSize != data.portionSize then Panel(data.portionSize) else p
  }

  /**
   * After a new plan arrives, the update button shows exactly when the
   * portion size did not change and the button was already showing.
   */
  lemma RerenderButton(p: Panel, previous: RecipeResponse, data: RecipeResponse)
    ensures ShowUpdateButton(Rerender(p, previous, data), data) <==>
              previous.portionSize == data.portionSize && ShowUpdateButton(p, previous)
  {
  }

  function DecreaseSize(p: Panel): (r: Panel)
    ensures r.localSize >= MinSize && r.localSize >= p.localSize - 1
    ensures r.localSize == MinSize || r.localSize == p.localSize - 1
    ensures InRange(p.localSize) ==> InRange(r.localSize)
  {
    Panel(Decrement(p.localSize))
  }

  function IncreaseSize(p: Panel): (r: Panel)
    ensures r.localSize <= MaxSize && r.localSize <= p.localSize + 1
    ensures r.localSize == MaxSize || r.localSize == p.localSize + 1
    ensures InRange(p.localSize) ==> InRange(r.localSize)
  {
    Panel(Increment(p.localSize))
  }

  /** The update button is on screen exactly when the local size differs from the plan's. */
  predicate ShowUpdateButton(p: Panel, data: RecipeResponse)
  {
    p.localSize != data.portionSize
  }

  /** `handleUpdate`: asks for the local size when it differs from the plan's, and otherwise does nothing. */
  function Update(p: Panel, data: RecipeResponse): (r: Option<int>)
    ensures r.Some? <==> p.localSize != data.portionSize
    ensures r.Some? ==> r.value == p.localSize
  {
    if p.localSize != data.portionSize then Some(p.localSize) else None
  }

  /** Pressing the update button always does something: it is only shown when an update is due. */
  lemma UpdateButtonShownIffUpdates(p: Panel, data: RecipeResponse)
    ensures ShowUpdateButton(p, data) <==> Update(p, data).Some?
  {
  }

  /**
   * The bookmark button: the plan goes to the toggle handler unchanged,
   * when there is a handler.
   */
  function BookmarkClick(data: RecipeResponse, hasHandler: bool): (r: Option<RecipeResponse>)
    ensures r.Some? <==> hasHandler
    ensures r.Some? ==> r.value == data
  {
    if hasHandler then Some(data) else None
  }

  /** A cooking step with the number shown beside it. */
  datatype NumberedStep = NumberedStep(number: int, text: string)

  function NumberFrom(steps: seq<string>, first: int): (r: seq<NumberedStep>)
    ensures |r| == |steps|
    ensures forall i :: 0 <= i < |steps| ==> r[i] == NumberedStep(first + i, steps[i])
  {
    if |steps| == 0 then []
    else [NumberedStep(first, steps[0])] + NumberFrom(steps[1..], first + 1)
  }

  /** The cooking steps in order, labelled 1, 2, ... n. */
  function NumberSteps(steps: seq<string>): (r: seq<NumberedStep>)
    ensures |r| == |steps|
    ensures forall i :: 0 <= i < |steps| ==> r[i].number == i + 1 && r[i].text == steps[i]
  {
    NumberFrom(steps, 1)
  }

  /** The labels are consecutive: each is one more than the one before, the first is 1 and the last is n. */
  lemma LabelsConsecutive(steps: seq<string>)
    requires |steps| > 0
    ensures NumberSteps(steps)[0].number == 1
    ensures NumberSteps(steps)[|steps| - 1].number == |steps|
    ensures forall i :: 0 < i < |steps| ==> NumberSteps(steps)[i].number == NumberSteps(steps)[i - 1].number + 1
  {
  }

  /**
   * Starting from the plan's size, when that size is in range, every stepper
   * sequence keeps the local size in range, so an update never asks for a
   * size outside 1..20.
   */
  lemma UpdatedSizeInRange(data: RecipeResponse, presses: seq<Press>)
    requires InRange(data.portionSize)
    ensures var p := Panel(Presses(data.portionSize, presses));
            Update(p, data).Some? ==> InRange(Update(p, data).value)
  {
    PressesStayInRange(data.portionSize, presses);
  }
}
