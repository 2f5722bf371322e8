/**
 * The order-tracking page: how each of the four fixed tracking steps is shown for the
 * order's current status, the status badge colour, and which action buttons appear.
 */
module OrderTracking {

  /** The `status` of each entry of `trackingSteps`, in display order. */
  const TrackingSteps: seq<string> := ["confirmed", "preparing", "ready", "delivered"]

  /** `trackingSteps.findIndex(step => step.status === status)`: -1 when absent. */
  function StepIndex(status: string): (i: int)
    ensures -1 <= i < |TrackingSteps|
    ensures 0 <= i ==> TrackingSteps[i] == status
    ensures i == -1 <==> status !in TrackingSteps
  {
    if status == "confirmed" then 0
    else if status == "preparing" then 1
    else if status == "ready" then 2
    else if status == "delivered" then 3
    else -1
  }

  datatype StepState = Completed | Active | Pending

  /** `getStepStatus(stepStatus)` for an order whose status is `current`. */
  function StepStatus(stepStatus: string, current: string): (state: StepState)
    ensures state == Completed <==> StepIndex(stepStatus) <= StepIndex(current)
    ensures state == Active <==> StepIndex(stepStatus) == StepIndex(current) + 1
    ensures state == Pending <==> StepIndex(stepStatus) > StepIndex(current) + 1
  {
    var statusIndex := StepIndex(stepStatus);
    var currentIndex := StepIndex(current);
    if statusIndex <= currentIndex then Completed
    else if statusIndex == currentIndex + 1 then Active
    else Pending
  }

  /** The state shown for the `k`-th step. */
  function StateOfStep(k: nat, current: string): (r: StepState)
    requires k < |TrackingSteps|
  {
    StepStatus(TrackingSteps[k], current)
  }

  /** Step `k` is completed exactly when it is at or before the current status. */
  lemma CompletedIff(k: nat, current: string)
    requires k < |TrackingSteps|
    ensures StateOfStep(k, current) == Completed <==> k <= StepIndex(current)
  {
    assert StepIndex(TrackingSteps[k]) == k;
  }

  /** Step `k` is active exactly when it directly follows the current status; later ones are pending. */
  lemma ActiveAndPendingIff(k: nat, current: string)
    requires k < |TrackingSteps|
    ensures StateOfStep(k, current) == Active <==> k == StepIndex(current) + 1
    ensures StateOfStep(k, current) == Pending <==> k > StepIndex(current) + 1
  {
    assert StepIndex(TrackingSteps[k]) == k;
  }

  /** At most one step is active. */
  lemma AtMostOneActive(j: nat, k: nat, current: string)
    requires j < |TrackingSteps| && k < |TrackingSteps|
    requires StateOfStep(j, current) == Active && StateOfStep(k, current) == Active
    ensures j == k
  {
    ActiveAndPendingIff(j, current);
    ActiveAndPendingIff(k, current);
  }

  /** The completed steps form a prefix: a step before a completed step is completed. */
  lemma CompletedPrefix(j: nat, k: nat, current: string)
    requires j <= k < |TrackingSteps|
    requires StateOfStep(k, current) == Completed
    ensures StateOfStep(j, current) == Completed
  {
    CompletedIff(j, current);
    CompletedIff(k, current);
  }

  /** "delivered": all four steps completed, none active. */
  lemma DeliveredCompletesAll(k: nat)
    requires k < |TrackingSteps|
    ensures StateOfStep(k, "delivered") == Completed
  {
    CompletedIff(k, "delivered");
  }

  /** An unrecognised status (index -1): the first step is active and the rest pending. */
  lemma UnknownStatusStartsAtFirst(k: nat, current: string)
    requires k < |TrackingSteps|
    requires current !in TrackingSteps
    ensures StateOfStep(k, current) == if k == 0 then Active else Pending
  {
    ActiveAndPendingIff(k, current);
  }

  /** A step status outside the table has index -1, which is never after the current one: always shown completed. */
  lemma UnknownStepShowsCompleted(stepStatus: string, current: string)
    requires stepStatus !in TrackingSteps
    ensures StepStatus(stepStatus, current) == Completed
  {
  }

  const DefaultColor: string := "bg-muted/10 text-muted-foreground"

  /** `getStatusColor`: the muted default exactly for a status outside the step table. */
  function StatusColor(status: string): (color: string)
    ensures color == DefaultColor <==> status !in TrackingSteps
  {
    match status
    case "confirmed" => "bg-primary/10 text-primary"
    case "preparing" => "bg-warning/10 text-warning"
    case "ready" => "bg-accent/10 text-accent"
    case "delivered" => "bg-success/10 text-success"
    case _ => "bg-muted/10 text-muted-foreground"
  }

  /** The four statuses get four different classes, none the muted default; any other value gets the default. */
  lemma StatusColorsDistinct(a: string, b: string)
    requires a in TrackingSteps && b in TrackingSteps && a != b
    ensures StatusColor(a) != StatusColor(b)
    ensures StatusColor(a) != DefaultColor
  {
  }

  lemma StatusColorDefault(status: string)
    requires status !in TrackingSteps
    ensures StatusColor(status) == DefaultColor
  {
  }

  /** "Rate & Review Supplier" and "Reorder Items" appear for a delivered order only. */
  predicate ShowsReviewAndReorder(status: string)
  {
    status == "delivered"
  }

  /** "Confirm Pickup" appears for an order ready for pickup only. */
  predicate ShowsConfirmPickup(status: string)
  {
    status == "ready"
  }

  /**
   * The action buttons follow the progress display: pickup is offered while the last step
   * is the active one, review once every step is completed, and never both.
   */
  lemma ButtonsFollowProgress(status: string)
    ensures !(ShowsReviewAndReorder(status) && ShowsConfirmPickup(status))
    ensures ShowsConfirmPickup(status) <==> StateOfStep(3, status) == Active
    ensures ShowsReviewAndReorder(status) <==> StateOfStep(3, status) == Completed
  {
    ActiveAndPendingIff(3, status);
    CompletedIff(3, status);
  }
}
