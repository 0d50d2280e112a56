/** When a node with finished dependencies runs, is skipped, or is blocked. */
module Triggers {
  import opened Model
  import opened Parameters

  /** `Raises` is the Python error of reading a condition parameter that the resolved tree lacks. */
  datatype Verdict = Fires | Skips(status: Status) | Raises

  predicate Covered(deps: seq<NodeId>, states: map<NodeId, Status>) {
    forall d | d in deps :: d in states
  }

  predicate Matches(kind: TriggerKind, deps: seq<NodeId>, states: map<NodeId, Status>)
    requires Covered(deps, states)
  {
    match kind
    case AllSuccess => forall d | d in deps :: Success(states[d])
    case AnySuccess => exists d | d in deps :: Success(states[d])
    case AllDone => true
    case AnyFailed => exists d | d in deps :: states[d].Failed? || states[d].TimedOut? || states[d].Blocked?
    case AnyTimedOut => exists d | d in deps :: states[d].TimedOut?
  }

  /** The prerequisite half of `trigger_status`, before any parameter is resolved. */
  function Prerequisite(node: NodeDef, states: map<NodeId, Status>): (v: Verdict)
    requires Covered(node.dependencies, states)
    ensures v.Skips? ==> v.status.Blocked? || v.status.SkippedCondition?
    ensures !v.Raises?
  {
    if Matches(node.trigger, node.dependencies, states) then Fires
    else if && (node.trigger.AllSuccess? || node.trigger.AnySuccess?)
            && exists d | d in node.dependencies :: Bad(states[d])
    then Skips(Blocked)
    else Skips(SkippedCondition)
  }

  /** `trigger_status` with the node's condition. */
  function TriggerStatus(node: NodeDef, states: map<NodeId, Status>, parameters: Json): (v: Verdict)
    requires Covered(node.dependencies, states)
    ensures v.Skips? ==> v.status.Blocked? || v.status.SkippedCondition?
  {
    if Prerequisite(node, states) != Fires then Prerequisite(node, states)
    else if node.condition.None? then Fires
    else
      match ConditionValue(parameters, node.condition.value.parameter)
      case None => Raises
      case Some(value) => if value != node.condition.value.equals then Skips(SkippedCondition) else Fires
  }
}
