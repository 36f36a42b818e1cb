/** Conditions and phases on a RolloutManager's status. */
module Statuses {
  import opened GoTypes
  import opened RolloutManagers

  const CONDITION_KIND := "Reconciled"

  /** What a reconcile wants on the status; absent phases are left alone. */
  datatype StatusResult = StatusResult(condition: Condition, rolloutController: Option<Phase>, phase: Option<Phase>)

  function CreateCondition(message: Message, reasons: seq<Reason>): Condition {
    if message == NoMessage then Condition(CONDITION_KIND, Success, NoMessage, True, 0)
    else if |reasons| > 1 then Condition(CONDITION_KIND, ErrorOccurred, Message(Internal), True, 0)
    else if |reasons| == 1 then Condition(CONDITION_KIND, reasons[0], message, False, 0)
    else Condition(CONDITION_KIND, ErrorOccurred, message, False, 0)
  }

  function WrapCondition(c: Condition): StatusResult {
    StatusResult(c, None, None)
  }

  /** The first condition of a kind. */
  function IndexOf(conditions: seq<Condition>, kind: string): (r: Option<nat>)
    ensures r.Some? ==> r.value < |conditions| && conditions[r.value].kind == kind &&
                        forall j | 0 <= j < r.value :: conditions[j].kind != kind
    ensures r.None? ==> forall j | 0 <= j < |conditions| :: conditions[j].kind != kind
  {
    if conditions == [] then None
    else if conditions[0].kind == kind then Some(0)
    else
      var rest := IndexOf(conditions[1..], kind);
      if rest.None? then None else Some(rest.value + 1)
  }

  predicate SameContent(a: Condition, b: Condition) {
    a.message == b.message && a.reason == b.reason && a.status == b.status
  }

  /** The conditions after inserting or refreshing one. */
  function Inserted(c: Condition, existing: seq<Condition>, now: nat): seq<Condition> {
    match IndexOf(existing, c.kind)
    case None => existing + [c.(lastTransition := now)]
    case Some(i) => if SameContent(existing[i], c) then existing else existing[i := c.(lastTransition := now)]
  }

  method InsertOrUpdateConditions(newCondition: Condition, existing: seq<Condition>, now: nat)
    returns (changed: bool, conditions: seq<Condition>)
    ensures conditions == Inserted(newCondition, existing, now)
    ensures changed <==> !Holds(newCondition, existing)
  {
    var index := -1;
    conditions := existing;
    var i := 0;
    while i < |existing|
      invariant 0 <= i <= |existing|
      invariant forall j | 0 <= j < i :: existing[j].kind != newCondition.kind
    {
      if existing[i].kind == newCondition.kind {
        index := i;
        break;
      }
      i := i + 1;
    }
    changed := false;
    if index == -1 {
      conditions := conditions + [newCondition.(lastTransition := now)];
      changed := true;
    } else if conditions[index].message != newCondition.message ||
              conditions[index].reason != newCondition.reason ||
              conditions[index].status != newCondition.status
    {
      conditions := conditions[index := newCondition.(lastTransition := now)];
      changed := true;
    }
  }

  /** The content of the condition is already there. */
  predicate Holds(c: Condition, conditions: seq<Condition>) {
    IndexOf(conditions, c.kind).Some? && SameContent(conditions[IndexOf(conditions, c.kind).value], c)
  }

  ghost predicate UniqueKinds(conditions: seq<Condition>) {
    forall i, j | 0 <= i < j < |conditions| :: conditions[i].kind != conditions[j].kind
  }

  /** Insertion keeps kinds unique and every other entry in its place; a transition time
      moves only when message, reason or status does. */
  lemma InsertionKeepsOthers(c: Condition, existing: seq<Condition>, now: nat)
    requires UniqueKinds(existing)
    ensures UniqueKinds(Inserted(c, existing, now))
    ensures |existing| <= |Inserted(c, existing, now)| <= |existing| + 1
    ensures |Inserted(c, existing, now)| > |existing| <==> forall i | 0 <= i < |existing| :: existing[i].kind != c.kind
    ensures forall i | 0 <= i < |existing| :: Inserted(c, existing, now)[i].kind == existing[i].kind
    ensures forall i | 0 <= i < |existing| && existing[i].kind != c.kind :: Inserted(c, existing, now)[i] == existing[i]
    ensures forall i | 0 <= i < |existing| ::
              Inserted(c, existing, now)[i].lastTransition == existing[i].lastTransition ||
              (!SameContent(existing[i], c) && Inserted(c, existing, now)[i].lastTransition == now)
  {
  }

  lemma InsertedHolds(c: Condition, existing: seq<Condition>, now: nat)
    ensures Holds(c, Inserted(c, existing, now))
    ensures Holds(c, existing) ==> Inserted(c, existing, now) == existing
  {
    var after := Inserted(c, existing, now);
    var at := if IndexOf(existing, c.kind).None? then |existing| else IndexOf(existing, c.kind).value;
    assert after[at].kind == c.kind;
    assert forall j | 0 <= j < at :: after[j].kind == existing[j].kind;
  }

  /** The status written after a reconcile. */
  function NextStatus(s: Status, res: StatusResult, now: nat): Status {
    Status(res.rolloutController.GetOr(s.rolloutController), res.phase.GetOr(s.phase),
           Inserted(res.condition, s.conditions, now))
  }

  /** Nothing in the status would change. */
  predicate StatusSettled(s: Status, res: StatusResult) {
    Holds(res.condition, s.conditions) &&
    res.rolloutController.GetOr(s.rolloutController) == s.rolloutController &&
    res.phase.GetOr(s.phase) == s.phase
  }

  /** The status that comes after `s` when a reconcile wants `res`. */
  predicate Follows(after: Status, s: Status, res: StatusResult) {
    Holds(res.condition, after.conditions) &&
    after.rolloutController == res.rolloutController.GetOr(s.rolloutController) &&
    after.phase == res.phase.GetOr(s.phase)
  }

  lemma SettledStatusStays(s: Status, res: StatusResult, now: nat)
    ensures StatusSettled(s, res) ==> NextStatus(s, res, now) == s
    ensures Follows(NextStatus(s, res, now), s, res)
    ensures StatusSettled(s, res) ==> Follows(s, s, res)
  {
    InsertedHolds(res.condition, s.conditions, now);
  }
}
