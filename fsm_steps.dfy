/**
 The effect of each FSM operation on the three mutable fields (state, prev, next),
 written as functions on a snapshot of those fields, and the properties of the
 one-step undo/redo history that follow from them.
 */
module FsmSteps {
  import opened FsmConfig

  /** The machine's mutable fields; `None` stands for JavaScript's null. */
  datatype Snapshot = Snapshot(state: StateId, prev: Option<StateId>, next: Option<StateId>)

  /** The two errors the machine throws. */
  datatype Error =
    | UnknownState(target: StateId)   // changeState to an undeclared state
    | NoTransition(event: EventId)    // trigger with no transition from the current state

  datatype Result<+T> = Ok(value: T) | Err(error: Error)

  /** The boolean that undo/redo return, and the fields afterwards. */
  datatype Moved = Moved(ok: bool, after: Snapshot)

  /** The machine invariant: every field names a declared state. */
  ghost predicate Inv(c: Config, m: Snapshot) {
    && WellFormed(c)
    && m.state in c.states
    && (m.prev.Some? ==> m.prev.value in c.states)
    && (m.next.Some? ==> m.next.value in c.states)
  }

  predicate CanUndo(m: Snapshot) { Truthy(m.prev) }
  predicate CanRedo(m: Snapshot) { Truthy(m.next) }

  /** constructor: start in the initial state with no history. */
  function Init(c: Config): (m: Snapshot)
    requires WellFormed(c)
    ensures Inv(c, m)
    ensures !CanUndo(m) && !CanRedo(m)
  {
    Snapshot(c.initial, None, None)
  }

  /** changeState: move to a declared state, remembering the old one; `next` survives. */
  function ChangeState(c: Config, m: Snapshot, s: StateId): (r: Result<Snapshot>)
    requires Inv(c, m)
    ensures r.Ok? <==> s in c.states
    ensures r.Err? ==> r.error == UnknownState(s)
    ensures r.Ok? ==> Inv(c, r.value) && r.value.state == s
                      && r.value.prev == Some(m.state) && r.value.next == m.next
  {
    if s in c.states then Ok(Snapshot(s, Some(m.state), m.next))
    else Err(UnknownState(s))
  }

  /** trigger: follow the current state's transition for `e`. */
  function Trigger(c: Config, m: Snapshot, e: EventId): (r: Result<Snapshot>)
    requires Inv(c, m)
    ensures r.Ok? <==> e in c.states[m.state].transitions
    ensures r.Err? ==> r.error == NoTransition(e)
    ensures r.Ok? ==> Inv(c, r.value) && r == ChangeState(c, m, c.states[m.state].transitions[e])
  {
    var transitions := c.states[m.state].transitions;
    if e in transitions then Ok(Snapshot(transitions[e], Some(m.state), m.next))
    else Err(NoTransition(e))
  }

  /** reset: back to the initial state; the history fields are left as they are. */
  function Reset(c: Config, m: Snapshot): (r: Snapshot)
    requires Inv(c, m)
    ensures Inv(c, r)
    ensures r.state == c.initial && r.prev == m.prev && r.next == m.next
  {
    m.(state := c.initial)
  }

  /** undo: step back to `prev`, making the left state redoable. */
  function Undo(c: Config, m: Snapshot): (r: Moved)
    requires Inv(c, m)
    ensures Inv(c, r.after)
    ensures r.ok <==> CanUndo(m)
    ensures !r.ok ==> r.after == m
    ensures r.ok ==> r.after.state == m.prev.value && r.after.next == Some(m.state) && r.after.prev == None
  {
    if Truthy(m.prev) then Moved(true, Snapshot(m.prev.value, None, Some(m.state)))
    else Moved(false, m)
  }

  /** redo: step forward to `next`, making the left state undoable. */
  function Redo(c: Config, m: Snapshot): (r: Moved)
    requires Inv(c, m)
    ensures Inv(c, r.after)
    ensures r.ok <==> CanRedo(m)
    ensures !r.ok ==> r.after == m
    ensures r.ok ==> r.after.state == m.next.value && r.after.prev == Some(m.state) && r.after.next == None
  {
    if Truthy(m.next) then Moved(true, Snapshot(m.next.value, Some(m.state), None))
    else Moved(false, m)
  }

  /** clearHistory: forget both directions of history. */
  function ClearHistory(c: Config, m: Snapshot): (r: Snapshot)
    requires Inv(c, m)
    ensures Inv(c, r)
    ensures r.state == m.state && r.prev == None && r.next == None
  {
    m.(prev := None, next := None)
  }

  /** A fresh machine has nothing to undo or redo. */
  lemma InitHasNoHistory(c: Config)
    requires WellFormed(c)
    ensures Init(c).state == c.initial
    ensures !Undo(c, Init(c)).ok && !Redo(c, Init(c)).ok
  {
  }

  /** Undo followed by redo restores the state and the undo history (the redo slot is used up). */
  lemma UndoThenRedo(c: Config, m: Snapshot)
    requires Inv(c, m) && CanUndo(m) && m.state != ""
    ensures Undo(c, m).ok
    ensures Redo(c, Undo(c, m).after) == Moved(true, m.(next := None))
  {
  }

  /** Redo followed by undo restores the state and the redo history (the undo slot is used up). */
  lemma RedoThenUndo(c: Config, m: Snapshot)
    requires Inv(c, m) && CanRedo(m) && m.state != ""
    ensures Redo(c, m).ok
    ensures Undo(c, Redo(c, m).after) == Moved(true, m.(prev := None))
  {
  }

  /** History is one step deep: a second undo in a row fails, and so does a second redo. */
  lemma HistoryIsOneStepDeep(c: Config, m: Snapshot)
    requires Inv(c, m)
    ensures !Undo(c, Undo(c, m).after).ok
    ensures !Redo(c, Redo(c, m).after).ok
  {
  }

  /**
   After a successful change from A to B, undo returns true and gives A, redo returns
   true and gives B, and a further redo returns false.
   */
  lemma ChangeStateUndoRedo(c: Config, m: Snapshot, s: StateId)
    requires Inv(c, m) && s in c.states && m.state != "" && s != ""
    ensures ChangeState(c, m, s).Ok?
    ensures var b := ChangeState(c, m, s).value;
            var u := Undo(c, b);
            var r := Redo(c, u.after);
            && u.ok && u.after.state == m.state
            && r.ok && r.after.state == s
            && !Redo(c, r.after).ok
  {
  }

  /** The same round trip through a triggered transition. */
  lemma TriggerUndoRedo(c: Config, m: Snapshot, e: EventId)
    requires Inv(c, m) && e in c.states[m.state].transitions
    requires m.state != "" && c.states[m.state].transitions[e] != ""
    ensures Trigger(c, m, e).Ok?
    ensures var b := Trigger(c, m, e).value;
            var u := Undo(c, b);
            var r := Redo(c, u.after);
            && u.ok && u.after.state == m.state
            && r.ok && r.after.state == c.states[m.state].transitions[e]
            && !Redo(c, r.after).ok
  {
  }

  /** After clearHistory neither undo nor redo is available, and the state is kept. */
  lemma ClearHistoryBlocksUndoRedo(c: Config, m: Snapshot)
    requires Inv(c, m)
    ensures var h := ClearHistory(c, m);
            h.state == m.state && !Undo(c, h).ok && !Redo(c, h).ok
  {
  }

  /** reset is idempotent and does not touch the history. */
  lemma ResetKeepsHistory(c: Config, m: Snapshot)
    requires Inv(c, m)
    ensures Reset(c, Reset(c, m)) == Reset(c, m)
    ensures CanUndo(Reset(c, m)) == CanUndo(m) && CanRedo(Reset(c, m)) == CanRedo(m)
  {
  }

  /**
   changeState leaves a pending redo in place, so a following redo jumps to the state
   that was undone, not to anything related to the latest change.
   */
  lemma ChangeStateKeepsStaleRedo(c: Config, m: Snapshot, s: StateId)
    requires Inv(c, m) && s in c.states && CanRedo(m)
    ensures var b := ChangeState(c, m, s).value;
            Redo(c, b).ok && Redo(c, b).after.state == m.next.value
  {
  }

  /**
   The history is not a three-mode machine (none / undo / redo): after an undo, a change
   makes both undo and redo available at once.
   */
  lemma UndoThenChangeEnablesBoth(c: Config, m: Snapshot, s: StateId)
    requires Inv(c, m) && CanUndo(m) && m.state != "" && s in c.states
    ensures var b := ChangeState(c, Undo(c, m).after, s).value;
            CanUndo(b) && CanRedo(b)
  {
  }

  /** A state named "" is falsy: leaving it by a change leaves nothing to undo. */
  lemma EmptyStateIdIsNoHistory(c: Config, m: Snapshot, s: StateId)
    requires Inv(c, m) && m.state == "" && s in c.states
    ensures ChangeState(c, m, s).Ok?
    ensures ChangeState(c, m, s).value.prev == Some("")
    ensures !Undo(c, ChangeState(c, m, s).value).ok
  {
  }
}
