# FSM: a finite-state machine with one step of undo/redo

This project models the `FSM` class of `src/fsm.js`. The class is a small runtime for a finite-state
machine. It is built from a configuration: an `initial` state id and a `states` table, in which each
state has a `transitions` map from event id to destination state id. It keeps three mutable fields:

- `state`: the active state;
- `prev`: one step of undo history;
- `next`: one step of redo history.

The operations are `changeState`, `trigger`, `reset`, `undo`, `redo`, `clearHistory`, `getState` and
`getStates`.

The project has three modules:

- `FsmConfig` (`fsm_config.dfy`): the configuration, what the machine assumes of it
  (`WellFormed`), and the `getStates` filter with its properties.
- `FsmSteps` (`fsm_steps.dfy`): a pure model of each operation's effect on a `Snapshot` of the three
  fields. It states the machine invariant `Inv`: every field names a declared state. Each function's
  contract preserves `Inv` and says when the operation succeeds. The lemmas beside them relate
  several operations: undo/redo round trips, one-step history depth, `clearHistory`, `reset`.
- `Fsm` (`fsm.dfy`): the class `FSM`. Its fields are updated in place, as in the source, and
  `Valid()` is the object invariant. Each mutating method's postcondition equates the new fields
  with the matching `FsmSteps` function of the old fields. `GetStates` builds its result in a loop
  over the declared keys, as the source's `for...in` loop does. It is proved equal to the
  `Listed` specification.

Modelling decisions:

- **Thrown errors.** `changeState` and `trigger` throw an untyped `Error`. Here they return
  `Result<()>`, whose `Err` carries `UnknownState(target)` or `NoTransition(event)`. On failure the
  object is `unchanged`.
- **null and truthiness.** JavaScript `null` is `None`. The tests `if (this.prev)`,
  `if (this.next)` and `if (event)` are modelled literally by `Truthy`: `None` and `Some("")` are
  both falsy. So a state whose id is `""` cannot be undone back to (`EmptyStateIdIsNoHistory`). The
  round-trip lemmas therefore assume non-empty ids for the states involved.
- **Configuration.** The configuration is a value `Config(initial, keys, states)`. `keys` is the
  order in which the `states` object enumerates its keys. The source never validates the
  configuration. `WellFormed` is the caller's guarantee, required by the constructor: `keys` lists
  each declared state exactly once, `initial` is declared, and every transition target is declared.
  Under it, `state`, `prev` and `next` always name declared states.
- **History is not a three-mode machine.** One might expect the history to be a three-mode
  machine: none, undo-available, redo-available. The code does not behave that way. `changeState`
  and `trigger` leave a pending `next` in place. So after an undo followed by a change, undo and
  redo are both available (`UndoThenChangeEnablesBoth`). A redo then jumps to the undone state
  (`ChangeStateKeepsStaleRedo`). The model follows the code.
- **reset keeps history.** `reset` replaces only `state`. `prev` and `next` are kept, as in the code.

## Model

| member | source | states |
|---|---|---|
| `FsmConfig.StatesWithMembers` | src/fsm.js:65-70 | a key is in the filtered list iff it is in the key order and its transitions contain the event |
| `FsmConfig.StatesWithIsSubsequence` | src/fsm.js:65-70 | the filtered list keeps the key order: it is a subsequence of the keys |
| `FsmConfig.StatesWithDistinct` | src/fsm.js:65-70 | filtering distinct keys yields no state twice |
| `FsmConfig.ListedMembers` | src/fsm.js:62-74 | `getStates(event)` lists exactly the declared states, restricted to those with a transition for `event` when `event` is truthy |
| `FsmConfig.ListedInDeclarationOrder` | src/fsm.js:62-74 | `getStates` results are in declaration order and free of duplicates, with or without an event |
| `FsmSteps.Init` | src/fsm.js:6-13 | a new machine satisfies the invariant and has neither undo nor redo history |
| `FsmSteps.ChangeState` | src/fsm.js:27-34 | succeeds iff the target is declared; on success the invariant holds, the state is the target, `prev` is the old state and `next` is untouched; otherwise the error is `UnknownState` |
| `FsmSteps.Trigger` | src/fsm.js:40-47 | succeeds iff the current state's transitions contain the event; then it is exactly `changeState` to the mapped destination; otherwise the error is `NoTransition` |
| `FsmSteps.Reset` | src/fsm.js:52-54 | the state becomes `initial`, `prev` and `next` keep their values, and the invariant is kept |
| `FsmSteps.Undo` | src/fsm.js:81-90 | returns true iff `prev` is truthy; failure changes nothing; success moves to `prev`, makes the left state the redo target and clears `prev` |
| `FsmSteps.Redo` | src/fsm.js:97-106 | returns true iff `next` is truthy; failure changes nothing; success moves to `next`, makes the left state the undo target and clears `next` |
| `FsmSteps.ClearHistory` | src/fsm.js:111-114 | keeps the state and sets both `prev` and `next` to null |
| `FsmSteps.InitHasNoHistory` | src/fsm.js:6-13 | right after construction the state is `initial` and both `undo()` and `redo()` return false |
| `FsmSteps.UndoThenRedo` | src/fsm.js:81-106 | undo followed by redo restores the state and `prev`, and leaves no redo |
| `FsmSteps.RedoThenUndo` | src/fsm.js:81-106 | redo followed by undo restores the state and `next`, and leaves no undo |
| `FsmSteps.HistoryIsOneStepDeep` | src/fsm.js:81-106 | a second consecutive undo returns false, and so does a second consecutive redo |
| `FsmSteps.ChangeStateUndoRedo` | src/fsm.js:27-34 | after a change from A to B: undo returns true and gives A, redo returns true and gives B, a further redo returns false |
| `FsmSteps.TriggerUndoRedo` | src/fsm.js:40-47 | the same round trip after a triggered transition |
| `FsmSteps.ClearHistoryBlocksUndoRedo` | src/fsm.js:111-114 | after `clearHistory` the state is kept and both `undo()` and `redo()` return false |
| `FsmSteps.ResetKeepsHistory` | src/fsm.js:52-54 | `reset` is idempotent and does not change whether undo or redo is available |
| `FsmSteps.ChangeStateKeepsStaleRedo` | src/fsm.js:27-34 | a pending redo survives `changeState`, and redo then goes to the previously undone state |
| `FsmSteps.UndoThenChangeEnablesBoth` | src/fsm.js:27-34 | after an undo and a change, undo and redo are both available |
| `FsmSteps.EmptyStateIdIsNoHistory` | src/fsm.js:81-90 | leaving a state whose id is `""` records it in `prev`, yet `undo()` returns false |
| `Fsm.FSM.constructor` | src/fsm.js:6-13 | stores the configuration; state is `initial`, `prev` and `next` are null; the object invariant holds |
| `Fsm.FSM.GetState` | src/fsm.js:19-21 | returns the active state, which is always a declared state |
| `Fsm.FSM.ChangeState` | src/fsm.js:27-34 | succeeds iff the target is declared; the new fields are `FsmSteps.ChangeState` of the old ones; on failure the object is unchanged |
| `Fsm.FSM.Trigger` | src/fsm.js:40-47 | succeeds iff the current state has the event; the new fields are `FsmSteps.Trigger` of the old ones; on failure the object is unchanged |
| `Fsm.FSM.Reset` | src/fsm.js:52-54 | the new fields are `FsmSteps.Reset` of the old ones |
| `Fsm.FSM.GetStates` | src/fsm.js:62-74 | returns `Listed(config, event)`: exactly the matching declared states, in declaration order, without duplicates; no field changes |
| `Fsm.FSM.Undo` | src/fsm.js:81-90 | the result and the new fields are `FsmSteps.Undo` of the old fields |
| `Fsm.FSM.Redo` | src/fsm.js:97-106 | the result and the new fields are `FsmSteps.Redo` of the old fields |
| `Fsm.FSM.ClearHistory` | src/fsm.js:111-114 | the new fields are `FsmSteps.ClearHistory` of the old ones |
| `Fsm.IdleRunningScenario` | src/fsm.js:40-106 | a client of the class contracts on the idle/running machine: trigger("start"), undo, redo, then a missing event fails with `NoTransition` and the machine stays in "running" |

## Left out

- Falsy-configuration check (src/fsm.js:12): it fires only for a falsy non-object configuration (`0`, `""`, `false`, `NaN`), whose `initial` and `states` read as `undefined` at lines 8-9. For `null` or `undefined` a `TypeError` at line 8 comes first. The configuration here is a typed value, so neither path exists; its presence and well-formedness are the constructor's precondition.
- The duplicate `this.states` field (src/fsm.js:9) is `config.states`; the model keeps only `config`.
- The `statesArr` field (src/fsm.js:63) is scratch storage for a return value. `GetStates` returns a fresh sequence instead.
- Prototype semantics: `for...in` also visits inherited enumerable keys, and `hasOwnProperty` consults the own-property table only. The tables are plain finite maps with an explicit key order `keys`. The JavaScript rule that integer-like keys are enumerated first is folded into what `keys` is.
- Non-string arguments: `undefined` and other non-string values passed as a state or an event are not modelled. Ids are strings and the `getStates` argument is an `Option`.
- Error messages and exception propagation are replaced by the tagged `Result` value.
- `module.exports` (src/fsm.js:117) is packaging.
