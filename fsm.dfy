/**
 The FSM object: an immutable configuration and three fields updated in place.
 Each method's new state is tied to the matching function of FsmSteps.
 */
module Fsm {
  import opened FsmConfig
  import opened FsmSteps

  class FSM {
    const config: Config
    var state: StateId
    var prev: Option<StateId>
    var next: Option<StateId>

    /** The three mutable fields as one value. */
    function Current(): Snapshot
      reads this
    {
      Snapshot(state, prev, next)
    }

    ghost predicate Valid()
      reads this
    {
      Inv(config, Current())
    }

    constructor (config: Config)
      requires WellFormed(config)
      ensures Valid()
      ensures this.config == config && Current() == Init(config)
    {
      this.config := config;
      state := config.initial;
      prev := None;
      next := None;
    }

    /** The active state, always a declared one. */
    function GetState(): (s: StateId)
      reads this
      requires Valid()
      ensures s in config.states && s == Current().state
    {
      state
    }

    method ChangeState(s: StateId) returns (r: Result<()>)
      requires Valid()
      modifies this
      ensures Valid()
      ensures r.Ok? <==> s in config.states
      ensures var step := FsmSteps.ChangeState(config, old(Current()), s);
              if step.Ok? then r == Ok(()) && Current() == step.value
              else r == Err(step.error) && unchanged(this)
    {
      if s in config.states {
        prev := Some(state);
        state := s;
        r := Ok(());
      } else {
        r := Err(UnknownState(s));
      }
    }

    method Trigger(e: EventId) returns (r: Result<()>)
      requires Valid()
      modifies this
      ensures Valid()
      ensures r.Ok? <==> e in config.states[old(state)].transitions
      ensures var step := FsmSteps.Trigger(config, old(Current()), e);
              if step.Ok? then r == Ok(()) && Current() == step.value
              else r == Err(step.error) && unchanged(this)
    {
      if e in config.states[state].transitions {
        prev := Some(state);
        state := config.states[state].transitions[e];
        r := Ok(());
      } else {
        r := Err(NoTransition(e));
      }
    }

    method Reset()
      requires Valid()
      modifies this
      ensures Valid()
      ensures Current() == FsmSteps.Reset(config, old(Current()))
    {
      state := config.initial;
    }

    /** getStates: lists the declared states, filtered by `event` when it is truthy. */
    method GetStates(event: Option<EventId>) returns (r: seq<StateId>)
      requires Valid()
      ensures r == Listed(config, event)
      ensures forall x :: x in r <==>
                x in config.states && (Truthy(event) ==> event.value in config.states[x].transitions)
      ensures IsSubsequence(r, config.keys) && Distinct(r)
    {
      if Truthy(event) {
        r := [];
        var i := 0;
        while i < |config.keys|
          invariant 0 <= i <= |config.keys|
          invariant r == StatesWith(config.states, config.keys[..i], event.value)
        {
          var property := config.keys[i];
          assert config.keys[..i + 1][..i] == config.keys[..i];
          if event.value in config.states[property].transitions {
            r := r + [property];
          }
          i := i + 1;
        }
        assert config.keys[..i] == config.keys;
      } else {
        r := config.keys;
      }
      forall x ensures x in r <==>
               x in config.states && (Truthy(event) ==> event.value in config.states[x].transitions)
      {
        ListedMembers(config, event, x);
      }
      ListedInDeclarationOrder(config, event);
    }

    method Undo() returns (ok: bool)
      requires Valid()
      modifies this
      ensures Valid()
      ensures Moved(ok, Current()) == FsmSteps.Undo(config, old(Current()))
    {
      if Truthy(prev) {
        next := Some(state);
        state := prev.value;
        prev := None;
        ok := true;
      } else {
        ok := false;
      }
    }

    method Redo() returns (ok: bool)
      requires Valid()
      modifies this
      ensures Valid()
      ensures Moved(ok, Current()) == FsmSteps.Redo(config, old(Current()))
    {
      if Truthy(next) {
        prev := Some(state);
        state := next.value;
        next := None;
        ok := true;
      } else {
        ok := false;
      }
    }

    method ClearHistory()
      requires Valid()
      modifies this
      ensures Valid()
      ensures Current() == FsmSteps.ClearHistory(config, old(Current()))
    {
      prev := None;
      next := None;
    }
  }

  /**
   A client run on the two-state machine idle <-> running, using only the contracts
   above: trigger, undo, redo, then an event with no transition.
   */
  method IdleRunningScenario() returns (final: StateId)
    ensures final == "running"
  {
    var states := map[
      "idle" := StateDef(map["start" := "running"]),
      "running" := StateDef(map["stop" := "idle"])
    ];
    var c := Config("idle", ["idle", "running"], states);
    var fsm := new FSM(c);
    assert !Truthy(fsm.prev) && !Truthy(fsm.next);
    var t := fsm.Trigger("start");
    assert fsm.GetState() == "running";
    var u := fsm.Undo();
    assert u && fsm.GetState() == "idle";
    var v := fsm.Redo();
    assert v && fsm.GetState() == "running";
    var w := fsm.Trigger("nonexistent");
    assert w == Err(NoTransition("nonexistent"));
    final := fsm.GetState();
  }
}
