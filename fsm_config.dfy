/**
 The immutable configuration of a finite-state machine: the initial state and the
 table of declared states, each with its event -> destination transitions, together
 with the query that lists declared states (getStates).
 */
module FsmConfig {

  type StateId = string
  type EventId = string

  datatype Option<+T> = None | Some(value: T)

  /** A JavaScript truthiness test on a string-or-null value: null and "" are falsy. */
  predicate Truthy(o: Option<string>) {
    o.Some? && o.value != ""
  }

  /** One entry of the `states` table. */
  datatype StateDef = StateDef(transitions: map<EventId, StateId>)

  /**
   `keys` is the order in which the `states` object enumerates its own keys
   (the order `Object.keys` and `for...in` visit them).
   */
  datatype Config = Config(initial: StateId, keys: seq<StateId>, states: map<StateId, StateDef>)

  predicate Distinct(s: seq<StateId>) {
    forall i, j :: 0 <= i < j < |s| ==> s[i] != s[j]
  }

  /**
   What the embedding application guarantees and the machine never checks: the key
   order lists each declared state once, the initial state is declared, and every
   transition leads to a declared state.
   */
  ghost predicate WellFormed(c: Config) {
    && Distinct(c.keys)
    && (forall k :: k in c.keys <==> k in c.states)
    && c.initial in c.states
    && (forall s, e :: s in c.states && e in c.states[s].transitions ==>
          c.states[s].transitions[e] in c.states)
  }

  /** State `s` is declared and has a transition for event `e`. */
  predicate HasTransition(states: map<StateId, StateDef>, s: StateId, e: EventId) {
    s in states && e in states[s].transitions
  }

  /** The states of `keys` that have a transition for `e`, keeping their order. */
  function StatesWith(states: map<StateId, StateDef>, keys: seq<StateId>, e: EventId): seq<StateId>
  {
    if keys == [] then []
    else
      var last := keys[|keys| - 1];
      StatesWith(states, keys[..|keys| - 1], e) + (if HasTransition(states, last, e) then [last] else [])
  }

  /** What getStates(event) returns: the filtered keys when `event` is truthy, else all keys. */
  function Listed(c: Config, event: Option<EventId>): seq<StateId>
  {
    if Truthy(event) then StatesWith(c.states, c.keys, event.value) else c.keys
  }

  /** `r` is obtained from `s` by deleting elements: same relative order, nothing new. */
  ghost predicate IsSubsequence(r: seq<StateId>, s: seq<StateId>)
    decreases |s|
  {
    if r == [] then true
    else if s == [] then false
    else
      (r[|r| - 1] == s[|s| - 1] && IsSubsequence(r[..|r| - 1], s[..|s| - 1]))
      || IsSubsequence(r, s[..|s| - 1])
  }

  lemma {:induction false} StatesWithMembers(states: map<StateId, StateDef>, keys: seq<StateId>, e: EventId, x: StateId)
    ensures x in StatesWith(states, keys, e) <==> x in keys && HasTransition(states, x, e)
    decreases |keys|
  {
    if keys != [] {
      var init := keys[..|keys| - 1];
      StatesWithMembers(states, init, e, x);
      assert keys == init + [keys[|keys| - 1]];
    }
  }

  lemma {:induction false} StatesWithIsSubsequence(states: map<StateId, StateDef>, keys: seq<StateId>, e: EventId)
    ensures IsSubsequence(StatesWith(states, keys, e), keys)
    decreases |keys|
  {
    if keys != [] {
      var init := keys[..|keys| - 1];
      var r := StatesWith(states, init, e);
      StatesWithIsSubsequence(states, init, e);
      if HasTransition(states, keys[|keys| - 1], e) {
        assert (r + [keys[|keys| - 1]])[..|r|] == r;
      } else {
        assert r + [] == r;
      }
    }
  }

  lemma {:induction false} StatesWithDistinct(states: map<StateId, StateDef>, keys: seq<StateId>, e: EventId)
    requires Distinct(keys)
    ensures Distinct(StatesWith(states, keys, e))
    decreases |keys|
  {
    if keys != [] {
      var init := keys[..|keys| - 1];
      var last := keys[|keys| - 1];
      assert Distinct(init) by {
        forall i, j | 0 <= i < j < |init| ensures init[i] != init[j] {
          assert init[i] == keys[i] && init[j] == keys[j];
        }
      }
      StatesWithDistinct(states, init, e);
      var r := StatesWith(states, init, e);
      if HasTransition(states, last, e) {
        StatesWithMembers(states, init, e, last);
        assert last !in init by {
          forall i | 0 <= i < |init| ensures init[i] != last {
            assert init[i] == keys[i];
          }
        }
        var r' := r + [last];
        forall i, j | 0 <= i < j < |r'| ensures r'[i] != r'[j] {
          if j < |r| {
            assert r'[i] == r[i] && r'[j] == r[j];
          } else {
            assert r'[i] == r[i] && r[i] in r;
          }
        }
      } else {
        assert r + [] == r;
      }
    }
  }

  /** getStates lists exactly the declared states (with the transition, for a truthy event). */
  lemma ListedMembers(c: Config, event: Option<EventId>, x: StateId)
    requires WellFormed(c)
    ensures x in Listed(c, event) <==>
              x in c.states && (Truthy(event) ==> event.value in c.states[x].transitions)
  {
    if Truthy(event) {
      StatesWithMembers(c.states, c.keys, event.value, x);
    }
  }

  /** getStates keeps declaration order and lists no state twice. */
  lemma ListedInDeclarationOrder(c: Config, event: Option<EventId>)
    requires WellFormed(c)
    ensures IsSubsequence(Listed(c, event), c.keys)
    ensures Distinct(Listed(c, event))
  {
    if Truthy(event) {
      StatesWithIsSubsequence(c.states, c.keys, event.value);
      StatesWithDistinct(c.states, c.keys, event.value);
    } else {
      SubsequenceOfItself(c.keys);
    }
  }

  lemma {:induction false} SubsequenceOfItself(s: seq<StateId>)
    ensures IsSubsequence(s, s)
    decreases |s|
  {
    if s != [] {
      SubsequenceOfItself(s[..|s| - 1]);
    }
  }
}
