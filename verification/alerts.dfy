/**
 * The alert reducer of `client/src/reducers/alert.js`: the state is the
 * list of alerts on screen; `SET_ALERT` appends one and `REMOVE_ALERT`
 * removes those with a given id.
 */
module Alerts {
  import opened Wrappers

  datatype Alert = Alert(id: string, msg: string, alertType: string)

  /** An action's payload: absent, a new alert, or the id of alerts to remove. */
  datatype Payload = NoPayload | NewAlert(alert: Alert) | AlertId(id: string)

  /** A dispatched action; `actionType` is its `type` key, `None` standing for `undefined`. */
  datatype Action = Action(actionType: Option<string>, payload: Payload)

  /** The action type constants; actions/types.js is not part of this model. */
  const SET_ALERT := "SET_ALERT"
  const REMOVE_ALERT := "REMOVE_ALERT"

  const InitialState: seq<Alert> := []

  /** `state.filter(alert => alert.id !== id)`. */
  function Without(state: seq<Alert>, id: string): (r: seq<Alert>)
    ensures |r| <= |state|
    ensures forall a :: a in r ==> a in state && a.id != id
    ensures forall a :: a in state && a.id != id ==> a in r
  {
    if state == [] then []
    else if state[0].id != id then [state[0]] + Without(state[1..], id)
    else Without(state[1..], id)
  }

  /** Filtering distributes over concatenation, so the kept alerts stay in order. */
  lemma {:induction false} WithoutAppend(s: seq<Alert>, t: seq<Alert>, id: string)
    ensures Without(s + t, id) == Without(s, id) + Without(t, id)
    decreases |s|
  {
    if s == [] {
      assert s + t == t;
    } else {
      assert (s + t)[1..] == s[1..] + t;
      WithoutAppend(s[1..], t, id);
    }
  }

  /** Removing the same id twice is removing it once. */
  lemma {:induction false} WithoutIdempotent(state: seq<Alert>, id: string)
    ensures Without(Without(state, id), id) == Without(state, id)
    decreases |state|
  {
    if state != [] {
      WithoutIdempotent(state[1..], id);
      if state[0].id != id {
        assert ([state[0]] + Without(state[1..], id))[1..] == Without(state[1..], id);
      }
    }
  }

  /** An alert with a different id is never removed, and keeps its multiplicity. */
  lemma {:induction false} WithoutCounts(state: seq<Alert>, id: string, a: Alert)
    ensures multiset(Without(state, id))[a] == if a.id == id then 0 else multiset(state)[a]
    decreases |state|
  {
    if state != [] {
      WithoutCounts(state[1..], id, a);
      assert state == [state[0]] + state[1..];
    }
  }

  /**
   * The reducer's `switch` on a type and a payload. A `SET_ALERT` action
   * carries the alert to add (the action creator always sends one). A
   * `REMOVE_ALERT` whose payload is not an id matches no alert, since
   * `alert.id !== payload` then holds for every alert.
   */
  function Switch(state: seq<Alert>, actionType: Option<string>, payload: Payload): (r: seq<Alert>)
    requires actionType == Some(SET_ALERT) ==> payload.NewAlert?
    ensures actionType == Some(SET_ALERT) ==>
      |r| == |state| + 1 && r[..|state|] == state && r[|state|] == payload.alert
    ensures actionType == Some(REMOVE_ALERT) && payload.AlertId? ==> r == Without(state, payload.id)
    ensures actionType == Some(REMOVE_ALERT) && !payload.AlertId? ==> r == state
    ensures actionType == Some(REMOVE_ALERT) ==> |r| <= |state|
    ensures actionType != Some(SET_ALERT) && actionType != Some(REMOVE_ALERT) ==> r == state
  {
    if actionType == Some(SET_ALERT) then state + [payload.alert]
    else if actionType == Some(REMOVE_ALERT) then
      (if payload.AlertId? then Without(state, payload.id) else state)
    else state
  }

  /**
   * The exported reducer as written: the state defaults to the empty list,
   * but `type` and `payload` are destructured from the string `'action'`
   * rather than from the action, so both are undefined and every action
   * falls through to the default case.
   */
  function Reducer(state: Option<seq<Alert>>, action: Action): (r: seq<Alert>)
    ensures r == state.GetOr(InitialState)
  {
    Switch(state.GetOr(InitialState), None, NoPayload)
  }

  /** As written, an alert that is set never appears. */
  lemma SetAlertIsLost(a: Alert)
    ensures Reducer(Some([]), Action(Some(SET_ALERT), NewAlert(a))) == []
    ensures IntendedReducer(Some([]), Action(Some(SET_ALERT), NewAlert(a))) == [a]
  {
  }

  /** The reducer with `type` and `payload` taken from the action. */
  function IntendedReducer(state: Option<seq<Alert>>, action: Action): (r: seq<Alert>)
    requires action.actionType == Some(SET_ALERT) ==> action.payload.NewAlert?
    ensures var s := state.GetOr(InitialState);
      && (action.actionType == Some(SET_ALERT) ==> r == s + [action.payload.alert])
      && (action.actionType == Some(REMOVE_ALERT) && action.payload.AlertId? ==>
            r == Without(s, action.payload.id))
      && (action.actionType == Some(REMOVE_ALERT) && !action.payload.AlertId? ==> r == s)
      && (action.actionType != Some(SET_ALERT) && action.actionType != Some(REMOVE_ALERT) ==> r == s)
  {
    Switch(state.GetOr(InitialState), action.actionType, action.payload)
  }

  /** Adding an alert and then removing its id leaves the other alerts, in order. */
  lemma {:induction false} SetThenRemove(state: seq<Alert>, a: Alert)
    ensures var added := IntendedReducer(Some(state), Action(Some(SET_ALERT), NewAlert(a)));
      IntendedReducer(Some(added), Action(Some(REMOVE_ALERT), AlertId(a.id))) == Without(state, a.id)
  {
    WithoutAppend(state, [a], a.id);
    assert Without([a], a.id) == [];
  }

  /** Removing by id is idempotent through the reducer too. */
  lemma RemoveTwice(state: seq<Alert>, id: string)
    ensures var once := IntendedReducer(Some(state), Action(Some(REMOVE_ALERT), AlertId(id)));
      IntendedReducer(Some(once), Action(Some(REMOVE_ALERT), AlertId(id))) == once
  {
    WithoutIdempotent(state, id);
  }
}
