/** AuthModalService: whether the login/register dialog is open, and in
    which mode. The service's BehaviorSubject is modelled by the list of
    values it has emitted; its current value is the last of them. */
module AuthModal {
  import opened Wrappers
  import opened Text

  datatype Mode = Login | Register

  datatype ModalState = ModalState(open: bool, mode: Mode)

  const InitialState := ModalState(false, Login)

  /** The three public operations. */
  datatype Action = OpenLogin | OpenRegister | Close

  /** The value an action passes to `next`, if it calls it at all. */
  function Emission(current: ModalState, action: Action): (e: Option<ModalState>)
    ensures action == OpenLogin ==> e == Some(ModalState(true, Login))
    ensures action == OpenRegister ==> e == Some(ModalState(true, Register))
    ensures action == Close && current.open ==> e == Some(ModalState(false, current.mode))
    ensures action == Close && !current.open ==> e == None
  {
    match action
    case OpenLogin => Some(ModalState(true, Login))
    case OpenRegister => Some(ModalState(true, Register))
    case Close => if current.open then Some(current.(open := false)) else None
  }

  /** The current value after the action. */
  function Apply(current: ModalState, action: Action): ModalState
  {
    OrElse(Emission(current, action), current)
  }

  /** The values emitted by a run of actions, in order. */
  function Emissions(current: ModalState, actions: seq<Action>): seq<ModalState>
    decreases |actions|
  {
    if actions == [] then []
    else
      var e := Emission(current, actions[0]);
      (if e.Some? then [e.value] else []) + Emissions(Apply(current, actions[0]), actions[1..])
  }

  /** The current value after a run of actions. */
  function Run(current: ModalState, actions: seq<Action>): ModalState
    decreases |actions|
  {
    if actions == [] then current else Run(Apply(current, actions[0]), actions[1..])
  }

  /** Closing twice is closing once, and the second close emits nothing. */
  lemma CloseIdempotent(s: ModalState)
    ensures Apply(Apply(s, Close), Close) == Apply(s, Close)
    ensures Emission(Apply(s, Close), Close) == None
    ensures Apply(s, Close) == ModalState(false, s.mode)
  {
  }

  /** A run without an open leaves the mode alone. */
  lemma {:induction false} OnlyOpeningChangesMode(s: ModalState, actions: seq<Action>)
    requires forall i :: 0 <= i < |actions| ==> actions[i] == Close
    ensures Run(s, actions).mode == s.mode
    ensures Run(s, actions).open ==> s.open
    decreases |actions|
  {
    if actions != [] {
      OnlyOpeningChangesMode(Apply(s, Close), actions[1..]);
    }
  }

  /** After a run, the current value is the last one emitted, or the one
      the run started from if nothing was emitted. */
  lemma {:induction false} RunIsLastEmission(s: ModalState, actions: seq<Action>)
    ensures Emissions(s, actions) == [] ==> Run(s, actions) == s
    ensures Emissions(s, actions) != [] ==> Run(s, actions) == Emissions(s, actions)[|Emissions(s, actions)| - 1]
    decreases |actions|
  {
    if actions != [] {
      RunIsLastEmission(Apply(s, actions[0]), actions[1..]);
    }
  }

  /** A subscriber never sees the dialog closed twice in a row: every
      closed value after the first follows an open one. */
  lemma {:induction false} NoRepeatedClose(s: ModalState, actions: seq<Action>)
    ensures var seen := [s] + Emissions(s, actions);
      forall i :: 0 < i < |seen| && !seen[i].open ==> seen[i - 1].open
    decreases |actions|
  {
    if actions != [] {
      var next := Apply(s, actions[0]);
      var e := Emission(s, actions[0]);
      NoRepeatedClose(next, actions[1..]);
      var rest := [next] + Emissions(next, actions[1..]);
      var seen := [s] + Emissions(s, actions);
      if e.Some? {
        assert next == e.value;
        assert !next.open ==> s.open;
        assert Emissions(s, actions) == [e.value] + Emissions(next, actions[1..]);
        assert seen == [s] + rest;
        forall i | 0 < i < |seen| && !seen[i].open
          ensures seen[i - 1].open
        {
          if i > 1 {
            assert seen[i] == rest[i - 1] && seen[i - 1] == rest[i - 2];
          }
        }
      } else {
        assert next == s;
        assert Emissions(s, actions) == Emissions(next, actions[1..]);
        assert seen == rest;
      }
    }
  }

  class AuthModalService {
    /** Every value the subject has held, the initial one first. */
    var emitted: seq<ModalState>

    ghost predicate Valid()
      reads this
    {
      emitted != []
    }

    /** `stateSubject.value`. */
    function Current(): ModalState
      reads this
      requires Valid()
    {
      emitted[|emitted| - 1]
    }

    constructor ()
      ensures Valid() && emitted == [InitialState]
      ensures Current() == InitialState
    {
      emitted := [InitialState];
    }

    method OpenLoginModal()
      requires Valid()
      modifies this
      ensures Valid() && emitted == old(emitted) + [ModalState(true, Login)]
      ensures Current() == Apply(old(Current()), OpenLogin)
    {
      emitted := emitted + [ModalState(true, Login)];
    }

    method OpenRegisterModal()
      requires Valid()
      modifies this
      ensures Valid() && emitted == old(emitted) + [ModalState(true, Register)]
      ensures Current() == Apply(old(Current()), OpenRegister)
    {
      emitted := emitted + [ModalState(true, Register)];
    }

    /** close: emits the closed state, same mode, only when open. */
    method CloseModal()
      requires Valid()
      modifies this
      ensures Valid()
      ensures old(Current()).open ==> emitted == old(emitted) + [ModalState(false, old(Current()).mode)]
      ensures !old(Current()).open ==> emitted == old(emitted)
      ensures Current() == Apply(old(Current()), Close)
    {
      var current := emitted[|emitted| - 1];
      if current.open {
        emitted := emitted + [current.(open := false)];
      }
    }
  }
}
