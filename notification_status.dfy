/**
 * The notification status enum and its manager: a three-state machine in
 * which only `Pending` has outgoing edges and an illegal transition is a
 * silent no-op.
 */
module NotificationStatus {

  import opened Wrappers

  datatype Status = Pending | Sent | Failed

  /** The string stored in the database for each case. */
  function BackingValue(s: Status): string
  {
    match s
    case Pending => "pending"
    case Sent => "sent"
    case Failed => "failed"
  }

  /** `NotificationStatus::tryFrom`: the case whose backing value is `v`, if any. */
  function TryFrom(v: string): (r: Option<Status>)
    ensures r.Some? ==> BackingValue(r.value) == v
    ensures r.None? ==> forall s: Status :: BackingValue(s) != v
  {
    if v == "pending" then Some(Pending)
    else if v == "sent" then Some(Sent)
    else if v == "failed" then Some(Failed)
    else None
  }

  /** The Spanish display label of each case. */
  function Label(s: Status): (l: string)
    ensures l != ""
  {
    match s
    case Pending => "Pendiente"
    case Sent => "Enviado"
    case Failed => "Fallido"
  }

  lemma LabelInjective(a: Status, b: Status)
    ensures Label(a) == Label(b) ==> a == b
  {
  }

  lemma BackingValueRoundTrip(s: Status)
    ensures TryFrom(BackingValue(s)) == Some(s)
  {
  }

  /** The two transitions the manager offers. */
  datatype Transition = ToSent | ToFailed

  function Target(t: Transition): Status
  {
    match t
    case ToSent => Sent
    case ToFailed => Failed
  }

  /** One guarded transition: it fires only from `Pending`, otherwise nothing changes. */
  function Step(s: Status, t: Transition): (r: Status)
    ensures s == Pending ==> r == Target(t)
    ensures s != Pending ==> r == s
    ensures r != Pending
  {
    if s == Pending then Target(t) else s
  }

  /** The state after a sequence of transitions, applied in order. */
  function Run(s: Status, ts: seq<Transition>): Status
    decreases |ts|
  {
    if ts == [] then s else Run(Step(s, ts[0]), ts[1..])
  }

  /** Each transition is idempotent. */
  lemma StepIdempotent(s: Status, t: Transition)
    ensures Step(Step(s, t), t) == Step(s, t)
  {
  }

  /** `Sent` and `Failed` are terminal: no sequence of transitions leaves them. */
  lemma {:induction false} TerminalStaysPut(s: Status, ts: seq<Transition>)
    requires s != Pending
    ensures Run(s, ts) == s
    decreases |ts|
  {
    if ts != [] {
      TerminalStaysPut(Step(s, ts[0]), ts[1..]);
    }
  }

  /**
   * From `Pending` the first transition decides the final state, and no
   * sequence of transitions returns to `Pending` once one has been applied.
   */
  lemma {:induction false} FirstTransitionWins(ts: seq<Transition>)
    ensures ts == [] ==> Run(Pending, ts) == Pending
    ensures ts != [] ==> Run(Pending, ts) == Target(ts[0]) && Run(Pending, ts) != Pending
  {
    if ts != [] {
      TerminalStaysPut(Target(ts[0]), ts[1..]);
    }
  }

  /** `NotificationStatusManager`: holds the current state and applies guarded transitions. */
  class NotificationStatusManager {
    var currentState: Status

    constructor (state: Status)
      ensures currentState == state
    {
      currentState := state;
    }

    /** Moves `Pending` to `Sent`; from any other state it does nothing. */
    method ToSent()
      modifies this
      ensures old(currentState) == Pending ==> currentState == Sent
      ensures old(currentState) != Pending ==> currentState == old(currentState)
      ensures currentState == Step(old(currentState), Transition.ToSent)
    {
      if currentState == Pending {
        currentState := Sent;
      }
    }

    /** Moves `Pending` to `Failed`; from any other state it does nothing. */
    method ToFailed()
      modifies this
      ensures old(currentState) == Pending ==> currentState == Failed
      ensures old(currentState) != Pending ==> currentState == old(currentState)
      ensures currentState == Step(old(currentState), Transition.ToFailed)
    {
      if currentState == Pending {
        currentState := Failed;
      }
    }

    method GetState() returns (s: Status)
      ensures s == currentState
    {
      s := currentState;
    }
  }
}
