/**
 * The priority enum, an integer rank from 1 (urgent) to 5 (bulk), and its
 * manager, whose setters overwrite the priority without any guard.
 */
module PriorityStates {

  import opened Wrappers

  datatype Priority = Urgent | High | Normal | Low | Bulk

  /** The integer stored in the database for each case. */
  function BackingValue(p: Priority): (v: int)
    ensures 1 <= v <= 5
  {
    match p
    case Urgent => 1
    case High => 2
    case Normal => 3
    case Low => 4
    case Bulk => 5
  }

  /** `PriorityStates::tryFrom`. */
  function TryFrom(v: int): (r: Option<Priority>)
    ensures r.Some? <==> 1 <= v <= 5
    ensures r.Some? ==> BackingValue(r.value) == v
  {
    if v == 1 then Some(Urgent)
    else if v == 2 then Some(High)
    else if v == 3 then Some(Normal)
    else if v == 4 then Some(Low)
    else if v == 5 then Some(Bulk)
    else None
  }

  /** The backing values follow declaration order: URGENT < HIGH < NORMAL < LOW < BULK. */
  lemma BackingValuesInOrder()
    ensures BackingValue(Urgent) < BackingValue(High) < BackingValue(Normal)
      < BackingValue(Low) < BackingValue(Bulk)
  {
  }

  lemma BackingValueRoundTrip(p: Priority)
    ensures TryFrom(BackingValue(p)) == Some(p)
  {
  }

  /** The Spanish display label of each case. */
  function Label(p: Priority): (l: string)
    ensures l != ""
  {
    match p
    case Urgent => "Urgente"
    case High => "Alta"
    case Normal => "Normal"
    case Low => "Baja"
    case Bulk => "Masiva"
  }

  lemma LabelInjective(a: Priority, b: Priority)
    ensures Label(a) == Label(b) ==> a == b
  {
  }

  /** The priority a sequence of setter calls leaves behind, starting from `p`. */
  function Run(p: Priority, setters: seq<Priority>): Priority
    decreases |setters|
  {
    if setters == [] then p else Run(setters[0], setters[1..])
  }

  /** Only the last setter called matters; with none, the constructor argument stays. */
  lemma {:induction false} LastSetterWins(p: Priority, setters: seq<Priority>)
    ensures setters == [] ==> Run(p, setters) == p
    ensures setters != [] ==> Run(p, setters) == setters[|setters| - 1]
    decreases |setters|
  {
    if setters != [] {
      LastSetterWins(setters[0], setters[1..]);
    }
  }

  /** Calling the same setter twice equals calling it once. */
  lemma SetterIdempotent(p: Priority, q: Priority)
    ensures Run(p, [q, q]) == Run(p, [q])
  {
    LastSetterWins(p, [q, q]);
    LastSetterWins(p, [q]);
  }

  /** `PriorityStatesManager`: holds the current priority. */
  class PriorityStatesManager {
    var currentPriority: Priority

    constructor (state: Priority)
      ensures currentPriority == state
    {
      currentPriority := state;
    }

    method ToUrgent()
      modifies this
      ensures currentPriority == Urgent
    {
      currentPriority := Urgent;
    }

    method ToHigh()
      modifies this
      ensures currentPriority == High
    {
      currentPriority := High;
    }

    method ToNormal()
      modifies this
      ensures currentPriority == Normal
    {
      currentPriority := Normal;
    }

    method ToLow()
      modifies this
      ensures currentPriority == Low
    {
      currentPriority := Low;
    }

    method ToBulk()
      modifies this
      ensures currentPriority == Bulk
    {
      currentPriority := Bulk;
    }

    method GetPriority() returns (p: Priority)
      ensures p == currentPriority
    {
      p := currentPriority;
    }
  }
}
