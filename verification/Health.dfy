/** Upstream health, internal/router/health.go. */
module Health {
  datatype State = Healthy | Degraded | Sick | CoolingOff

  datatype Value = Value(state: State, consecutiveOK: int, consecutiveError: int) {
    predicate Available() {
      state == Healthy || state == Degraded
    }

    function AfterSuccess(): Value {
      Value(if consecutiveOK + 1 >= 1 then Healthy else state, consecutiveOK + 1, 0)
    }

    function AfterFailure(): Value {
      var errors := consecutiveError + 1;
      Value(if errors >= 3 then Sick else if errors >= 1 then Degraded else state, 0, errors)
    }

    function AfterCooldown(): Value {
      this.(state := CoolingOff)
    }
  }

  const NEW := Value(Healthy, 0, 0)

  // ---------- A record's whole history ----------

  datatype Event = Success | Failure | Cooldown

  function After(history: seq<Event>): Value {
    if history == [] then NEW
    else
      var before := After(history[..|history| - 1]);
      match history[|history| - 1]
      case Success => before.AfterSuccess()
      case Failure => before.AfterFailure()
      case Cooldown => before.AfterCooldown()
  }

  /** How many of these there were since the last of those. */
  function Row(history: seq<Event>, these: Event, those: Event): nat {
    if history == [] then 0
    else
      var before, last := history[..|history| - 1], history[|history| - 1];
      if last == those then 0 else Row(before, these, those) + if last == these then 1 else 0
  }

  /** The counters are the successes and the failures in a row. The state is what the last event says: healthy after a
      success, cooling after a cooldown, and after a failure sick from the third in a row on, degraded before. */
  lemma {:induction false} AfterExactly(history: seq<Event>)
    ensures var v := After(history);
      && v.consecutiveOK == Row(history, Success, Failure) && v.consecutiveError == Row(history, Failure, Success)
      && (history == [] ==> v.state == Healthy)
      && (history != [] ==>
            match history[|history| - 1]
            case Success => v.state == Healthy
            case Cooldown => v.state == CoolingOff
            case Failure => v.state == if Row(history, Failure, Success) >= 3 then Sick else Degraded)
  {
    if history != [] {
      AfterExactly(history[..|history| - 1]);
    }
  }

  class Cell {
    ghost const owner: string  // the upstream the cell belongs to
    var state: State
    var consecutiveOK: int
    var consecutiveError: int

    ghost function Contents(): Value
      reads this
    {
      Value(state, consecutiveOK, consecutiveError)
    }

    constructor (ghost owner: string)
      ensures Contents() == NEW && this.owner == owner
    {
      this.owner := owner;
      state, consecutiveOK, consecutiveError := Healthy, 0, 0;
    }

    method Success()
      modifies this
      ensures Contents() == old(Contents()).AfterSuccess()
    {
      consecutiveOK := consecutiveOK + 1;
      consecutiveError := 0;
      if consecutiveOK >= 1 {
        state := Healthy;
      }
    }

    method Failure()
      modifies this
      ensures Contents() == old(Contents()).AfterFailure()
    {
      consecutiveError := consecutiveError + 1;
      consecutiveOK := 0;
      if consecutiveError >= 3 {
        state := Sick;
      } else if consecutiveError >= 1 {
        state := Degraded;
      }
    }

    method Cooldown()
      modifies this
      ensures Contents() == old(Contents()).AfterCooldown()
    {
      state := CoolingOff;
    }

    method Available() returns (r: bool)
      ensures r == Contents().Available()
    {
      r := state == Healthy || state == Degraded;
    }
  }
}
