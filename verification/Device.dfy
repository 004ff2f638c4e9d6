/** The synthetic device: three fields that `reset` and `apply` assign. */
module Device {
  import opened Prelude
  import opened Evidence

  datatype Update = Update(version: string, payload: string)

  function Applied(s: DeviceState, u: Update): DeviceState {
    DeviceState(u.version, s.updateCounter + 1, Some(u.payload))
  }

  function AppliedAll(s: DeviceState, us: seq<Update>): DeviceState
    decreases |us|
  {
    if us == [] then s else AppliedAll(Applied(s, us[0]), us[1..])
  }

  /** Applies only ever raise the counter, so a lower one can only come from a reset. */
  lemma {:induction false} CounterCountsApplies(s: DeviceState, us: seq<Update>)
    ensures AppliedAll(s, us).updateCounter == s.updateCounter + |us|
    ensures us != [] ==> AppliedAll(s, us) == DeviceState(us[|us| - 1].version, s.updateCounter + |us|, Some(us[|us| - 1].payload))
    decreases |us|
  {
    if us != [] {
      CounterCountsApplies(Applied(s, us[0]), us[1..]);
    }
  }

  class VirtualDevice {
    var firmwareVersion: string
    var updateCounter: nat
    var lastPayload: Option<string>

    function State(): DeviceState
      reads this
    {
      DeviceState(firmwareVersion, updateCounter, lastPayload)
    }

    constructor ()
      ensures State() == INITIAL_STATE
    {
      firmwareVersion, updateCounter, lastPayload := INITIAL_VERSION, 0, None;
    }

    method Reset() returns (s: DeviceState)
      modifies this
      ensures s == State() == INITIAL_STATE
    {
      firmwareVersion := INITIAL_VERSION;
      updateCounter := 0;
      lastPayload := None;
      s := State();
    }

    method Apply(u: Update) returns (s: DeviceState)
      modifies this
      ensures s == State() == Applied(old(State()), u)
    {
      firmwareVersion := u.version;
      updateCounter := updateCounter + 1;
      lastPayload := Some(u.payload);
      s := State();
    }

    /** Other clients of the same device getting in between two steps. */
    method Interfere(us: seq<Update>)
      modifies this
      ensures State() == AppliedAll(old(State()), us)
    {
      for i := 0 to |us|
        invariant AppliedAll(State(), us[i..]) == AppliedAll(old(State()), us)
      {
        var _ := Apply(us[i]);
      }
    }
  }
}
