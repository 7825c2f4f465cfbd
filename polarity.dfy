/** The output primitive `OutputDeviceR`: one GPIO line in output mode together with a
    polarity (which electrical level counts as logically "on"). The pin is abstracted as
    its level, `true` for `Level::High` and `false` for `Level::Low`. */
module Polarity {

  class OutputDevice {
    /** Electrical level of the pin: true is high, false is low. */
    var level: bool
    /** The level that means "on". */
    var activeState: bool
    /** The level that means "off". */
    var inactiveState: bool

    /** Exactly one of the two levels means "on". */
    ghost predicate Valid()
      reads this
    {
      inactiveState == !activeState
    }

    /** `OutputDeviceR::new`: active-high. The level the line has when it is acquired
        belongs to the hardware and is a parameter here. */
    constructor (initialLevel: bool)
      ensures Valid() && ActiveHigh()
      ensures activeState && !inactiveState && level == initialLevel
    {
      level := initialLevel;
      activeState := true;
      inactiveState := false;
    }

    /** The level that represents logical `value`; reading it back gives `value`. */
    function ValueToState(value: bool): (state: bool)
      reads this
      ensures Valid() ==> StateToValue(state) == value
      ensures Valid() ==> (state <==> (value <==> activeState))
    {
      if value then activeState else inactiveState
    }

    /** The logical value a pin at level `state` has. */
    function StateToValue(state: bool): (v: bool)
      reads this
      ensures Valid() ==> (v <==> state != inactiveState)
    {
      state == activeState
    }

    /** `value()`: the current level read back through the polarity. */
    function Value(): (v: bool)
      reads this
      ensures Valid() ==> (v <==> level == ValueToState(true))
    {
      StateToValue(level)
    }

    /** `is_active()` comes from a macro that is not part of this model; it is taken to
        be `value()`. */
    function IsActive(): (r: bool)
      reads this
      ensures Valid() ==> (r <==> level != inactiveState)
    {
      Value()
    }

    /** `active_high()`: true exactly when a high pin reads as "on". */
    function ActiveHigh(): (r: bool)
      reads this
      ensures r == StateToValue(true)
      ensures Valid() ==> (r <==> !StateToValue(false))
    {
      activeState
    }

    /** `set_active_high`: re-chooses the polarity. The pin is not touched, so when the
        polarity changes, `value()` flips. */
    method SetActiveHigh(value: bool)
      modifies this
      ensures Valid() && ActiveHigh() == value
      ensures level == old(level)
      ensures value == old(activeState) ==> Value() == old(Value())
      ensures value != old(activeState) ==> Value() == !old(Value())
    {
      if value {
        activeState := true;
        inactiveState := false;
      } else {
        activeState := false;
        inactiveState := true;
      }
    }

    /** `write_state`: drives the pin to the level that represents `value`. */
    method WriteState(value: bool)
      requires Valid()
      modifies this
      ensures Valid() && activeState == old(activeState)
      ensures level == old(ValueToState(value))
      ensures Value() == value
    {
      if ValueToState(value) {
        level := true;
      } else {
        level := false;
      }
    }

    /** `on`: afterwards the device reads as on. */
    method On()
      requires Valid()
      modifies this
      ensures Valid() && activeState == old(activeState)
      ensures level == activeState && Value()
    {
      WriteState(true);
    }

    /** `off`: afterwards the device reads as off. */
    method Off()
      requires Valid()
      modifies this
      ensures Valid() && activeState == old(activeState)
      ensures level == inactiveState && !Value()
    {
      WriteState(false);
    }

    /** `toggle`: if the device is active turn it off, otherwise on; so the logical value
        flips, the polarity stays, and two toggles give back the original value. */
    method Toggle()
      requires Valid()
      modifies this
      ensures Valid() && activeState == old(activeState)
      ensures Value() == !old(Value())
      ensures level == !old(level)
    {
      if IsActive() {
        Off();
      } else {
        On();
      }
    }
  }

  /** Reading a level and writing the value read gives the same level back. */
  lemma LevelRoundTrip(d: OutputDevice, state: bool)
    requires d.Valid()
    ensures d.ValueToState(d.StateToValue(state)) == state
  {
  }
}
