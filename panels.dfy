// The state the control panel keeps: the parameter values, the phase phi of
// the animation and the pause flag. Widgets, labels and the viewer refresh
// are not modelled; each method below keeps only the state change.

/** Rules the three panel versions share. */
module Controls {
  import opened RealMath

  /** The pin-count slider's rule: an odd value becomes value + 1, an even
      one is kept. The result is the least even number not below v. */
  function EvenPinCount(v: int): (r: int)
    ensures r % 2 == 0
    ensures v <= r <= v + 1
    ensures v % 2 == 0 <==> r == v
  {
    if v % 2 == 0 then v else v + 1
  }

  /** No even number at or above v is below EvenPinCount(v), and rounding
      an already rounded count changes nothing. */
  lemma EvenPinCountLeast(v: int, k: int)
    requires k % 2 == 0 && v <= k
    ensures EvenPinCount(v) <= k
    ensures EvenPinCount(EvenPinCount(v)) == EvenPinCount(v)
  {
  }

  /** The phase added per timer tick: 0.01 * (speed / 60). */
  function AnimationStep(speed: int): real
  {
    0.01 * ((speed as real) / 60.0)
  }

  /** One tick of advance_animation: phi is kept while paused. */
  function Advance(phi: real, paused: bool, speed: int): real
  {
    if paused then phi else phi + AnimationStep(speed)
  }

  /** The phase after `ticks` timer ticks in a row. */
  function Run(phi: real, paused: bool, speed: int, ticks: nat): real
  {
    if ticks == 0 then phi else Advance(Run(phi, paused, speed, ticks - 1), paused, speed)
  }

  /** While paused the phase stands still; otherwise n ticks advance it by
      n times the step, so it grows steadily with the tick count. */
  lemma {:induction false} RunLinear(phi: real, paused: bool, speed: int, ticks: nat)
    ensures Run(phi, paused, speed, ticks) == if paused then phi else phi + (ticks as real) * AnimationStep(speed)
  {
    if ticks > 0 {
      RunLinear(phi, paused, speed, ticks - 1);
    }
  }

  /** With a positive speed the phase grows strictly with every tick, a faster
      speed gets further in the same number of ticks, and at speed 60 one tick
      adds 0.01 radian; while paused no number of ticks moves it. */
  lemma {:induction false} RunMonotone(phi: real, speed: int, faster: int, ticks: nat, more: nat)
    requires 0 < speed
    ensures ticks < more ==> Run(phi, false, speed, ticks) < Run(phi, false, speed, more)
    ensures speed < faster && ticks > 0 ==> Run(phi, false, speed, ticks) < Run(phi, false, faster, ticks)
    ensures Run(phi, true, speed, more) == phi
    ensures Advance(phi, false, 60) == phi + 0.01
  {
    RunLinear(phi, true, speed, more);
    if ticks < more {
      MoreTicksFurther(phi, speed, ticks, more);
    }
    if speed < faster && ticks > 0 {
      FasterFurther(phi, speed, faster, ticks);
    }
  }

  lemma MoreTicksFurther(phi: real, speed: int, ticks: nat, more: nat)
    requires 0 < speed && ticks < more
    ensures Run(phi, false, speed, ticks) < Run(phi, false, speed, more)
  {
    RunLinear(phi, false, speed, ticks);
    RunLinear(phi, false, speed, more);
    var step := AnimationStep(speed);
    assert step > 0.0;
    assert (ticks as real) * step < (more as real) * step;
  }

  lemma FasterFurther(phi: real, speed: int, faster: int, ticks: nat)
    requires 0 < speed < faster && ticks > 0
    ensures Run(phi, false, speed, ticks) < Run(phi, false, faster, ticks)
  {
    RunLinear(phi, false, speed, ticks);
    RunLinear(phi, false, faster, ticks);
    var slow, fast := AnimationStep(speed), AnimationStep(faster);
    assert slow < fast;
    assert (ticks as real) * slow < (ticks as real) * fast;
  }

  /** normalize_to_pins' ring diameter: (pin_d N + 1.25 pin_d (N - 1)) / π. */
  function NormalRingDiameter(m: Math, pinDiameter: real, numPins: nat): real
  {
    (pinDiameter * (numPins as real) + (1.25 * pinDiameter) * ((numPins as real) - 1.0)) / m.pi
  }

  /** The ring's circumference π D holds the N pins and the N - 1 gaps of
      1.25 pin diameters between them; the disk diameter is two thirds of it,
      so the ring is wider than the disk whenever the pins are. */
  lemma NormalRingFitsPins(m: Math, pinDiameter: real, numPins: nat)
    ensures m.pi * NormalRingDiameter(m, pinDiameter, numPins)
            == pinDiameter * (numPins as real) + 1.25 * pinDiameter * ((numPins as real) - 1.0)
    ensures pinDiameter > 0.0 && numPins >= 1 ==> NormalDiskDiameter(m, pinDiameter, numPins) < NormalRingDiameter(m, pinDiameter, numPins)
  {
    var num := pinDiameter * (numPins as real) + 1.25 * pinDiameter * ((numPins as real) - 1.0);
    if pinDiameter > 0.0 && numPins >= 1 {
      assert num >= pinDiameter * 1.0 + 0.0 by {
        assert pinDiameter * (numPins as real) >= pinDiameter * 1.0;
        assert 1.25 * pinDiameter * ((numPins as real) - 1.0) >= 0.0;
      }
      assert num / m.pi > 0.0;
    }
  }

  /** After normalize_to_pins rounds both values, the output disk is no wider
      than the ring whenever the pins have positive diameter, provided the
      rounding keeps order. */
  lemma NormalizedDiskInsideRing(m: Math, pinDiameter: real, numPins: nat)
    requires RoundsMonotone(m)
    ensures pinDiameter > 0.0 && numPins >= 1 ==>
              m.round1(NormalDiskDiameter(m, pinDiameter, numPins)) <= m.round1(NormalRingDiameter(m, pinDiameter, numPins))
  {
    NormalRingFitsPins(m, pinDiameter, numPins);
    if pinDiameter > 0.0 && numPins >= 1 {
      RoundOrder(m, NormalDiskDiameter(m, pinDiameter, numPins), NormalRingDiameter(m, pinDiameter, numPins));
    }
  }

  /** normalize_to_pins' output disk diameter: two thirds of the unrounded ring. */
  function NormalDiskDiameter(m: Math, pinDiameter: real, numPins: nat): real
  {
    (2.0 / 3.0) * NormalRingDiameter(m, pinDiameter, numPins)
  }
}

/** The SliderPanel of the latest version. */
module PanelV15 {
  import opened RealMath
  import opened Generators
  import opened Controls

  const DefaultParams := Params(1.4, 24, 7, 80.0, 5.0, 50.0, 10.0, 20.0, 0.2, false, 15.0)
  const DefaultSpeed := 200

  /** `speed` is the 'animation_speed' entry of the parameter dictionary; the
      other entries are `params`. */
  class SliderPanel {
    var params: Params
    var speed: int
    var phi: real
    var paused: bool

    constructor ()
      ensures params == DefaultParams && speed == DefaultSpeed
      ensures phi == 0.0 && !paused
    {
      params := DefaultParams;
      speed := DefaultSpeed;
      phi := 0.0;
      paused := false;
    }

    /** The External Pins slider: the value is rounded up to even. */
    method SetExternalPins(v: int)
      requires 0 <= v
      modifies this
      ensures params == old(params).(numExternalPins := EvenPinCount(v))
      ensures speed == old(speed) && phi == old(phi) && paused == old(paused)
    {
      var value := v;
      if value % 2 != 0 {
        value := value + 1;
      }
      params := params.(numExternalPins := value);
    }

    /** The Output Pins slider: integer, taken as it is. */
    method SetOutputPins(v: nat)
      modifies this
      ensures params == old(params).(numOutputPins := v)
      ensures speed == old(speed) && phi == old(phi) && paused == old(paused)
    {
      params := params.(numOutputPins := v);
    }

    /** The Animation Speed slider: integer, taken as it is. */
    method SetSpeed(v: int)
      modifies this
      ensures speed == v
      ensures params == old(params) && phi == old(phi) && paused == old(paused)
    {
      speed := v;
    }

    /** Ring and output disk diameters from the pin count and pin diameter,
        each rounded to one decimal. */
    method NormalizeToPins(m: Math)
      modifies this
      ensures params == old(params).(ringDiameter := m.round1(NormalRingDiameter(m, old(params).pinDiameter, old(params).numExternalPins)),
                                     outputDiskDiameter := m.round1(NormalDiskDiameter(m, old(params).pinDiameter, old(params).numExternalPins)))
      ensures speed == old(speed) && phi == old(phi) && paused == old(paused)
      ensures RoundsMonotone(m) && old(params).pinDiameter > 0.0 && old(params).numExternalPins >= 1 ==>
                params.outputDiskDiameter <= params.ringDiameter
    {
      var numPins := params.numExternalPins;
      var pinDiameter := params.pinDiameter;
      var ringDiameter := (pinDiameter * (numPins as real) + (1.25 * pinDiameter) * ((numPins as real) - 1.0)) / m.pi;
      assert ringDiameter == NormalRingDiameter(m, pinDiameter, numPins);
      var diskDiameter := (2.0 / 3.0) * ringDiameter;
      params := params.(ringDiameter := m.round1(ringDiameter), outputDiskDiameter := m.round1(diskDiameter));
      if RoundsMonotone(m) {
        NormalizedDiskInsideRing(m, pinDiameter, numPins);
      }
    }

    method TogglePause()
      modifies this
      ensures paused == !old(paused)
      ensures params == old(params) && speed == old(speed) && phi == old(phi)
    {
      paused := !paused;
    }

    /** Every parameter back to its default and the phase to 0; the pause
        flag is left as it is. */
    method ResetParams()
      modifies this
      ensures params == DefaultParams && speed == DefaultSpeed && phi == 0.0
      ensures paused == old(paused)
    {
      params := DefaultParams;
      speed := DefaultSpeed;
      phi := 0.0;
    }

    /** One timer tick. */
    method AdvanceAnimation()
      modifies this
      ensures phi == Advance(old(phi), paused, speed)
      ensures params == old(params) && speed == old(speed) && paused == old(paused)
    {
      if !paused {
        phi := phi + 0.01 * ((speed as real) / 60.0);
      }
    }
  }
}

/** The SliderPanel of version 1.3: no outer ring settings. */
module PanelV13 {
  import opened RealMath
  import opened Controls

  datatype Settings = Settings(eccentricity: real, numExternalPins: nat, numOutputPins: nat, ringDiameter: real, pinDiameter: real,
                               outputDiskDiameter: real, outputPinDiameter: real, camshaftDiameter: real, tolerance: real)

  const DefaultParams := Settings(1.2, 12, 5, 41.0, 5.0, 21.0, 1.5, 8.0, 0.1)
  const DefaultSpeed := 200

  class SliderPanel {
    var params: Settings
    var speed: int
    var phi: real
    var paused: bool

    constructor ()
      ensures params == DefaultParams && speed == DefaultSpeed
      ensures phi == 0.0 && !paused
    {
      params := DefaultParams;
      speed := DefaultSpeed;
      phi := 0.0;
      paused := false;
    }

    method SetExternalPins(v: int)
      requires 0 <= v
      modifies this
      ensures params == old(params).(numExternalPins := EvenPinCount(v))
      ensures speed == old(speed) && phi == old(phi) && paused == old(paused)
    {
      var value := v;
      if value % 2 != 0 {
        value := value + 1;
      }
      params := params.(numExternalPins := value);
    }

    method SetOutputPins(v: nat)
      modifies this
      ensures params == old(params).(numOutputPins := v)
      ensures speed == old(speed) && phi == old(phi) && paused == old(paused)
    {
      params := params.(numOutputPins := v);
    }

    method SetSpeed(v: int)
      modifies this
      ensures speed == v
      ensures params == old(params) && phi == old(phi) && paused == old(paused)
    {
      speed := v;
    }

    method NormalizeToPins(m: Math)
      modifies this
      ensures params == old(params).(ringDiameter := m.round1(NormalRingDiameter(m, old(params).pinDiameter, old(params).numExternalPins)),
                                     outputDiskDiameter := m.round1(NormalDiskDiameter(m, old(params).pinDiameter, old(params).numExternalPins)))
      ensures speed == old(speed) && phi == old(phi) && paused == old(paused)
      ensures RoundsMonotone(m) && old(params).pinDiameter > 0.0 && old(params).numExternalPins >= 1 ==>
                params.outputDiskDiameter <= params.ringDiameter
    {
      var numPins := params.numExternalPins;
      var pinDiameter := params.pinDiameter;
      var ringDiameter := (pinDiameter * (numPins as real) + (1.25 * pinDiameter) * ((numPins as real) - 1.0)) / m.pi;
      assert ringDiameter == NormalRingDiameter(m, pinDiameter, numPins);
      var diskDiameter := (2.0 / 3.0) * ringDiameter;
      params := params.(ringDiameter := m.round1(ringDiameter), outputDiskDiameter := m.round1(diskDiameter));
      if RoundsMonotone(m) {
        NormalizedDiskInsideRing(m, pinDiameter, numPins);
      }
    }

    method TogglePause()
      modifies this
      ensures paused == !old(paused)
      ensures params == old(params) && speed == old(speed) && phi == old(phi)
    {
      paused := !paused;
    }

    method ResetParams()
      modifies this
      ensures params == DefaultParams && speed == DefaultSpeed && phi == 0.0
      ensures paused == old(paused)
    {
      params := DefaultParams;
      speed := DefaultSpeed;
      phi := 0.0;
    }

    method AdvanceAnimation()
      modifies this
      ensures phi == Advance(old(phi), paused, speed)
      ensures params == old(params) && speed == old(speed) && paused == old(paused)
    {
      if !paused {
        phi := phi + 0.01 * ((speed as real) / 60.0);
      }
    }
  }
}

/** The SliderPanel of version 1.1, with its short parameter keys. */
module PanelV11 {
  import opened Controls

  /** e, N, n, D, d, Rd, rd and camshaft_d. */
  datatype Settings = Settings(e: real, numExternalPins: nat, numOutputPins: nat, ringDiameter: real, pinDiameter: real,
                               outputDiskRadius: real, outputPinRadius: real, camshaftDiameter: real)

  const DefaultParams := Settings(1.2, 18, 6, 45.0, 5.0, 12.0, 1.5, 8.0)
  const DefaultSpeed := 60

  class SliderPanel {
    var params: Settings
    var speed: int
    var phi: real
    var paused: bool

    constructor ()
      ensures params == DefaultParams && speed == DefaultSpeed
      ensures phi == 0.0 && !paused
    {
      params := DefaultParams;
      speed := DefaultSpeed;
      phi := 0.0;
      paused := false;
    }

    /** The 'N' slider: rounded up to even. */
    method SetExternalPins(v: int)
      requires 0 <= v
      modifies this
      ensures params == old(params).(numExternalPins := EvenPinCount(v))
      ensures speed == old(speed) && phi == old(phi) && paused == old(paused)
    {
      var value := v;
      if value % 2 != 0 {
        value := value + 1;
      }
      params := params.(numExternalPins := value);
    }

    /** The 'n' slider: taken as it is. */
    method SetOutputPins(v: nat)
      modifies this
      ensures params == old(params).(numOutputPins := v)
      ensures speed == old(speed) && phi == old(phi) && paused == old(paused)
    {
      params := params.(numOutputPins := v);
    }

    /** The 'speed' slider: taken as it is. */
    method SetSpeed(v: int)
      modifies this
      ensures speed == v
      ensures params == old(params) && phi == old(phi) && paused == old(paused)
    {
      speed := v;
    }

    method TogglePause()
      modifies this
      ensures paused == !old(paused)
      ensures params == old(params) && speed == old(speed) && phi == old(phi)
    {
      paused := !paused;
    }

    method ResetParams()
      modifies this
      ensures params == DefaultParams && speed == DefaultSpeed && phi == 0.0
      ensures paused == old(paused)
    {
      params := DefaultParams;
      speed := DefaultSpeed;
      phi := 0.0;
    }

    method AdvanceAnimation()
      modifies this
      ensures phi == Advance(old(phi), paused, speed)
      ensures params == old(params) && speed == old(speed) && paused == old(paused)
    {
      if !paused {
        phi := phi + 0.01 * ((speed as real) / 60.0);
      }
    }
  }
}
