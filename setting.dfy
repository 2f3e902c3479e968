/** The mod's settings object: per-transport-type defaults, controller tuning and
    the busy-stop alert levels. */
module Settings {
  import opened Transport

  /** The six sliders and the disable toggle that exist once per transport type. */
  datatype TypeSetting = TypeSetting(
    disabled: bool,
    targetOccupancy: int,
    standardTicket: int,
    maxTicketIncrease: int,
    maxTicketDiscount: int,
    maxVehiclesAdj: int,
    minVehiclesAdj: int)

  /** UpdateFreqEnum: min45 = 32, min22 = 64, min90 = 16. */
  datatype UpdateFreq = Min45 | Min22 | Min90 {
    function Value(): (v: int)
      ensures v in {16, 32, 64}
    {
      match this
      case Min45 => 32
      case Min22 => 64
      case Min90 => 16
    }
  }

  /** A snapshot of every setting the modelled code reads. */
  datatype SettingsState = SettingsState(
    bus: TypeSetting,
    tram: TypeSetting,
    subway: TypeSetting,
    train: TypeSetting,
    ship: TypeSetting,
    airplane: TypeSetting,
    ferry: TypeSetting,
    waitingTimeWeight: real,
    threshold: real,
    updateFreq: UpdateFreq,
    debug: bool,
    disableChirps: bool,
    busyStopEnterPct: real,
    busyStopExitPct: real)

  /** The values SetDefaults assigns. */
  function Defaults(): (s: SettingsState)
    ensures s.bus.targetOccupancy != 0
  {
    SettingsState(
      bus := TypeSetting(false, 30, 8, 20, 40, 0, 25),
      tram := TypeSetting(false, 40, 8, 30, 20, 0, 30),
      subway := TypeSetting(false, 50, 9, 40, 20, 0, -20),
      train := TypeSetting(false, 60, 10, 40, 20, 0, 30),
      ship := TypeSetting(false, 65, 12, 40, 20, 50, 30),
      airplane := TypeSetting(false, 70, 20, 60, 30, 30, 40),
      ferry := TypeSetting(false, 40, 8, 30, 30, 30, 40),
      waitingTimeWeight := 1.0,
      threshold := 10.0,
      updateFreq := Min45,
      debug := false,
      disableChirps := false,
      busyStopEnterPct := 70.0,
      busyStopExitPct := 55.0)
  }

  /** The per-type record of a type that has settings. */
  function ForType(s: SettingsState, t: TransportType): (r: TypeSetting)
    requires !t.OtherType?
  {
    match t
    case Bus => s.bus
    case Tram => s.tram
    case Subway => s.subway
    case Train => s.train
    case Ship => s.ship
    case Airplane => s.airplane
    case Ferry => s.ferry
  }

  /** The slider ranges declared on the per-type settings. */
  predicate TypeInSliderRanges(t: TypeSetting) {
    && 10 <= t.targetOccupancy <= 90
    && 0 <= t.standardTicket <= 30
    && 0 <= t.maxTicketIncrease <= 300
    && 0 <= t.maxTicketDiscount <= 100
    && -50 <= t.maxVehiclesAdj <= 100
    && -50 <= t.minVehiclesAdj <= 100
  }

  /** Every slider of the settings page within its declared range. */
  predicate InSliderRanges(s: SettingsState) {
    && TypeInSliderRanges(s.bus) && TypeInSliderRanges(s.tram) && TypeInSliderRanges(s.subway)
    && TypeInSliderRanges(s.train) && TypeInSliderRanges(s.ship) && TypeInSliderRanges(s.airplane)
    && TypeInSliderRanges(s.ferry)
    && 0.0 <= s.waitingTimeWeight <= 2.0
    && 5.0 <= s.threshold <= 25.0
    && 0.0 <= s.busyStopEnterPct <= 100.0
    && 0.0 <= s.busyStopExitPct <= 100.0
  }

  /** Every default lies inside its slider's range. */
  lemma DefaultsInSliderRanges()
    ensures InSliderRanges(Defaults())
  {
  }

  /** The default alert exit level lies strictly below the enter level, so the
      hysteresis band between them is non-empty. */
  lemma DefaultHysteresisBand()
    ensures Defaults().busyStopExitPct < Defaults().busyStopEnterPct
  {
  }

  /** The Setting object: its properties are the fields below, grouped per transport type. */
  class Setting {
    var bus: TypeSetting
    var tram: TypeSetting
    var subway: TypeSetting
    var train: TypeSetting
    var ship: TypeSetting
    var airplane: TypeSetting
    var ferry: TypeSetting
    var waitingTimeWeight: real
    var threshold: real
    var updateFreq: UpdateFreq
    var debug: bool
    var disableChirps: bool
    var busyStopEnterPct: real
    var busyStopExitPct: real

    function State(): SettingsState
      reads this
    {
      SettingsState(bus, tram, subway, train, ship, airplane, ferry, waitingTimeWeight,
                    threshold, updateFreq, debug, disableChirps, busyStopEnterPct, busyStopExitPct)
    }

    /** The constructor; `initial` is what the properties hold when it runs. Defaults
        are applied only when the bus target occupancy is still 0. In the program that
        property has no initializer, so it always reads 0 here and the defaults are always
        applied; the other branch is the check as written and is never taken. */
    constructor (initial: SettingsState)
      ensures initial.bus.targetOccupancy == 0 ==> State() == Defaults()
      ensures initial.bus.targetOccupancy != 0 ==> State() == initial
    {
      bus, tram, subway, train := initial.bus, initial.tram, initial.subway, initial.train;
      ship, airplane, ferry := initial.ship, initial.airplane, initial.ferry;
      waitingTimeWeight, threshold := initial.waitingTimeWeight, initial.threshold;
      updateFreq, debug, disableChirps := initial.updateFreq, initial.debug, initial.disableChirps;
      busyStopEnterPct, busyStopExitPct := initial.busyStopEnterPct, initial.busyStopExitPct;
      new;
      if initial.bus.targetOccupancy == 0 {
        SetDefaults();
      }
    }

    /** Assigns every setting its default; the result does not depend on the prior
        state, so applying it twice is the same as applying it once. */
    method SetDefaults()
      modifies this
      ensures State() == Defaults()
    {
      bus := TypeSetting(false, 30, 8, 20, 40, 0, 25);
      tram := TypeSetting(false, 40, 8, 30, 20, 0, 30);
      subway := TypeSetting(false, 50, 9, 40, 20, 0, -20);
      train := TypeSetting(false, 60, 10, 40, 20, 0, 30);
      waitingTimeWeight := 1.0;
      threshold := 10.0;
      debug := false;
      updateFreq := Min45;
      ship := TypeSetting(false, 65, 12, 40, 20, 50, 30);
      airplane := TypeSetting(false, 70, 20, 60, 30, 30, 40);
      ferry := TypeSetting(false, 40, 8, 30, 30, 30, 40);
      disableChirps := false;
      busyStopEnterPct := 70.0;
      busyStopExitPct := 55.0;
    }

    /** The reset button's setter: whatever value is written, the defaults are restored. */
    method SetButton(value: bool)
      modifies this
      ensures State() == Defaults()
    {
      SetDefaults();
    }
  }
}
