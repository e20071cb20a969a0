/** The shared configuration of the current revision: a process-wide
    singleton whose first construction fixes every parameter, and the map
    from a pulse's intensity class to its mean photon number. */
module Configuration {
  import opened Common

  /** The intensity classes a pulse can belong to. */
  predicate IsStateType(stateType: string)
  {
    stateType == "signal" || stateType == "decoy" || stateType == "vacuum"
  }

  /** The stored parameters. None of them changes after construction. */
  class Config {
    const mu: real
    const nu: real
    const transmittance: real
    const detectorErrorRate: real
    const darkCountRate: real
    const signalPercentage: real
    const decoyPercentage: real
    const vacuumPercentage: real

    constructor (mu: real, nu: real, transmittance: real, detectorErrorRate: real,
                 darkCountRate: real, signalPercentage: real, decoyPercentage: real,
                 vacuumPercentage: real)
      ensures this.mu == mu && this.nu == nu && this.transmittance == transmittance
      ensures this.detectorErrorRate == detectorErrorRate && this.darkCountRate == darkCountRate
      ensures this.signalPercentage == signalPercentage && this.decoyPercentage == decoyPercentage
      ensures this.vacuumPercentage == vacuumPercentage
    {
      this.mu := mu;
      this.nu := nu;
      this.transmittance := transmittance;
      this.detectorErrorRate := detectorErrorRate;
      this.darkCountRate := darkCountRate;
      this.signalPercentage := signalPercentage;
      this.decoyPercentage := decoyPercentage;
      this.vacuumPercentage := vacuumPercentage;
    }
  }

  /** The class-level `_instance` slot of `Config`. */
  class ConfigStore {
    var instance: Config?

    /** Before any construction there is no instance. */
    constructor ()
      ensures instance == null
    {
      instance := null;
    }

    /** `Config(...)`: the first call creates and stores the instance with
        the given parameters; every later call returns that same instance
        and ignores its arguments. */
    method New(mu: real, nu: real, transmittance: real, detectorErrorRate: real,
               darkCountRate: real, signalPercentage: real, decoyPercentage: real,
               vacuumPercentage: real) returns (c: Config)
      modifies this
      ensures instance == c
      ensures old(instance) != null ==> c == old(instance)
      ensures old(instance) == null ==>
        fresh(c) && c.mu == mu && c.nu == nu && c.transmittance == transmittance &&
        c.detectorErrorRate == detectorErrorRate && c.darkCountRate == darkCountRate &&
        c.signalPercentage == signalPercentage && c.decoyPercentage == decoyPercentage &&
        c.vacuumPercentage == vacuumPercentage
    {
      if instance == null {
        instance := new Config(mu, nu, transmittance, detectorErrorRate, darkCountRate,
                               signalPercentage, decoyPercentage, vacuumPercentage);
      }
      c := instance;
    }

    /** `Config.get_instance()`: null until the first construction. */
    method GetInstance() returns (c: Config?)
      ensures c == instance
    {
      c := instance;
    }
  }

  /** `Config.state_type_to_mean_photon_number` applied to the current
      instance: signal pulses use mu, decoy pulses nu, vacuum pulses 0 (the
      instance is not consulted), any other label is a ValueError, and
      reading mu or nu before any construction fails on the missing
      instance. */
  function StateTypeToMeanPhotonNumber(config: Config?, stateType: string): (r: Result<real>)
    ensures r.Ok? <==> stateType == "vacuum" || (IsStateType(stateType) && config != null)
    ensures stateType == "vacuum" ==> r == Ok(0.0)
    ensures r.Ok? && stateType == "signal" ==> r.value == config.mu
    ensures r.Ok? && stateType == "decoy" ==> r.value == config.nu
    ensures r.Err? ==> (r.error.ValueError? <==> !IsStateType(stateType))
  {
    if stateType == "signal" then
      if config == null then Err(AttributeError) else Ok(config.mu)
    else if stateType == "decoy" then
      if config == null then Err(AttributeError) else Ok(config.nu)
    else if stateType == "vacuum" then
      Ok(0.0)
    else
      Err(ValueError("Invalid state type"))
  }
}
