/** The configuration singleton of the earlier revision: only mu, nu and
    the dark count rate are stored, and a vacuum pulse's mean photon number
    is the dark count rate. */
module LegacyConfiguration {
  import opened Common

  class Config {
    const mu: real
    const nu: real
    const darkCountRate: real

    constructor (mu: real, nu: real, darkCountRate: real)
      ensures this.mu == mu && this.nu == nu && this.darkCountRate == darkCountRate
    {
      this.mu := mu;
      this.nu := nu;
      this.darkCountRate := darkCountRate;
    }
  }

  /** The class-level `_instance` slot. */
  class ConfigStore {
    var instance: Config?

    constructor ()
      ensures instance == null
    {
      instance := null;
    }

    /** The first construction stores its arguments; later ones return the
        stored instance unchanged. */
    method New(mu: real, nu: real, darkCountRate: real) returns (c: Config)
      modifies this
      ensures instance == c
      ensures old(instance) != null ==> c == old(instance)
      ensures old(instance) == null ==>
        fresh(c) && c.mu == mu && c.nu == nu && c.darkCountRate == darkCountRate
    {
      if instance == null {
        instance := new Config(mu, nu, darkCountRate);
      }
      c := instance;
    }

    method GetInstance() returns (c: Config?)
      ensures c == instance
    {
      c := instance;
    }
  }

  /** Signal maps to mu, decoy to nu, vacuum to the dark count rate (so,
      unlike the current revision, a vacuum pulse needs the instance too);
      any other label is a ValueError. */
  function StateTypeToMeanPhotonNumber(config: Config?, stateType: string): (r: Result<real>)
    ensures r.Ok? <==> config != null && (stateType == "signal" || stateType == "decoy" || stateType == "vacuum")
    ensures r.Ok? && stateType == "signal" ==> r.value == config.mu
    ensures r.Ok? && stateType == "decoy" ==> r.value == config.nu
    ensures r.Ok? && stateType == "vacuum" ==> r.value == config.darkCountRate
    ensures r.Err? ==> (r.error.ValueError? <==> !(stateType == "signal" || stateType == "decoy" || stateType == "vacuum"))
  {
    if stateType == "signal" then
      if config == null then Err(AttributeError) else Ok(config.mu)
    else if stateType == "decoy" then
      if config == null then Err(AttributeError) else Ok(config.nu)
    else if stateType == "vacuum" then
      if config == null then Err(AttributeError) else Ok(config.darkCountRate)
    else
      Err(ValueError("Invalid state type"))
  }
}
