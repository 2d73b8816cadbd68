/** The QingStor service handle, built from a validated configuration. */
module Qingstor {
  import opened Results
  import opened Config

  /** A service that refers to (and does not own) its configuration. */
  class Service {
    const config: Config

    constructor (c: Config)
      ensures config == c
    {
      config := c;
    }

    /** Validates `c` in place and, on success, returns a service referring to that same object. */
    static method Init(c: Config) returns (r: Result<Service, ConfigError>)
      modifies c`port
      ensures r.Err? <==> CheckSpec(old(c.Value())).result.Err?
      ensures r.Err? ==> r.error == CheckSpec(old(c.Value())).result.error && c.Value() == old(c.Value())
      ensures r.Ok? ==> fresh(r.value) && r.value.config == c
      ensures r.Ok? ==> c.Value() == old(c.Value()).(port := PortFor(c.protocol))
      ensures r.Ok? ==> (c.port == 80 <==> c.protocol == HTTP) && (c.port == 443 <==> c.protocol == HTTPS)
    {
      var checked := c.Check();
      if checked.Err? {
        return Err(checked.error);
      }
      var s := new Service(c);
      return Ok(s);
    }
  }
}
