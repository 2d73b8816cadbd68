/** The SDK client's configuration record, its defaults and its validator. */
module Config {
  import opened Results

  /** Rust's `u16`, the type of the port field. */
  newtype u16 = x: int | 0 <= x < 0x1_0000

  /** Rust's `i32`, the type of the retry counter. */
  newtype i32 = x: int | -0x8000_0000 <= x < 0x8000_0000

  /** Transport scheme of the endpoint. */
  datatype Protocol = HTTP | HTTPS

  /** A validation error; it carries the human-readable message only. */
  datatype ConfigError = ConfigError(msg: string)

  const MissingPrefix: string := "field \""
  const MissingSuffix: string := "\" cannot be empty"
  const DisplayPrefix: string := "Config error: "

  /** The error for a required text field that is empty; its message names the field. */
  function Missing(field: string): (e: ConfigError)
    ensures FieldOf(e.msg) == Some(field)
  {
    ConfigError(MissingPrefix + field + MissingSuffix)
  }

  /** The field name a "cannot be empty" message speaks of, if the message has that form. */
  function FieldOf(msg: string): (r: Option<string>)
    ensures r.Some? ==> |msg| == |MissingPrefix| + |r.value| + |MissingSuffix|
  {
    if |msg| >= |MissingPrefix| + |MissingSuffix|
       && msg[..|MissingPrefix|] == MissingPrefix
       && msg[|msg| - |MissingSuffix|..] == MissingSuffix
    then Some(msg[|MissingPrefix|..|msg| - |MissingSuffix|])
    else None
  }

  /** The error as it is displayed to the user. */
  function Display(e: ConfigError): (s: string)
    ensures |s| == |DisplayPrefix| + |e.msg|
    ensures s[..|DisplayPrefix|] == DisplayPrefix && s[|DisplayPrefix|..] == e.msg
  {
    DisplayPrefix + e.msg
  }

  /** Displaying loses nothing: two errors that display alike are the same error. */
  lemma DisplayInjective(e1: ConfigError, e2: ConfigError)
    ensures Display(e1) == Display(e2) <==> e1 == e2
  {
  }

  /** Two missing-field errors are equal exactly when they name the same field. */
  lemma MissingInjective(f1: string, f2: string)
    ensures Missing(f1) == Missing(f2) <==> f1 == f2
  {
    assert FieldOf(Missing(f1).msg) == Some(f1);
    assert FieldOf(Missing(f2).msg) == Some(f2);
  }

  /** The full text a missing-field error displays as. */
  lemma MissingText(field: string)
    ensures Display(Missing(field)) == "Config error: field \"" + field + "\" cannot be empty"
  {
  }

  /** The value held by a configuration object, field by field. */
  datatype ConfigData = ConfigData(
    access_key_id: string,
    secret_access_key: string,
    host: string,
    port: u16,
    connection_retries: i32,
    additional_user_agent: string,
    log_level: string,
    protocol: Protocol)

  /** The default configuration. */
  function Defaults(): (d: ConfigData)
    ensures d.access_key_id == "" && d.secret_access_key == ""
    ensures d.host == "qingstor.com" && d.port == 0 && d.protocol == HTTPS
    ensures d.connection_retries == 3 && d.additional_user_agent == "" && d.log_level == "INFO"
  {
    ConfigData("", "", "qingstor.com", 0, 3, "", "INFO", HTTPS)
  }

  /** The port a validated configuration uses for its protocol. */
  function PortFor(p: Protocol): (port: u16)
    ensures port == 80 <==> p == HTTP
    ensures port == 443 <==> p == HTTPS
  {
    match p
    case HTTP => 80
    case HTTPS => 443
  }

  /** The required text fields, named, in the order validation examines them. */
  function RequiredFields(c: ConfigData): seq<(string, string)>
  {
    [("access_key_id", c.access_key_id), ("secret_access_key", c.secret_access_key), ("host", c.host)]
  }

  /** Reference definition: the name of the first (name, value) pair whose value is empty. */
  function FirstEmpty(fields: seq<(string, string)>): (r: Option<string>)
    ensures r.None? <==> forall i :: 0 <= i < |fields| ==> fields[i].1 != ""
    ensures r.Some? ==>
      exists i :: 0 <= i < |fields| && fields[i].0 == r.value && fields[i].1 == ""
        && forall j :: 0 <= j < i ==> fields[j].1 != ""
  {
    if fields == [] then None
    else if fields[0].1 == "" then Some(fields[0].0)
    else
      var r := FirstEmpty(fields[1..]);
      assert forall i :: 1 <= i < |fields| ==> fields[i] == fields[1..][i - 1];
      r
  }

  /** What one validation call on a configuration yields: its result and the new value. */
  datatype Checked = Checked(result: Result<(), ConfigError>, config: ConfigData)

  /** Validation as `Config::check` performs it: three emptiness tests in order, then the port. */
  function CheckSpec(c: ConfigData): (out: Checked)
    ensures out.result.Ok? <==> c.access_key_id != "" && c.secret_access_key != "" && c.host != ""
    ensures out.result.Err? ==> out.config == c
    ensures out.result.Ok? ==> out.config == c.(port := PortFor(c.protocol))
  {
    if |c.access_key_id| == 0 then Checked(Err(Missing("access_key_id")), c)
    else if |c.secret_access_key| == 0 then Checked(Err(Missing("secret_access_key")), c)
    else if |c.host| == 0 then Checked(Err(Missing("host")), c)
    else Checked(Ok(()), c.(port := PortFor(c.protocol)))
  }

  /** Validation reports exactly the first empty required field, and succeeds when there is none. */
  lemma CheckReportsFirstEmpty(c: ConfigData)
    ensures CheckSpec(c).result ==
      match FirstEmpty(RequiredFields(c))
      case None => Ok(())
      case Some(f) => Err(Missing(f))
  {
    var fs := RequiredFields(c);
    if c.access_key_id != "" {
      assert FirstEmpty(fs) == FirstEmpty(fs[1..]);
      if c.secret_access_key != "" {
        assert FirstEmpty(fs[1..]) == FirstEmpty(fs[2..]);
      }
    }
  }

  /** The order of the three tests: a later field is reported only once the earlier ones pass. */
  lemma CheckOrder(c: ConfigData)
    ensures c.access_key_id == "" ==> CheckSpec(c).result == Err(Missing("access_key_id"))
    ensures c.access_key_id != "" && c.secret_access_key == "" ==>
      CheckSpec(c).result == Err(Missing("secret_access_key"))
    ensures c.access_key_id != "" && c.secret_access_key != "" && c.host == "" ==>
      CheckSpec(c).result == Err(Missing("host"))
  {
  }

  /** Every error validation reports names a required field that is empty. */
  lemma CheckErrorNamesEmptyField(c: ConfigData)
    ensures CheckSpec(c).result.Err? ==>
      exists i :: 0 <= i < |RequiredFields(c)| && RequiredFields(c)[i].1 == ""
        && FieldOf(CheckSpec(c).result.error.msg) == Some(RequiredFields(c)[i].0)
  {
    CheckReportsFirstEmpty(c);
    var fe := FirstEmpty(RequiredFields(c));
    if fe.Some? {
      assert FieldOf(Missing(fe.value).msg) == Some(fe.value);
    }
  }

  /** After a successful validation the port follows the protocol, whatever it held before. */
  lemma CheckSetsPort(c: ConfigData)
    requires CheckSpec(c).result.Ok?
    ensures CheckSpec(c).config.port == (if c.protocol == HTTP then 80 else 443)
  {
  }

  /** Validating a second time gives the same result and leaves the same value. */
  lemma CheckIdempotent(c: ConfigData)
    ensures CheckSpec(CheckSpec(c).config) == CheckSpec(c)
  {
  }

  /** The default configuration fails validation, on the access key. */
  lemma DefaultsFailCheck()
    ensures CheckSpec(Defaults()) == Checked(Err(Missing("access_key_id")), Defaults())
  {
  }

  /** A configuration built from two credentials passes exactly when both are non-empty. */
  lemma NewPassesCheck(access_key_id: string, secret_access_key: string)
    ensures var c := Defaults().(access_key_id := access_key_id, secret_access_key := secret_access_key);
      (CheckSpec(c).result.Ok? <==> access_key_id != "" && secret_access_key != "")
      && (CheckSpec(c).result.Ok? ==> CheckSpec(c).config.port == 443)
  {
  }

  /** The record the test document yields (absent keys defaulted) validates to port 443. */
  lemma SampleDocumentPasses()
    ensures var c := Defaults().(access_key_id := "access_key", secret_access_key := "secret", protocol := HTTPS);
      CheckSpec(c) == Checked(Ok(()), c.(port := 443))
  {
  }

  /** A configuration object, whose validator updates it in place. */
  class Config {
    var access_key_id: string
    var secret_access_key: string
    var host: string
    var port: u16
    var connection_retries: i32
    var additional_user_agent: string
    var log_level: string
    var protocol: Protocol

    /** The object's current value. */
    function Value(): ConfigData
      reads this
    {
      ConfigData(access_key_id, secret_access_key, host, port,
                 connection_retries, additional_user_agent, log_level, protocol)
    }

    /** A configuration holding the default values. */
    constructor Default()
      ensures Value() == Defaults()
    {
      access_key_id := "";
      secret_access_key := "";
      host := "qingstor.com";
      port := 0;
      protocol := HTTPS;
      connection_retries := 3;
      additional_user_agent := "";
      log_level := "INFO";
    }

    /** A default configuration with the two credentials set. */
    static method New(access_key_id: string, secret_access_key: string) returns (c: Config)
      ensures fresh(c)
      ensures c.Value() == Defaults().(access_key_id := access_key_id, secret_access_key := secret_access_key)
    {
      c := new Config.Default();
      c.access_key_id := access_key_id;
      c.secret_access_key := secret_access_key;
    }

    /** Validates the configuration; on success it sets the port from the protocol. */
    method Check() returns (r: Result<(), ConfigError>)
      modifies this`port
      ensures Checked(r, Value()) == CheckSpec(old(Value()))
      ensures r.Err? ==> Value() == old(Value())
      ensures r.Ok? ==> Value() == old(Value()).(port := PortFor(protocol))
    {
      if |access_key_id| == 0 {
        return Err(Missing("access_key_id"));
      }
      if |secret_access_key| == 0 {
        return Err(Missing("secret_access_key"));
      }
      if |host| == 0 {
        return Err(Missing("host"));
      }
      port := PortFor(protocol);
      return Ok(());
    }
  }
}
