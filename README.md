# QingStor SDK configuration, modelled in Dafny

This project models the configuration record of the QingStor object-storage
SDK client (`Config`), its default values, its two-credential constructor, its
validator `check`, and the `Service` handle whose `init` validates a
configuration in place before keeping a reference to it.

- `results.dfy` — module `Results`: `Option` and `Result`, standing for Rust's
  `Option` and `Result`.
- `config.dfy` — module `Config`: `Protocol`, `ConfigError` and its message and
  display text, `ConfigData` (the value a configuration object holds), the
  defaults, the validator as a pure function `CheckSpec` with the lemmas about
  it, and the class `Config`, whose fields are updated in place by `Check`.
- `service.dfy` — module `Qingstor`: the class `Service` and `Service.Init`.

`port` has type `u16` (0 to 65535) and `connection_retries` type `i32`, as in
the Rust struct. The validator is specified twice over: `CheckSpec` follows
`Config::check`'s three emptiness tests and its port match, and `FirstEmpty` is an
independent reference definition ("the first required field whose value is
empty"); `CheckReportsFirstEmpty` proves the two agree. The in-place method
`Config.Check` is proved to produce exactly the result and the new value that
`CheckSpec` gives for the value the object held before the call. `Service.Init`
is proved against the same function.

## Model

| member | source | states |
|---|---|---|
| `Config.Defaults` | src/config.rs:52-66 | the default record: empty credentials, host `qingstor.com`, port 0, protocol HTTPS, 3 connection retries, empty user agent, log level `INFO` |
| `Config.Config.Default` | src/config.rs:53-66 | a default-constructed object holds exactly the default record |
| `Config.Config.New` | src/config.rs:71-77 | a fresh object equal to the default record in every field except the two credentials, which are the arguments |
| `Config.Missing` | src/config.rs:21-24 | the message of `missing(f)` has the form `field "<f>" cannot be empty`, and the field name `f` can be read back from it |
| `Config.MissingInjective` | src/config.rs:21-24 | two missing-field errors are equal exactly when they name the same field |
| `Config.Display` | src/config.rs:27-31 | the displayed text is `Config error: ` followed by the message |
| `Config.DisplayInjective` | src/config.rs:27-31 | two errors display alike exactly when they are the same error |
| `Config.MissingText` | src/config.rs:22-29 | for every field name `f`, the displayed text of `missing(f)` is `Config error: field "<f>" cannot be empty` |
| `Config.PortFor` | src/config.rs:103-106 | the port is 80 exactly for HTTP and 443 exactly for HTTPS |
| `Config.FirstEmpty` | src/config.rs:94-102 | reference definition: none is returned exactly when every value is non-empty; otherwise the name of an empty field all of whose predecessors are non-empty |
| `Config.CheckSpec` | src/config.rs:93-108 | validation succeeds exactly when access key, secret key and host are all non-empty; on failure the value is unchanged; on success only the port changes, to the protocol's port |
| `Config.CheckReportsFirstEmpty` | src/config.rs:94-102 | the error reported is `missing` of the first empty field in the order access key, secret key, host, and success means there is none |
| `Config.CheckOrder` | src/config.rs:94-102 | an empty access key is reported whatever else holds; the secret key only when the access key is set; the host only when both credentials are set |
| `Config.CheckErrorNamesEmptyField` | src/config.rs:94-102 | every error's message names one of the three required fields, and that field is empty |
| `Config.CheckSetsPort` | src/config.rs:103-106 | after success the port is 80 for HTTP and 443 for HTTPS, whatever it held before |
| `Config.CheckIdempotent` | src/config.rs:93-108 | validating the result of a validation gives the same result and the same value |
| `Config.DefaultsFailCheck` | src/config.rs:132-136 | the default configuration fails validation with `missing("access_key_id")` and is left unchanged |
| `Config.NewPassesCheck` | src/config.rs:71-77 | a configuration built from two credentials passes exactly when both are non-empty, and then has port 443 |
| `Config.SampleDocumentPasses` | src/config.rs:119-129 | the record of the test document (credentials set, protocol HTTPS, other fields defaulted) validates to port 443 |
| `Config.Config.Check` | src/config.rs:93-108 | the result and the new value are those `CheckSpec` gives for the old value; on error nothing changes; on success only the port changes; only `port` may be written |
| `Qingstor.Service.constructor` | src/service/qingstor.rs:13-15 | the service refers to the given configuration object |
| `Qingstor.Service.Init` | src/service/qingstor.rs:11-16 | fails exactly when validation of the config would fail, with the same error and the config unchanged; on success returns a new service referring to the very same config object, whose port now follows its protocol and whose other fields are unchanged |

## Left out

- `Config::load_from_file` and `Config::load_from_str`: YAML parsing is done by the `serde_yaml` library and file opening is I/O; neither is modelled. `SampleDocumentPasses` states the record such a load is expected to yield for the test document, assuming the deserializer's "absent key takes its default" behaviour.
- The lower-case (`http`, `https`) names of `Protocol` and the `serde(default)` behaviour belong to the deserializer and are not modelled.
- `Service::init`'s error is a boxed `dyn Error`; the only error that can reach it is a `ConfigError`, so the model returns a `ConfigError`. The `std::error::Error` impl and `Debug` derives are not modelled.
- The lifetime `'a` tying a `Service` to its `Config`, and the borrow rules that forbid mutating the config while a service refers to it, are not modelled; the model keeps only the reference.
- `connection_retries`, `additional_user_agent` and `log_level` are never read by the core; they are kept as fields only so that their being unchanged can be stated.
- The tests' temporary file under `/tmp`, the `println!` output and the missing-file test (which exercises file loading) are not modelled.
