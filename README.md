# Resolver options and response payload kinds

A Dafny model of two small pieces of a Dubbo codec for Kitex.

The first piece is the option handling of the ZooKeeper resolver:
- the `Options` record has six fields;
- the functional options `WithServers`, `WithInterfaceName`, `WithRegistryGroup`, `WithServiceGroup`, `WithServiceVersion` and `WithSessionTimeout` each set one field;
- `Options.Apply` runs a list of options in order;
- `newOptions` starts from the zero record and applies the options. It panics when no server or no interface name is configured. It fills in the default registry group and the default session timeout.

The second piece is the six `RESPONSE_*` constants. They tell a decoder what a response body holds: an exception, a value or a null value, each with or without an attachment map.

`resolver_options.dfy` (module `ResolverOptions`) has two layers:
- pure specification functions on a `Config` value: `Set` is one setter, `ApplyAll` is the fold over a list, `Finalize` is the validation and defaulting, and `Built` is their composition;
- a class `Options` with the six mutable fields. Its methods `Update`, `Apply` and the module-level `NewOptions` are proved against those functions.

`payload.dfy` (module `PayloadKind`) models the constants. It has a six-variant datatype, its `Code` function and the facts of the table.

Modelling choices:
- `time.Duration` is the `Duration` newtype: a signed 64-bit count of nanoseconds.
- The default session timeout is `3 * Second`. This follows the doc comment on `WithSessionTimeout`.
- `DefaultRegistryGroup` is an uninterpreted string constant, because its value is defined outside the modelled files.
- Each `panic` becomes an `Err` result. The errors are `MissingServers` and `MissingInterfaceName`.
- `FromCode` is a modelling aid for the round-trip facts. The source has no function that classifies a code.

The code checks only that the applied values are empty. The doc comments of `WithServers` ("Please specify at least one server address", options.go:66) and `WithInterfaceName` ("This configuration must be set", options.go:74) speak of supplying the options. The model follows the code: `WithServers()` with no arguments, or `WithInterfaceName("")`, still fails. A server list `[""]` is accepted.

## Model

| member | source | states |
|---|---|---|
| ResolverOptions.FieldsDetermineConfig | registries/zookeeper/resolver/options.go:26-33 | a record is determined by its six fields; `SameFieldLastWins` and `DistinctFieldsCommute` are derived from `SetterFrame` through it |
| ResolverOptions.SetterFrame | registries/zookeeper/resolver/options.go:65-114 | each With* setter writes its argument into its own field and leaves the other five fields unchanged |
| ResolverOptions.SameFieldLastWins | registries/zookeeper/resolver/options.go:67-71 | two setters of the same field leave the second one's value; WithServers replaces the list and does not append |
| ResolverOptions.DistinctFieldsCommute | registries/zookeeper/resolver/options.go:65-114 | setters of different fields give the same record in either order |
| ResolverOptions.ApplyNothing | registries/zookeeper/resolver/options.go:35-39 | applying an empty option list changes nothing |
| ResolverOptions.ApplyAllConcat | registries/zookeeper/resolver/options.go:35-39 | applying `a + b` equals applying `a`, then `b` |
| ResolverOptions.ApplyAllSnoc | registries/zookeeper/resolver/options.go:36-37 | applying one more option runs its setter on the record built so far |
| ResolverOptions.FieldUntouched | registries/zookeeper/resolver/options.go:35-39 | a field that no option in the list writes keeps its initial value |
| ResolverOptions.LastWriterWins | registries/zookeeper/resolver/options.go:35-39 | the last option in the list that writes a field decides that field's value |
| ResolverOptions.Finalize | registries/zookeeper/resolver/options.go:46-57 | fails exactly when servers are empty or the interface name is ""; an empty server list is reported as `MissingServers` first, and an empty name with servers present as `MissingInterfaceName`; on success servers, interface name, service group and version are kept; an empty registry group and a zero timeout are defaulted, other values (even negative timeouts) are kept; the result has servers, an interface name and a non-zero timeout |
| ResolverOptions.FinalizeIdempotent | registries/zookeeper/resolver/options.go:46-58 | validating and defaulting a finalized record returns the same record |
| ResolverOptions.NoServersFails | registries/zookeeper/resolver/options.go:41-48 | without any WithServers, building fails with the missing-servers error, whatever else is supplied |
| ResolverOptions.NoInterfaceNameFails | registries/zookeeper/resolver/options.go:41-51 | without any WithInterfaceName, building fails |
| ResolverOptions.LastServersDecide | registries/zookeeper/resolver/options.go:44-48 | if the last WithServers has an empty list, building fails with missing servers; on success the servers are exactly that last list |
| ResolverOptions.BuiltSucceeds | registries/zookeeper/resolver/options.go:41-59 | when the last WithServers has a non-empty list and the last WithInterfaceName a non-empty name, building succeeds and the record holds that list and that name |
| ResolverOptions.UnsetTimeoutDefaults | registries/zookeeper/resolver/options.go:55-57 | without WithSessionTimeout, a built record's timeout is three seconds |
| ResolverOptions.LastTimeoutDecides | registries/zookeeper/resolver/options.go:55-57 | on success the timeout is the last WithSessionTimeout's value, or the default when that value is zero |
| ResolverOptions.UnsetRegistryGroupDefaults | registries/zookeeper/resolver/options.go:52-54 | without WithRegistryGroup, a built record has the default registry group |
| ResolverOptions.LastRegistryGroupDecides | registries/zookeeper/resolver/options.go:52-54 | on success the registry group is the last WithRegistryGroup's value, or the default when it is "" |
| ResolverOptions.ScenarioDefaults | registries/zookeeper/resolver/options.go:41-59 | one server and one interface name give that record, with the default group, empty service group and version, and a three-second timeout |
| ResolverOptions.ScenarioNoServers | registries/zookeeper/resolver/options.go:46-48 | an interface name alone fails with missing servers |
| ResolverOptions.ScenarioTimeoutOverride | registries/zookeeper/resolver/options.go:55-57 | an explicit ten-second timeout is kept instead of the default |
| ResolverOptions.Options.constructor | registries/zookeeper/resolver/options.go:42 | a new record holds the zero value of every field |
| ResolverOptions.Options.Update | registries/zookeeper/resolver/options.go:65-114 | running one option's setter in place changes the record as `Set` says |
| ResolverOptions.Options.Apply | registries/zookeeper/resolver/options.go:35-39 | the loop leaves the record equal to the fold of the setters over its old value, left to right |
| ResolverOptions.NewOptions | registries/zookeeper/resolver/options.go:41-59 | returns the same error as `Built`, or a fresh record whose value is the one `Built` gives |
| PayloadKind.Code | pkg/dubbo/payload.go:23-30 | every kind's code is an int32 in 0..5 |
| PayloadKind.FromCode | pkg/dubbo/payload.go:23-30 | (modelling aid) a code classifies as a known kind exactly when it is in 0..5, and then that kind has this code; any other code is returned as unknown |
| PayloadKind.CodesInOrder | pkg/dubbo/payload.go:24-29 | the six constants are 0, 1, 2, 3, 4, 5 in the listed order |
| PayloadKind.CodeInjective | pkg/dubbo/payload.go:24-29 | no two kinds share a code |
| PayloadKind.FromCodeOfCode | pkg/dubbo/payload.go:24-29 | reading back a kind's code gives that kind |
| PayloadKind.CodeOfFromCode | pkg/dubbo/payload.go:24-29 | every code in 0..5 is the code of the kind it classifies as |
| PayloadKind.AttachmentsOffset | pkg/dubbo/payload.go:24-29 | each with-attachments constant is its base constant plus 3 (0 to 3, 1 to 4, 2 to 5) |
| PayloadKind.AttachmentsIffHighCode | pkg/dubbo/payload.go:24-29 | a kind carries attachments exactly when its code is 3 or more |
| PayloadKind.OutOfRangeUnknown | pkg/dubbo/payload.go:23-30 | codes 6 and -1 are reported back as unknown |

## Left out

- The ZooKeeper resolver itself is not part of this model: its session, watches, discovery and timeout enforcement are network I/O.
- Option values built directly from a custom `F` closure are not modelled. Only the six With* setters are.
- The value of `defaultRegistryGroup` is not part of this model. It is defined outside the modelled files and appears here as an uninterpreted constant.
- The panic messages and process termination are not modelled. Each panic is an error value naming the missing field.
- `time.Duration` is modelled only as a 64-bit nanosecond count. No duration arithmetic is modelled.
- `WithServers` stores the caller's slice itself (options.go:69), so the record shares the caller's backing array. The model's `seq<string>` is a value and does not capture that aliasing; nothing in the modelled code depends on it.
- The decoder code that reads the payload codes is not part of this model.
