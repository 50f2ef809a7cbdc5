# pnfRegistration feature of the NTS simulator, modelled in Dafny

The NTS simulator (`ntsim-ng`) can announce each of its simulated NETCONF
endpoints to a VES collector. When its `pnf-registration` flag is set,
`ves_pnf_registration_feature_start` resolves the address the endpoints are
reached at, then sends one `pnfRegistration` event per SSH endpoint and then
one per TLS endpoint, on consecutive ports. Each event carries a common event
header, numbered by a process-wide sequence counter, and a
`pnfRegistrationFields` object. That object describes the simulated device
and tells the collector how to connect to the endpoint.

The model has five modules:

- `Wrappers` (`wrappers.dfy`): `Option`, which stands in for a pointer that may be null.
- `Decimal` (`decimal.dfy`): `%d` formatting (`IntToDecimal`) and a parser that inverts it.
- `Json` (`json.dfy`): cJSON objects as ordered member lists. `Lookup` finds
  the first member whose key is exactly equal, as
  `cJSON_GetObjectItemCaseSensitive` does.
- `PnfFields` (`pnf_fields.dfy`): `ves_create_pnf_registration_fields`.
  - `RegistrationFields` is the object the builder produces.
  - `BuiltFields` says what the builder returns for each pattern of
    allocation failures and MAC draws.
  - `CreateRegistrationFields`, `FillTopFields` and `FillAdditionalFields`
    are the builder itself, written step by step as in the C code.
- `PnfRegistration` (`pnf_registration.dfy`): the feature start and the sends.
  - The class `Registrar` holds `ves_pnf_sequence_number`. Its methods
    `FeatureStart`, `SendPhase` (one of the two loops) and `Send` update it
    in place.
  - The functions `SendEffect`, `PlannedAttempts` and `Dispatch` specify what
    the methods do. The lemmas state what follows from them.

Every outside effect is an input:

- the result of reading the enable flag (`FlagRead`);
- the addressing mode (`hostMapping`);
- the environment facts (`Environment`);
- for each send, a `SendWorld`. It gives:
  - the outcome of each fallible cJSON operation of the send and of the
    builder, numbered in the order the code performs them;
  - the random MAC address, or its absence;
  - whether the collector's details were available;
  - whether the HTTP POST succeeded.

`FeatureStart` returns the status code and the trace of `Attempt`s. Each
attempt records:

- the port and protocol of the send;
- the header request it made, if the send got that far;
- the fields object it built, if the send got that far;
- whether the event was delivered.

Two details of the code shape the model:

- The counter is reset at line 42, before the enable flag is read. So the
  reset also happens when the feature is disabled or the flag cannot be read,
  not only on an enabled start.
- Line 284 does not check whether attaching `additionalFields` succeeds. If
  only that step fails, the builder returns the object without
  `additionalFields` rather than null. See
  `PnfFields.UncheckedAttachDropsAdditionalFields`.

## Model

| member | source | states |
|---|---|---|
| Decimal.DecimalRoundTrip | ntsimulator/ntsim-ng/features/ves_pnf_registration/ves_pnf_registration.c:286-287 | the `%d` text of every int, negative ones included, parses back to that int |
| Decimal.DecimalInjective | ntsimulator/ntsim-ng/features/ves_pnf_registration/ves_pnf_registration.c:128 | two different ints never print as the same `%d` text |
| PnfFields.CreateRegistrationFields | ntsimulator/ntsim-ng/features/ves_pnf_registration/ves_pnf_registration.c:183-379 | the builder returns an object exactly when the MAC draw and every checked cJSON operation succeed; it is then the full object, or the object without `additionalFields` when the unchecked attach fails; otherwise it returns null |
| PnfFields.FillTopFields | ntsimulator/ntsim-ng/features/ves_pnf_registration/ves_pnf_registration.c:194-276 | adding the twelve descriptive members succeeds exactly when every addition and the MAC draw succeed, and yields `TopFields` in order |
| PnfFields.FillAdditionalFields | ntsimulator/ntsim-ng/features/ves_pnf_registration/ves_pnf_registration.c:286-376 | filling `additionalFields` succeeds exactly when all eleven additions succeed, and yields the members for the chosen protocol in order |
| PnfFields.RegistrationFieldsOrder | ntsimulator/ntsim-ng/features/ves_pnf_registration/ves_pnf_registration.c:194-284 | the object's keys are the twelve fixed keys in their fixed order, followed by `additionalFields` |
| PnfFields.TopFieldsOrder | ntsimulator/ntsim-ng/features/ves_pnf_registration/ves_pnf_registration.c:194-276 | the members before `additionalFields` carry exactly the twelve fixed keys, in order |
| PnfFields.RegistrationFieldsUnique | ntsimulator/ntsim-ng/features/ves_pnf_registration/ves_pnf_registration.c:194-284 | no key of the object occurs twice |
| PnfFields.AdditionalFieldsOrder | ntsimulator/ntsim-ng/features/ves_pnf_registration/ves_pnf_registration.c:289-376 | the keys of `additionalFields` are `oamPort`, `protocol`, `username`, then `keyId` for TLS or `password` for SSH, then the seven tuning keys |
| PnfFields.AdditionalFieldsUnique | ntsimulator/ntsim-ng/features/ves_pnf_registration/ves_pnf_registration.c:289-376 | no key of `additionalFields` occurs twice |
| PnfFields.RegistrationFieldValues | ntsimulator/ntsim-ng/features/ves_pnf_registration/ves_pnf_registration.c:194-284 | the value of each key: the fixed version, date, model, IPv6, software, family, type and vendor strings; the drawn MAC; the resolved address as `oamV4IpAddress`; the serial number `host-ip-port-Simulated Device Melacon`; and the nested object |
| PnfFields.AdditionalFieldValues | ntsimulator/ntsim-ng/features/ves_pnf_registration/ves_pnf_registration.c:286-376 | `oamPort` is the port in decimal, `username` is `netconf`, and the seven tuning members hold their fixed string values for both protocols |
| PnfFields.TuningFieldValues | ntsimulator/ntsim-ng/features/ves_pnf_registration/ves_pnf_registration.c:336-376 | the tuning members hold `false`, `1.5`, `false`, `20000`, `100`, `2000` and `120` |
| PnfFields.TuningFieldsReadBack | ntsimulator/ntsim-ng/features/ves_pnf_registration/ves_pnf_registration.c:289-376 | in `additionalFields`, a tuning key finds the same value as in the tuning list alone, whatever the protocol members before it |
| PnfFields.CredentialsByProtocol | ntsimulator/ntsim-ng/features/ves_pnf_registration/ves_pnf_registration.c:295-334 | TLS gives `protocol` `TLS`, a `keyId` naming the key and no `password`; SSH gives `protocol` `SSH`, `password` `netconf` and no `keyId` |
| PnfFields.ProtocolsDifferOnlyInCredentials | ntsimulator/ntsim-ng/features/ves_pnf_registration/ves_pnf_registration.c:295-334 | for one port, the TLS and SSH member lists have the same length and agree everywhere except the protocol and credential positions, where they differ |
| PnfFields.OamPortReadsBack | ntsimulator/ntsim-ng/features/ves_pnf_registration/ves_pnf_registration.c:286-289 | the `oamPort` text is the port's `%d` text, and it parses back to the port |
| PnfFields.SerialNumbersDistinct | ntsimulator/ntsim-ng/features/ves_pnf_registration/ves_pnf_registration.c:245-246 | two ports of one host and address never get the same serial number |
| PnfFields.AddressField | ntsimulator/ntsim-ng/features/ves_pnf_registration/ves_pnf_registration.c:233-237 | `oamV4IpAddress` carries the address the builder was given, whatever its family |
| PnfFields.UncheckedAttachDropsAdditionalFields | ntsimulator/ntsim-ng/features/ves_pnf_registration/ves_pnf_registration.c:278-284 | when only the attach of `additionalFields` fails, the builder still returns an object, with just the twelve top-level keys and no `additionalFields` |
| PnfFields.CompleteBuild | ntsimulator/ntsim-ng/features/ves_pnf_registration/ves_pnf_registration.c:183-379 | when every operation and the MAC draw succeed, the builder returns the complete object |
| PnfRegistration.Registrar.constructor | ntsimulator/ntsim-ng/features/ves_pnf_registration/ves_pnf_registration.c:34 | the counter starts at 0 |
| PnfRegistration.Registrar.Send | ntsimulator/ntsim-ng/features/ves_pnf_registration/ves_pnf_registration.c:103-181 | a send's result is `SendEffect`. The header gets the counter's value from before the increment. The counter goes up by one exactly when the three steps before the header builder succeed, including when a later step fails |
| PnfRegistration.Registrar.SendPhase | ntsimulator/ntsim-ng/features/ves_pnf_registration/ves_pnf_registration.c:82-97 | one loop makes `max(0, count)` sends; the port offset advances after every send, whatever its outcome; the trace and the counter extend the planned attempts |
| PnfRegistration.Registrar.FeatureStart | ntsimulator/ntsim-ng/features/ves_pnf_registration/ves_pnf_registration.c:39-100 | a flag read error returns failure; a missing or false flag returns OK with no sends; an enabled start returns OK after exactly the planned sends. The counter ends at 0 plus the numbers taken, so it is reset even when nothing is sent |
| PnfRegistration.AddressDependsOnlyOnMode | ntsimulator/ntsim-ng/features/ves_pnf_registration/ves_pnf_registration.c:62-80 | host mapping uses only the host address and base port; otherwise only the IPv6 flag and the two addresses matter, and the port is `STANDARD_NETCONF_PORT` |
| PnfRegistration.SourceNamesDistinct | ntsimulator/ntsim-ng/features/ves_pnf_registration/ves_pnf_registration.c:126-128 | two ports of one host never get the same `host_port` source name |
| PnfRegistration.PlannedHeaderAt | ntsimulator/ntsim-ng/features/ves_pnf_registration/ves_pnf_registration.c:107-130 | attempt k calls the header builder exactly when its first three steps succeed, with source name `host_(base+k)` and the count of numbers the earlier sends took |
| PnfRegistration.PlannedFieldsAt | ntsimulator/ntsim-ng/features/ves_pnf_registration/ves_pnf_registration.c:137-143 | attempt k builds fields exactly when the header steps succeed, and then for port `base+k`, the protocol of its phase and its own failure pattern |
| PnfRegistration.PlannedEndpointAt | ntsimulator/ntsim-ng/features/ves_pnf_registration/ves_pnf_registration.c:82-97 | attempt k is for port `base+k`, uses TLS exactly when k is at least the SSH count, and is delivered exactly when its own steps all succeed |
| PnfRegistration.DispatchEndpoints | ntsimulator/ntsim-ng/features/ves_pnf_registration/ves_pnf_registration.c:82-99 | an enabled start makes `max(0,ssh) + max(0,tls)` attempts on consecutive ports from the resolved base, SSH first; each attempt's delivery depends on that attempt alone |
| PnfRegistration.ConsumedBeforeAll | ntsimulator/ntsim-ng/features/ves_pnf_registration/ves_pnf_registration.c:130 | when every send reaches the header builder, the first n sends take n numbers |
| PnfRegistration.ConsumedBeforeIncreases | ntsimulator/ntsim-ng/features/ves_pnf_registration/ves_pnf_registration.c:130 | a send that takes a number leaves every later send a strictly larger one |
| PnfRegistration.SequenceNumbersFromZero | ntsimulator/ntsim-ng/features/ves_pnf_registration/ves_pnf_registration.c:42-130 | with no failure before the header builder, the headers of a start carry 0, 1, ..., N+M-1 in order |
| PnfRegistration.HeadersDistinct | ntsimulator/ntsim-ng/features/ves_pnf_registration/ves_pnf_registration.c:126-130 | whatever fails, any two headers of one start carry strictly increasing sequence numbers and different source names |
| PnfRegistration.PlannedHeadersDistinct | ntsimulator/ntsim-ng/features/ves_pnf_registration/ves_pnf_registration.c:126-130 | the same for the first n attempts from any base port |
| PnfRegistration.DispatchFields | ntsimulator/ntsim-ng/features/ves_pnf_registration/ves_pnf_registration.c:62-143 | in an enabled start, the fields object of attempt k is the builder's result for the resolved address, port `base+k` and the protocol of its phase |
| PnfRegistration.AdvertisedAddress | ntsimulator/ntsim-ng/features/ves_pnf_registration/ves_pnf_registration.c:67-80 | a send that succeeds in full advertises the resolved address as `oamV4IpAddress`; without host mapping and with IPv6 enabled, that is the IPv6 address |

## Left out

- Sysrepo access is not modelled. The results of `sr_get_item` (line 47) and
  `nts_mount_point_addressing_method_get` (line 62) are inputs.
- The collector side is not modelled. The outcomes of
  `ves_endpoint_details_get` and `http_request` (lines 164-178) are inputs.
- The envelope that lines 107-154 build around the event,
  `{"event": {"commonEventHeader": ..., "pnfRegistrationFields": ...}}`, is
  not modelled as a JSON value. An `Attempt` records the header builder's
  arguments and the fields object side by side, and whether the steps that
  create and attach the envelope's parts succeeded is an input.
- The content of the header that `ves_create_common_event_header` builds is
  not modelled. That function is not part of this model; only its arguments
  are recorded.
- `rand_mac_address` (line 206) is randomness. It is an input that may be absent.
- cJSON's memory handling (`cJSON_Delete`, `free`) is not modelled. Nor are
  the bytes `cJSON_PrintUnformatted` writes; only whether that call succeeds
  is an input.
- Logging is not modelled.
- `STANDARD_NETCONF_PORT` is defined in a header that is not part of this
  model. It is taken as 830, the NETCONF-over-SSH port of RFC 6242.
- `KS_KEY_NAME` is defined in a header that is not part of this model. It is
  the parameter `keyName`.
- The fixed-size buffers are not modelled: `nf_ip_address[128]`,
  `source_name[100]`, `serial_number[512]` and `port_string[10]`. Strings are
  unbounded, so an overlong hostname or address, or a port text longer than
  nine characters, has no overflow in the model.
- Integers are unbounded. The model does not capture 32-bit wrap-around of
  `nf_port + port` or of the sequence counter.
- Concurrency on the global counter is not modelled. Calls are taken one at a time.
