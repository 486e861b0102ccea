# OpenSLP daemon configuration snapshot

This project models the start-up configuration step of the OpenSLP daemon `slpd`.
`SLPDPropertyInit` loads the SLP property store from the configuration file. It then
fills the process-wide record `G_SlpdProperty`, which every other part of the daemon
reads. `SLPDPropertyDeinit` releases the record's owned strings and the store.

`SLPDPropertyInit` applies these rules:

- Role flags, timers, result limits and trace flags are read from named properties.
- The active Directory Agent (DA) discovery interval is clamped. When active discovery
  is off, the interval is forced to 0.
- The DA addresses, scope list and locale are duplicated. The length of each present
  string is cached beside it.
- An address family is chosen from the IPv4 and IPv6 capability probes.
- The configured interface list is resolved. On success it is rendered back into
  `net.slp.interfaces` and cached.
- The agent's URL prefix is derived from its role: `service:directory-agent://` or
  `service:service-agent://`, the DA and SA advert URL schemes of RFC 2608
  (sections 8.5 and 8.6).
- The boot timestamp and the seeds of the discovery schedule are set.

Files:

- `wrappers.dfy`: `Option`, standing for a nullable `char *`.
- `properties.dfy`: the property store. It is a `map<string, string>` with the accessors
  `AsBoolean`, `AsInteger` and `XDup`. The class `PropertyStore` handles loading,
  `Set` and `Cleanup`.
- `slpd_property.dfy`: the `SLPDProperty` record as the datatype `SlpdProperty`. It also
  holds the rules as functions and the specification function `Derive` (store and
  probes in, record and updated store out). The class `Globals` holds the global
  record; its method `Init` follows the C code statement by statement and is proved to
  produce exactly `Derive`'s result.

Collaborators that the daemon calls are inputs of `Init`:

- the result of parsing the configuration file (`Option<Store>`, `None` when
  `SLPPropertyInit` fails);
- the two probes `SLPNetIsIPV4` and `SLPNetIsIPV6` (booleans);
- the interface resolver `SLPIfaceGetInfo` (a function from the requested list and the
  family to a status and an interface list);
- the renderer `SLPIfaceSockaddrsToString` (a function to an optional string);
- `time(0)` (an integer).

The property accessors come from slp_property.c, which is not part of this model. The
model reads them as follows:

- A boolean is true when the text starts with `t`, `T`, `y`, `Y` or `1`.
- An integer is read as C's `atoi` reads it.
- An absent property reads as false, 0 or null.

`SLPD_CONFIG_DA_FIND` comes from slpd.h, which is not part of this model either. It is
taken as 900 seconds. The clamp's contracts are stated through `Admissible` and do not
depend on the particular value.

The model follows the code as written:

- The clamp test is `> 1 && < SLPD_CONFIG_DA_FIND`, so an interval of exactly 1, 0 or a
  negative value is kept unchanged. Only values strictly between 1 and the minimum are
  raised.
- When neither IPv4 nor IPv6 is available, the family simply stays `AF_UNSPEC`. This is
  not an error.
- `sts` (line 122) is not declared in the code as written. It is modelled as a local
  integer holding the resolver's status.

## Model

| member | source | states |
|---|---|---|
| `Properties.AsBoolean` | openslp/slpd/slpd_property.c:73-74 | a property reads as true only if it is present with a non-empty text |
| `Properties.Atoi` | openslp/slpd/slpd_property.c:78 | a text with no decimal digit reads as 0 |
| `Properties.AsInteger` | openslp/slpd/slpd_property.c:88-92 | an absent property reads as 0; a present one is read as `atoi` reads its text |
| `Properties.XDup` | openslp/slpd/slpd_property.c:98 | the duplicate is present exactly when the property is, and then equals its text |
| `Properties.AtoiDecimal` | openslp/slpd/slpd_property.c:78 | the integer accessor reads back every integer from its decimal text (by induction on the digits) |
| `Properties.AsIntegerOfSetDecimal` | openslp/slpd/slpd_property.c:78 | writing an integer's decimal text under a name makes that name read as the integer; other names read as before |
| `Properties.PropertyStore.Load` | openslp/slpd/slpd_property.c:67-68 | status 0 and the parsed properties on success; a non-zero status and the old store on failure |
| `Properties.PropertyStore.Set` | openslp/slpd/slpd_property.c:131 | only the named entry changes, and it reads back as the value written |
| `Properties.PropertyStore.Cleanup` | openslp/slpd/slpd_property.c:163 | the store is emptied |
| `Slpd.Zero` | openslp/slpd/slpd_property.c:70 | the zeroed record has an admissible interval and the four owned strings null with length 0. It is not yet consistent, because its URL prefix is empty |
| `Slpd.ClampInterval` | openslp/slpd/slpd_property.c:79-81 | the result is never strictly between 1 and DA_FIND and never below the input; it is the least such value at or above the input; an admissible input is kept |
| `Slpd.ClampIdempotent` | openslp/slpd/slpd_property.c:79-81 | clamping twice equals clamping once |
| `Slpd.DiscoveryInterval` | openslp/slpd/slpd_property.c:76-84 | with active discovery off the interval is 0 whatever was configured; with it on, an admissible value is kept and any other becomes DA_FIND |
| `Slpd.ChooseFamily` | openslp/slpd/slpd_property.c:114-119 | AF_UNSPEC exactly when both probes agree (both or neither, the latter keeping the initial value of line 64); AF_INET exactly for IPv4 only; AF_INET6 exactly for IPv6 only |
| `Slpd.UrlPrefix` | openslp/slpd/slpd_property.c:138-140 | the prefix is the role's RFC 2608 scheme followed by "://", three characters longer than the scheme, and starts with "service:" |
| `Slpd.UrlPrefixDeterminesRole` | openslp/slpd/slpd_property.c:138 | a DA and an SA never share a URL prefix |
| `Slpd.Resolution` | openslp/slpd/slpd_property.c:121-122 | the resolver is asked for the configured `net.slp.interfaces` text, or null when it is unset, with the family chosen from the probes |
| `Slpd.BoundInterfaces` | openslp/slpd/slpd_property.c:125-134 | an interface list is cached exactly when the resolver returns status 0 and the rendering succeeds, and it is then the rendered text |
| `Slpd.WithDiscovery` | openslp/slpd/slpd_property.c:73-84 | both role flags come from their properties; the interval is admissible, 0 when active discovery is off, and the clamped configured value when it is on |
| `Slpd.WithStrings` | openslp/slpd/slpd_property.c:98-107 | each owned string is the store's duplicate; a present one caches its own length; an absent one keeps the earlier length, which is 0 only because of the reset at line 70 |
| `Slpd.WithInterfaces` | openslp/slpd/slpd_property.c:113-135 | the resolver's list is stored in `ifaceInfo`; on success the rendered list is cached with its length and written into `net.slp.interfaces`; on failure the cached interface pair and the store are unchanged; no other field of the record changes |
| `Slpd.Derive` | openslp/slpd/slpd_property.c:60-153 | every field read from the store holds that property's reading: both role flags, the interval under its rule, the eleven settings, the three owned strings and the security fields; the snapshot is consistent (admissible interval, 0 when discovery is off, (null, 0) or (s, \|s\|) for every owned string, URL prefix fixed by isDA alone); the schedule is seeded (32-bit boot time, 3 forced transmissions, both deadlines 0); the resolver's list is kept; the cached interface list is the resolver/renderer outcome; the store afterwards is exactly the loaded store with `net.slp.interfaces` overwritten by that list, or the loaded store unchanged when none was bound |
| `Slpd.EarlyStagesPrepare` | openslp/slpd/slpd_property.c:70-111 | starting from the zeroed record, the reads leave an admissible interval, each owned string with its length, no interface list yet, and every read field holding its reading |
| `Slpd.LaterStagesFinish` | openslp/slpd/slpd_property.c:113-150 | the interface binding, URL prefix and schedule stages make a prepared record consistent and seeded, keep every reading, and write back exactly the bound list |
| `Slpd.IntervalFromDecimalText` | openslp/slpd/slpd_property.c:76-81 | with active discovery on, an interval `v` written as decimal text ends up as the clamped `v` in the snapshot |
| `Slpd.Globals.constructor` | openslp/slpd/slpd_property.c:50 | the global record starts zero-filled |
| `Slpd.Globals.Init` | openslp/slpd/slpd_property.c:60-153 | when the property subsystem fails: returns -1 and leaves the record untouched (the early return precedes the reset), and the store is left as `Load` leaves it on failure; otherwise: returns 0, and the record and store are exactly `Derive`'s result, whatever the record held before |
| `Slpd.Globals.ReadDiscovery` | openslp/slpd/slpd_property.c:73-84 | the record becomes `WithDiscovery` of the old record |
| `Slpd.Globals.ReadRoles` | openslp/slpd/slpd_property.c:73-74 | only isDA and activeDADetection change, to their properties' readings |
| `Slpd.Globals.ReadInterval` | openslp/slpd/slpd_property.c:76-84 | only the interval changes, to the `DiscoveryInterval` of the flag and the configured value |
| `Slpd.Globals.ReadSettings` | openslp/slpd/slpd_property.c:86-96 | the passive-discovery, broadcast, timer, result-limit and trace fields take their properties' readings |
| `Slpd.Globals.ReadStrings` | openslp/slpd/slpd_property.c:98-107 | the record becomes `WithStrings` of the old record |
| `Slpd.Globals.ReadDAAddresses` | openslp/slpd/slpd_property.c:98-99 | DAAddresses is the duplicate; its length is set only when the duplicate is present |
| `Slpd.Globals.ReadUseScopes` | openslp/slpd/slpd_property.c:103-104 | useScopes is the duplicate; its length is set only when the duplicate is present |
| `Slpd.Globals.ReadLocale` | openslp/slpd/slpd_property.c:106-107 | locale is the duplicate; its length is set only when the duplicate is present |
| `Slpd.Globals.ReadSecurity` | openslp/slpd/slpd_property.c:109-111 | the two security flags and the DA heartbeat take their properties' readings |
| `Slpd.Globals.BindInterfaces` | openslp/slpd/slpd_property.c:113-135 | record and store become `WithInterfaces` of their old values |
| `Slpd.Globals.SetUrlPrefix` | openslp/slpd/slpd_property.c:138-140 | the URL prefix becomes `UrlPrefix(isDA)` with its length |
| `Slpd.Globals.SeedSchedule` | openslp/slpd/slpd_property.c:147-150 | the boot time becomes `now` modulo 2^32; the transmission counter becomes 3; both deadlines become 0 |
| `Slpd.Globals.Deinit` | openslp/slpd/slpd_property.c:157-164 | the four owned strings become null; every other field, including the cached lengths, is unchanged; the store is emptied |

## Left out

- openslp/common/slp_logfile.c: the log sink is stdio plumbing (`fopen`, `fclose`, `vfprintf`, `fwrite`, `fflush`, `exit`) on a global `FILE *`, with no logic worth proving beyond "write if a handle is open".
- slp_property.c (loading, parsing and defaulting properties): it is not part of this model. The accessors are the readings described above, and `SLPPropertyInit`'s parse result is an input.
- Properties.PropertyStore.Load: a failed `SLPPropertyInit` is assumed to leave the store as it was. Its code is in slp_property.c, so whether it clears or re-defaults the store before failing is not modelled. `Slpd.Globals.Init`'s store clause on failure rests on this assumption.
- The attribute argument of `SLPPropertySet` (line 131) is not modelled. The store keeps values only.
- `SLPIfaceGetInfo`, `SLPIfaceSockaddrsToString`, `SLPNetIsIPV4` and `SLPNetIsIPV6` are network calls. Their results are inputs. Addresses are abstract values.
- `time(0)`: the wall-clock time is an input. The `uint32_t` cast is modelled as reduction modulo 2^32.
- Memory handling: `memset` is replaced by the all-zero record `Zero()`.
  - The `strcpy`/`strcat` into the `MAX_URLPREFIX_SZ` buffer is modelled as sequence concatenation. The buffer size is not modelled.
  - `xfree` of the temporary interface list is not modelled.
  - `xstrdup` running out of memory is not modelled. An allocation failure would also read as an absent string.
- Slpd.Globals.Deinit: `xfree` leaves dangling pointers in the C record. The model sets the four strings to null, so it does not capture the double free that a second call would cause.
- C `int` width: integers read from the store are unbounded. The overflow behaviour of `atoi` on out-of-range text is not modelled.
- Text encoding: each Dafny `char` of a model string stands for one C `char`, that is one byte of the text. So `|s|` is `strlen(s)` for text without NUL, which a C string cannot hold. Multi-byte encodings such as UTF-8 are not modelled: the model does not follow how a non-ASCII scope list or locale is split into bytes.
- slpd_property.h, which declares `SLPDProperty`, is not part of this model. The record holds exactly the fields that `SLPDPropertyInit` writes. Any other field the header declares is not modelled.
- Step methods: the C record is updated in place field by field. Here it is a datatype value held in one field of `Globals`, and each C assignment is a record update. `Init` runs the code's sections as step methods (`ReadRoles`, `ReadInterval`, …) in the code's order, because proving one long method over the whole record is beyond the verifier's resource limit.
- The commented-out `SLPPropertySet("net.slp.urlPrefix", ...)` at lines 142-144 is dead code.
- Concurrency: the code has no synchronisation, and the model is sequential.
