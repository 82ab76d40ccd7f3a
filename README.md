# zeroconf-rs core in Dafny

This project models the logic that zeroconf-rs wraps around the two native mDNS /
DNS-SD daemons it binds to: Avahi on Linux and Bonjour on macOS and Windows. Each
backend exists in two revisions. `avahi/` and `bonjour/` are callback based.
`linux/` and `macos/` are the older ones, which also offer one-shot futures.

The model covers four groups:

- **Service-type strings** (`service_type.dfy`, `bonjour_util.dfy`,
  `macos_bonjour_util.dfy`, `macos_compat.dfy`, `avahi_util.dfy`,
  `linux_avahi_util.dfy`). These cover `ServiceType` construction and its
  `_name._protocol,_sub` string form. Also covered: the Bonjour regtype format and
  parser, `normalize_domain`, and the Avahi `_sub._sub` forms of section 7.1 of
  RFC 6763. These are pure functions with lemmas: round trips, prefix rules and
  error cases.
- **Conversions and return codes.** These are the interface index mappings,
  including the wrapping `u32`/`i32` cast on Avahi, and `sys_exec`. Also covered:
  the poll timeout clamp and the `iterate` code mapping (`avahi_poll.dfy`).
- **The resolver set** (`avahi_resolver.dfy`, `linux_resolver.dfy`). It is a class
  over a `map` from native handle to resolver, with `insert` and `remove_raw`.
- **The callback state machines** of every browser and service
  (`avahi_browser.dfy`, `linux_browser.dfy`, `bonjour_browser.dfy`,
  `macos_browser.dfy`, `avahi_service.dfy`, `linux_service.dfy`,
  `bonjour_service.dfy`, `macos_service.dfy`). Each context is a class whose
  handlers update its fields.
  - A native call is an input: its return code, the handle it creates (0 for
    null), or a function from the call's arguments to its outcome.
  - The user callback is a flag `hasCallback` plus a log `delivered`. Every
    delivery appends one result to the log when a callback is set.
  - A panic of the older revisions is an out-parameter `panicked`. Where a panic
    cannot be avoided, such as `from_str` on a kind without '.' or
    `normalize_domain` on an empty string, it is a precondition.

`ServiceType::from_str` indexes `head[1]`, so it panics on a string without a '.'
before its first ','. The model therefore requires `HeadHasDot`.
`bonjour/bonjour_util.rs` parses with `from_str`, so `parse_regtype("foobar")`
panics. That file's own test `parse_regtype_failure_invalid_regtype`
(`bonjour/bonjour_util.rs:107-113`) expects the error "invalid name and protocol"
instead. The model follows the code and records this under Findings.
The Bonjour browser and service parse with that `parse_regtype`, so the kind the
daemon reports must satisfy `BonjourUtil.ParsableRegtype`. The `macos/` parser
checks the head itself and does return that error.

## Model

| member | source | states |
|---|---|---|
| ServiceTypes.CheckPart | zeroconf/src/service_type.rs:38-46 | a part is accepted exactly when it holds neither '.' nor ','; the '.' error takes precedence; an accepted part is unchanged |
| ServiceTypes.ToString | zeroconf/src/service_type.rs:49-58 | the `Display` form; it has no contract of its own, its shape is stated by `ToStringSegments` and its inverse by `FromStrToString` |
| ServiceTypes.FromStrOf | zeroconf/src/service_type.rs:63-91 | the functional definition of `from_str` that the method `FromStr` is proved against; it has no contract of its own, and the `FromStr*` lemmas state what it returns |
| ServiceTypes.New | zeroconf/src/service_type.rs:16-22 | succeeds exactly when name and protocol are valid parts; the name's error comes first; the result has no sub-types |
| ServiceTypes.FirstInvalid | zeroconf/src/service_type.rs:26-36 | none exactly when every sub-type is valid; otherwise the error of an invalid sub-type all of whose predecessors are valid |
| ServiceTypes.FirstInvalidAt | zeroconf/src/service_type.rs:26-36 | the error reported is that of the first invalid sub-type |
| ServiceTypes.WithSubTypesOf | zeroconf/src/service_type.rs:26-36 | succeeds exactly when every sub-type is valid, never checks name or protocol, and stores all three verbatim |
| ServiceTypes.WithSubTypes | zeroconf/src/service_type.rs:26-36 | the validation loop returns what `WithSubTypesOf` specifies |
| ServiceTypes.ToStringSegments | zeroconf/src/service_type.rs:49-58 | the string form is `_name._protocol` and each `_sub`, in order, joined by ',' |
| ServiceTypes.ToStringExample | zeroconf/src/service_type.rs:115-122 | two sub-types give `_http._tcp,_api-v1,_api-v2` |
| ServiceTypes.StripUnderscore | zeroconf/src/service_type.rs:69-88 | at most one leading '_' is removed; a string without one is unchanged |
| ServiceTypes.StripKeepsOtherChars | zeroconf/src/service_type.rs:69-88 | stripping changes no character other than '_' |
| ServiceTypes.FromStr | zeroconf/src/service_type.rs:63-91 | the loop that pushes the stripped sub-types returns what `FromStrOf` specifies |
| ServiceTypes.FromStrNameProtocolValid | zeroconf/src/service_type.rs:63-91 | a parsed name and protocol never hold '.' or ',' |
| ServiceTypes.FromStrFailsOnDottedSubType | zeroconf/src/service_type.rs:63-91 | parsing fails exactly when some sub-type segment holds '.', with "invalid character: ." |
| ServiceTypes.FromStrIgnoresAfterSecondDot | zeroconf/src/service_type.rs:69-77 | text after a second '.' of the head does not change the result |
| ServiceTypes.FromStrToString | zeroconf/src/service_type.rs:49-91 | parsing the string form of a valid type gives the type back |
| ServiceTypes.FromStrBareSubTypes | zeroconf/src/service_type.rs:132-138 | sub-types written without '_' parse to themselves |
| ServiceTypes.NewIsWithoutSubTypes | zeroconf/src/service_type.rs:16-36 | `new` is `with_sub_types` with no sub-types, once name and protocol are valid |
| BonjourUtil.NormalizeDomain | zeroconf/src/bonjour/bonjour_util.rs:13-24 | a trailing '.' is dropped; any other non-empty ASCII domain is unchanged |
| BonjourUtil.NormalizeDomainRemovesOneDot | zeroconf/src/bonjour/bonjour_util.rs:13-24 | exactly one dot is removed: `d.` gives `d` and `d..` gives `d.` |
| BonjourUtil.NormalizeDomainExamples | zeroconf/src/bonjour/bonjour_util.rs:157-167 | `foo.bar.baz.` and `foo.bar.baz` both give `foo.bar.baz` |
| BonjourUtil.InterfaceIndex | zeroconf/src/bonjour/bonjour_util.rs:29-34 | `Unspec` is 0 and `AtIndex(i)` is i |
| BonjourUtil.InterfaceFromIndex | zeroconf/src/bonjour/bonjour_util.rs:37-42 | 0 is `Unspec`; any other index names itself |
| BonjourUtil.InterfaceRoundTrip | zeroconf/src/bonjour/bonjour_util.rs:29-42 | index to interface to index is the identity; interface to index to interface is the identity except for `AtIndex(0)` |
| BonjourUtil.SysExec | zeroconf/src/bonjour/bonjour_util.rs:45-53 | Ok exactly when the code is not negative; else `message (code: n)` |
| BonjourUtil.SysExecExamples | zeroconf/src/bonjour/bonjour_util.rs:134-144 | -42 gives `uh oh spaghetti-o (code: -42)` and 0 gives Ok |
| BonjourUtil.FormatRegtype | zeroconf/src/bonjour/bonjour_util.rs:56-71 | computes the regtype; it has no contract of its own, and `FormatRegtypeIsToString` proves it is the string form |
| BonjourUtil.FormatRegtypeIsToString | zeroconf/src/bonjour/bonjour_util.rs:56-71 | the regtype is the service type's string form |
| BonjourUtil.CheckedSubTypes | zeroconf/src/bonjour/bonjour_util.rs:77-80 | succeeds exactly when every stripped segment passes the character check, and then keeps each stripped segment in order; an error is that of the first failing segment |
| BonjourUtil.ParseRegtype | zeroconf/src/bonjour/bonjour_util.rs:74-84 | the parser as written, defined only where `from_str` does not panic; it has no contract of its own, and `ParseRegtypeOutcome` and `ParseFormatRegtype` state its outcome and round trip |
| BonjourUtil.ParseRegtypeOutcome | zeroconf/src/bonjour/bonjour_util.rs:74-84 | parsing succeeds exactly when every stripped sub-type passes the check and holds neither '.' nor ','; name and protocol come from the head's '.' pieces, stripped |
| BonjourUtil.ParseFormatRegtype | zeroconf/src/bonjour/bonjour_util.rs:91-131 | parsing the regtype of a valid type whose sub-types pass the check gives the type back |
| BonjourUtil.ParseRegtypeRejectsFoobarOnlyByPanic | zeroconf/src/bonjour/bonjour_util.rs:107-113 | `foobar` has no '.' before its first ',' and so panics in `from_str` |
| BonjourUtil.ParseRegtypeChecked | zeroconf/src/bonjour/bonjour_util.rs:74-84 | a regtype without a '.' in its head gives "invalid name and protocol"; any other gives what `parse_regtype` gives |
| BonjourUtil.ParseRegtypeCheckedFoobar | zeroconf/src/bonjour/bonjour_util.rs:107-113 | `foobar` gives "invalid name and protocol", as the test expects |
| MacBonjourUtil.NormalizeDomain | zeroconf/src/macos/bonjour_util.rs:13-19 | a trailing '.' is dropped; any other non-empty ASCII domain is unchanged |
| MacBonjourUtil.InterfaceIndex | zeroconf/src/macos/bonjour_util.rs:24-29 | `Unspec` is 0 and `AtIndex(i)` is i |
| MacBonjourUtil.InterfaceIndexCollision | zeroconf/src/macos/bonjour_util.rs:24-29 | two interfaces share an index exactly when they are equal or are `Unspec` and `AtIndex(0)` |
| MacBonjourUtil.SysExec | zeroconf/src/macos/bonjour_util.rs:32-40 | Ok exactly when the code is not negative; else `message (code: n)` |
| MacBonjourUtil.SysExecExamples | zeroconf/src/macos/bonjour_util.rs:136-146 | -42 and 0 give the tested error and Ok |
| MacBonjourUtil.FormatRegtype | zeroconf/src/macos/bonjour_util.rs:43-58 | computes the regtype; it has no contract of its own, and `FormatRegtypeIsToString` proves it is the string form |
| MacBonjourUtil.FormatRegtypeIsToString | zeroconf/src/macos/bonjour_util.rs:43-58 | the regtype is the service type's string form |
| MacBonjourUtil.LstripUnderscore | zeroconf/src/macos/bonjour_util.rs:80-86 | at most one leading '_' is removed and nothing else changes |
| MacBonjourUtil.LstripIsFromStrStrip | zeroconf/src/macos/bonjour_util.rs:80-86 | the strip agrees with the one `from_str` applies |
| MacBonjourUtil.ParseRegtype | zeroconf/src/macos/bonjour_util.rs:61-67 | a head that does not split on '.' into exactly two pieces gives "invalid name and protocol" |
| MacBonjourUtil.ParseRegtypeChecksHeadFirst | zeroconf/src/macos/bonjour_util.rs:61-78 | name and protocol are checked, unstripped, before any sub-type; the name's error comes first |
| MacBonjourUtil.ParseRegtypeOutcome | zeroconf/src/macos/bonjour_util.rs:69-78 | with a valid head, parsing succeeds exactly when every stripped sub-type passes the check and is a valid part; the result is a valid type with the stripped sub-types |
| MacBonjourUtil.ParseFormatRegtype | zeroconf/src/macos/bonjour_util.rs:93-133 | parsing the regtype of a valid type gives the type back |
| MacBonjourUtil.ParseRegtypeFoobar | zeroconf/src/macos/bonjour_util.rs:109-115 | `foobar` gives "invalid name and protocol" |
| MacCompat.NormalizeDomain | zeroconf/src/macos/compat.rs:7-13 | a trailing '.' is dropped, anything else is unchanged; the length drops by at most one |
| MacCompat.NormalizeDomainRemovesOneDot | zeroconf/src/macos/compat.rs:7-13 | `d..` gives `d.`, and only a second call gives `d` |
| AvahiUtil.CastsInverse | zeroconf/src/avahi/avahi_util.rs:52-65 | the two's-complement casts between `u32` and `i32` undo each other |
| AvahiUtil.AsI32 | zeroconf/src/avahi/avahi_util.rs:55 | `as i32` keeps a `u32` up to `i32::MAX` and otherwise subtracts 2^32 |
| AvahiUtil.AsU32 | zeroconf/src/avahi/avahi_util.rs:63 | `as u32` keeps a non-negative `i32` and otherwise adds 2^32 |
| AvahiUtil.InterfaceIndex | zeroconf/src/avahi/avahi_util.rs:52-57 | `Unspec` is `AVAHI_IF_UNSPEC` (-1); `AtIndex(i)` is i modulo 2^32 |
| AvahiUtil.InterfaceFromIndex | zeroconf/src/avahi/avahi_util.rs:60-65 | `Unspec` exactly for -1; otherwise an index that casts back to the input |
| AvahiUtil.InterfaceRoundTrip | zeroconf/src/avahi/avahi_util.rs:52-65 | index to interface to index is the identity; the other round trip fails only for `AtIndex(0xFFFFFFFF)` |
| AvahiUtil.InterfaceExamples | zeroconf/src/avahi/avahi_util.rs:131-154 | the tested mappings, and the collision of `AtIndex(0xFFFFFFFF)` with `Unspec` |
| AvahiUtil.SysExec | zeroconf/src/avahi/avahi_util.rs:68-76 | Ok exactly when the code is not negative; else the message and the native error text in backticks |
| AvahiUtil.FormatServiceType | zeroconf/src/avahi/avahi_util.rs:79-81 | the kind is the string form of the type without its sub-types |
| AvahiUtil.FormatServiceTypeRoundTrip | zeroconf/src/avahi/avahi_util.rs:79-81 | the kind is the string form without sub-types and parses back to the type without sub-types |
| AvahiUtil.FormatSubType | zeroconf/src/avahi/avahi_util.rs:100-107 | the label is `_` + the sub-type stripped of one '_' + `._sub.` + kind |
| AvahiUtil.FormatSubTypeIgnoresUnderscore | zeroconf/src/avahi/avahi_util.rs:100-107 | a sub-type with or without its '_' gives the same label |
| AvahiUtil.FormatSubTypeExamples | zeroconf/src/avahi/avahi_util.rs:183-193 | `foo` and `_foo` both give `_foo._sub._http._tcp` |
| AvahiUtil.FormatBrowserType | zeroconf/src/avahi/avahi_util.rs:84-97 | the kind without sub-types; otherwise the label of the first sub-type |
| AvahiUtil.FormatBrowserTypeUsesFirstSubType | zeroconf/src/avahi/avahi_util.rs:84-97 | sub-types after the first make no difference |
| AvahiUtil.FormatServiceTypeExamples | zeroconf/src/avahi/avahi_util.rs:157-170 | `http`/`tcp` gives `_http._tcp` as kind and as browser type |
| AvahiUtil.FormatBrowserTypeExample | zeroconf/src/avahi/avahi_util.rs:173-180 | the sub-type `printer` is browsed as `_printer._sub._http._tcp` |
| LinuxAvahiUtil.InterfaceIndex | zeroconf/src/linux/avahi_util.rs:43-48 | `Unspec` is -1; indices up to `i32::MAX` pass unchanged and larger ones wrap by 2^32 |
| LinuxAvahiUtil.SysExec | zeroconf/src/linux/avahi_util.rs:51-66 | Ok exactly when the code is not negative; else the message and the error text in backticks |
| LinuxAvahiUtil.AgreesWithAvahiUtil | zeroconf/src/linux/avahi_util.rs:43-66 | both revisions map interfaces and codes identically |
| AvahiPoll.AsMillis | zeroconf/src/avahi/poll.rs:52-54 | the whole milliseconds of the timeout, rounded down: `ms` milliseconds are at most the duration, which is less than `ms + 1` |
| AvahiPoll.New | zeroconf/src/avahi/poll.rs:24-31 | an error exactly for a null handle, with "could not initialize AvahiSimplePoll" |
| AvahiPoll.SleepTime | zeroconf/src/avahi/poll.rs:52-56 | the whole milliseconds when they fit in `i32`, else `i32::MAX`; always within `[0, i32::MAX]` |
| AvahiPoll.SleepTimeMonotonic | zeroconf/src/avahi/poll.rs:52-56 | a longer timeout never sleeps less |
| AvahiPoll.IterateResult | zeroconf/src/avahi/poll.rs:58-66 | 0 and 1 are Ok; -1 is the error result; every other code is the distinct unknown-result error |
| AvahiPoll.IterateErrorsDistinct | zeroconf/src/avahi/poll.rs:58-66 | the two error messages differ |
| AvahiPoll.Iterate | zeroconf/src/avahi/poll.rs:52-68 | Ok exactly when the native call, given the clamped sleep time, returns 0 or 1 |
| AvahiPoll.IterateSleepsClamped | zeroconf/src/avahi/poll.rs:52-68 | the native call receives the clamped time, `i32::MAX` for an oversized timeout |
| AvahiResolver.NewResolver | zeroconf/src/avahi/resolver.rs:30-67 | an error exactly for a null handle; otherwise the handle and the client are kept |
| AvahiResolver.ServiceResolverSet.constructor | zeroconf/src/avahi/resolver.rs:99-102 | the set starts empty |
| AvahiResolver.ServiceResolverSet.Insert | zeroconf/src/avahi/resolver.rs:105-107 | the resolver is stored under its own handle, replacing any entry there; the size grows only for a new key; every other key is unchanged |
| AvahiResolver.ServiceResolverSet.RemoveRaw | zeroconf/src/avahi/resolver.rs:109-111 | only that key is removed; an absent key changes nothing |
| LinuxResolver.NewResolver | zeroconf/src/linux/resolver.rs:24-50 | an error exactly for a null handle, with "could not initialize AvahiServiceResolver" |
| LinuxResolver.ServiceResolverSet.constructor | zeroconf/src/linux/resolver.rs:79-82 | the set starts empty |
| LinuxResolver.ServiceResolverSet.Insert | zeroconf/src/linux/resolver.rs:85-87 | stored under its own handle, replacing any entry there; nothing else changes |
| LinuxResolver.ServiceResolverSet.RemoveRaw | zeroconf/src/linux/resolver.rs:89-91 | only that key is removed; an absent key changes nothing |
| AvahiBrowser.Discovery | zeroconf/src/avahi/browser.rs:317-350 | a found service is reported with name, domain, host, address, port and TXT as resolved and the type read by `from_str`; it fails exactly when a sub-type segment holds '.' |
| AvahiBrowser.FoundEvent | zeroconf/src/avahi/browser.rs:337-347 | a built discovery is reported as an `Add` event and a parse error as itself; it has no contract of its own and is used by `HandleResolverFound` |
| AvahiBrowser.ResolveFailureMessage | zeroconf/src/avahi/browser.rs:288-292 | the failure text naming the service, its type and its domain; it has no contract of its own and is used by `ResolveCallback` |
| AvahiBrowser.BrowserContext.constructor | zeroconf/src/avahi/browser.rs:120-130 | no client, browser or callback, and an empty resolver set |
| AvahiBrowser.BrowserContext.InvokeCallback | zeroconf/src/avahi/browser.rs:132-138 | the result reaches the callback when one is set; nothing else changes |
| AvahiBrowser.BrowserContext.ClientCallback | zeroconf/src/avahi/browser.rs:149-159 | only `CLIENT_FAILURE` reports the last error |
| AvahiBrowser.BrowserContext.HandleBrowserNew | zeroconf/src/avahi/browser.rs:212-243 | no client gives "expected initialized client"; a null resolver is an error; otherwise exactly one resolver is inserted under its handle |
| AvahiBrowser.BrowserContext.HandleBrowserRemove | zeroconf/src/avahi/browser.rs:245-263 | a removal with name, kind and domain as given is delivered |
| AvahiBrowser.BrowserContext.BrowseCallback | zeroconf/src/avahi/browser.rs:183-210 | NEW creates a resolver or reports its error; REMOVE delivers the removal; FAILURE reports "browser failure"; other events change nothing |
| AvahiBrowser.BrowserContext.HandleResolverFound | zeroconf/src/avahi/browser.rs:317-350 | the discovery is delivered when the kind parses; a parse error is returned, not delivered |
| AvahiBrowser.BrowserContext.ResolveCallback | zeroconf/src/avahi/browser.rs:265-314 | the resolver is removed after every event; FAILURE names service, type and domain; FOUND delivers the discovery or its parse error |
| AvahiBrowser.AvahiMdnsBrowser.constructor | zeroconf/src/avahi/browser.rs:40-49 | the kind is the browser type, the interface is unspecified, and nothing is created yet |
| AvahiBrowser.AvahiMdnsBrowser.SetNetworkInterface | zeroconf/src/avahi/browser.rs:51-57 | the index is stored and reads back as the same interface except `AtIndex(0xFFFFFFFF)` |
| AvahiBrowser.AvahiMdnsBrowser.NetworkInterface | zeroconf/src/avahi/browser.rs:55-57 | `network_interface`: the interface of the stored index; `SetNetworkInterface` states when it reads back |
| AvahiBrowser.AvahiMdnsBrowser.SetServiceCallback | zeroconf/src/avahi/browser.rs:59-61 | a callback is set |
| AvahiBrowser.AvahiMdnsBrowser.BrowseServices | zeroconf/src/avahi/browser.rs:71-105 | poll and client failures are returned; once both exist the call is Ok even when the browser cannot be created, which is then delivered through the callback |
| AvahiBrowser.AvahiMdnsBrowser.CreateBrowser | zeroconf/src/avahi/browser.rs:161-181 | needs the client; a null browser is an error; success stores the browser |
| LinuxBrowser.ClientCallbackPanics | zeroconf/src/linux/browser.rs:355-364 | the client callback panics exactly on `CLIENT_FAILURE` |
| LinuxBrowser.BrowserContext.constructor | zeroconf/src/linux/browser.rs:185-193 | empty cache, no client or callback, an empty resolver set |
| LinuxBrowser.BrowserContext.InvokeCallback | zeroconf/src/linux/browser.rs:174-181 | the result is cached for the future even without a callback, then delivered if a callback is set |
| LinuxBrowser.BrowserContext.BrowseCallback | zeroconf/src/linux/browser.rs:215-265 | NEW without a client panics, a null resolver is reported, otherwise one resolver is inserted; FAILURE reports "browser failure"; REMOVE and all else are ignored |
| LinuxBrowser.BrowserContext.ResolveCallback | zeroconf/src/linux/browser.rs:267-353 | the resolver is removed after every event; FAILURE and FOUND are cached and delivered |
| LinuxBrowser.AvahiMdnsBrowser.constructor | zeroconf/src/linux/browser.rs:50-60 | timeout 0, no client, browser or event loop, every interface |
| LinuxBrowser.AvahiMdnsBrowser.SetNetworkInterface | zeroconf/src/linux/browser.rs:62-64 | the interface's index is stored |
| LinuxBrowser.AvahiMdnsBrowser.SetServiceDiscoveredCallback | zeroconf/src/linux/browser.rs:66-71 | a callback is set |
| LinuxBrowser.AvahiMdnsBrowser.SetTimeout | zeroconf/src/linux/browser.rs:77-79 | the timeout is stored |
| LinuxBrowser.AvahiMdnsBrowser.Browse | zeroconf/src/linux/browser.rs:81-115 | poll, client and browser are created in turn and the first failure is returned; only full success stores the browser and the event loop |
| LinuxBrowser.AvahiMdnsBrowser.PollFuture | zeroconf/src/linux/browser.rs:135-153 | a cached result is taken and Ready; else a running loop is polled once, its error Ready, else Pending; else browsing starts, its error Ready, else Pending |
| BonjourBrowser.SwapBytes16 | zeroconf/src/bonjour/browser.rs:263 | `to_be` on a little-endian host swaps the two bytes of the port |
| BonjourBrowser.SwapBytes16Involution | zeroconf/src/bonjour/browser.rs:263 | swapping twice gives the port back |
| BonjourBrowser.SwapBytes16Example | zeroconf/src/bonjour/browser.rs:263 | port 8080 (0x1F90) is reported as 0x901F |
| BonjourBrowser.BrowserContext.constructor | zeroconf/src/bonjour/browser.rs:86-95 | nothing resolved and no callback |
| BonjourBrowser.BrowserContext.InvokeCallback | zeroconf/src/bonjour/browser.rs:98-104 | delivered when a callback is set, else only a warning |
| BonjourBrowser.BrowserContext.Report | zeroconf/src/bonjour/browser.rs:129-131 | a trampoline delivers its handler's error and nothing on success |
| BonjourBrowser.BrowserContext.HandleBrowse | zeroconf/src/bonjour/browser.rs:134-161 | an error code leaves the context alone and is reported with its code; otherwise name, regtype and domain are recorded and the resolve's outcome returned |
| BonjourBrowser.BrowserContext.HandleResolve | zeroconf/src/bonjour/browser.rs:192-225 | an error code changes nothing; otherwise the port is stored and a TXT record kept only when `txt_len > 1` |
| BonjourBrowser.BrowserContext.HandleGetAddressInfo | zeroconf/src/bonjour/browser.rs:243-316 | no pending name is a no-op; an error code takes nothing; otherwise domain, kind and name are taken, a missing one is an error, the kind is read by the as-written `parse_regtype` (the precondition excludes only a domain or kind that would panic in `normalize_domain` or `parse_regtype` on this path), and one discovery with the normalised domain, that type and the swapped port is delivered, or the parse error returned |
| BonjourBrowser.BrowserContext.FinishDiscovery | zeroconf/src/bonjour/browser.rs:297-315 | the name is taken; on a parse error nothing is delivered and the TXT stays; on success the TXT is taken and one discovery with the name, the type and the old TXT is delivered |
| BonjourBrowser.BrowserContext.BrowseCallback | zeroconf/src/bonjour/browser.rs:118-132 | the handler's error reaches the callback |
| BonjourBrowser.BrowserContext.ResolveCallback | zeroconf/src/bonjour/browser.rs:163-225 | an error code is delivered with its code; otherwise the port is stored; a TXT record is kept when `txt_len > 1` and cloning succeeds, and a failed clone is delivered with the TXT left as it was; after that, only a failed address lookup is delivered |
| BonjourBrowser.BrowserContext.GetAddressInfoCallback | zeroconf/src/bonjour/browser.rs:227-241 | a completed chain emits nothing; a pending one delivers exactly one result |
| BonjourBrowser.BrowseChain | zeroconf/src/bonjour/browser.rs:118-316 | for a regtype `parse_regtype` accepts, browse, resolve and address lookup deliver exactly one discovery with that type, and firing again emits nothing |
| BonjourBrowser.BonjourMdnsBrowser.constructor | zeroconf/src/bonjour/browser.rs:36-43 | the kind is the regtype and every interface is used |
| BonjourBrowser.BonjourMdnsBrowser.SetNetworkInterface | zeroconf/src/bonjour/browser.rs:45-51 | reads back as the same interface except `AtIndex(0)` |
| BonjourBrowser.BonjourMdnsBrowser.NetworkInterface | zeroconf/src/bonjour/browser.rs:49-51 | `network_interface`: the interface of the stored index; `SetNetworkInterface` states when it reads back |
| BonjourBrowser.BonjourMdnsBrowser.SetServiceDiscoveredCallback | zeroconf/src/bonjour/browser.rs:53-58 | a callback is set |
| MacBrowser.BrowserContext.constructor | zeroconf/src/macos/browser.rs:132-142 | empty cache, nothing resolved, no callback |
| MacBrowser.BrowserContext.InvokeCallback | zeroconf/src/macos/browser.rs:145-156 | the result is cached, then delivered if a callback is set |
| MacBrowser.BrowserContext.Report | zeroconf/src/macos/browser.rs:192-194 | a trampoline caches and delivers its handler's error, and does nothing on success |
| MacBrowser.BrowserContext.HandleBrowse | zeroconf/src/macos/browser.rs:197-224 | an error code changes nothing; otherwise name, kind and domain are recorded |
| MacBrowser.BrowserContext.HandleResolve | zeroconf/src/macos/browser.rs:255-288 | the port is stored and a TXT record kept only when `txt_len > 1` |
| MacBrowser.BrowserContext.HandleGetAddressInfo | zeroconf/src/macos/browser.rs:306-354 | no pending name is a no-op; an error code takes nothing; otherwise every resolved field is taken (the precondition excludes only a domain or kind that would panic on this path) and one discovery with the `from_str` type and the swapped port is delivered, or the parse error returned |
| MacBrowser.BrowserContext.TakeResolved | zeroconf/src/macos/browser.rs:337-351 | domain, kind and name are all taken before the parse; a parse error is returned with nothing delivered; otherwise the TXT is taken and one discovery with the normalised domain and the swapped port is cached and delivered |
| MacBrowser.KindType | zeroconf/src/macos/browser.rs:338-342 | the type `from_str` reads from the normalised kind; it has no contract of its own and is used by `HandleGetAddressInfo` |
| MacBrowser.BonjourMdnsBrowser.constructor | zeroconf/src/macos/browser.rs:39-48 | not initialised, timeout 0, the kind is the string form |
| MacBrowser.BonjourMdnsBrowser.SetNetworkInterface | zeroconf/src/macos/browser.rs:50-52 | the index is stored |
| MacBrowser.BonjourMdnsBrowser.SetServiceDiscoveredCallback | zeroconf/src/macos/browser.rs:54-59 | a callback is set |
| MacBrowser.BonjourMdnsBrowser.SetTimeout | zeroconf/src/macos/browser.rs:65-67 | the timeout is stored |
| MacBrowser.BonjourMdnsBrowser.Browse | zeroconf/src/macos/browser.rs:69-86 | the browser is initialised only when the native browse succeeds |
| MacBrowser.BonjourMdnsBrowser.PollFuture | zeroconf/src/macos/browser.rs:107-129 | a cached result is taken and Ready; else an initialised browser polls once; else browsing starts; errors are Ready, success Pending |
| MacBrowser.DeliveredThenTaken | zeroconf/src/macos/browser.rs:107-156 | a discovery delivered while polling is returned by the next poll |
| AvahiService.RunBatch | zeroconf/src/avahi/service.rs:264-303 | the reference run of a batch, which the `?` on each call stops at the first refusal; it has no contract of its own, and `RunBatchStopsAt` and `RunBatchAllOk` state what it issues and returns |
| AvahiService.IssueBatch | zeroconf/src/avahi/service.rs:264-303 | the calls issued and the result are those of the batch run until the first refusal |
| AvahiService.RunBatchStopsAt | zeroconf/src/avahi/service.rs:264-303 | the first refused call ends the batch with its error, and nothing after it is issued |
| AvahiService.RunBatchAllOk | zeroconf/src/avahi/service.rs:264-303 | when every call succeeds, all are issued and the batch is Ok |
| AvahiService.Batch | zeroconf/src/avahi/service.rs:264-303 | the batch opens with the service call and ends with the commit, one call per sub-type between |
| AvahiService.SubtypeCalls | zeroconf/src/avahi/service.rs:286-300 | one `add_service_subtype` call per sub-type; `SubtypeCallsAt` and `BatchSubtype` state that the `i`-th call adds the `i`-th sub-type |
| AvahiService.BatchSubtype | zeroconf/src/avahi/service.rs:283-295 | the sub-type calls come in the sub-types' order |
| AvahiService.GroupEstablished | zeroconf/src/avahi/service.rs:344-362 | a missing name is an error; otherwise the result is Ok exactly when `from_str` reads the kind, and then carries the name, exactly that type and domain "local"; a failed parse returns `from_str`'s error |
| AvahiService.GroupEstablishedDropsSubTypes | zeroconf/src/avahi/service.rs:344-362 | the reported type never has sub-types, since the kind has none |
| AvahiService.ClientStateReportedAsWritten | zeroconf/src/avahi/service.rs:201-216 | the states the callback matches are server states |
| AvahiService.ClientFailureIgnoredAsWritten | zeroconf/src/avahi/service.rs:201-216 | `CLIENT_FAILURE` is not matched, and `SERVER_FAILURE` is no client state |
| AvahiService.ClientStateReportedExactly | zeroconf/src/avahi/service.rs:201-216 | of the client states, the corrected and the as-written match agree only on collision; failure is reported only by the corrected one, and no other state by either |
| AvahiService.ServiceContext.constructor | zeroconf/src/avahi/service.rs:164-179 | no client, name, group or callback; every interface |
| AvahiService.ServiceContext.InvokeCallback | zeroconf/src/avahi/service.rs:181-187 | delivered when a callback is set, else only a warning |
| AvahiService.ServiceContext.AddServices | zeroconf/src/avahi/service.rs:264-303 | without a group, an error; otherwise the batch is issued up to the first refusal and its result returned |
| AvahiService.ServiceContext.CreateService | zeroconf/src/avahi/service.rs:218-262 | a missing name becomes the host name; a missing group is created once and then reused; a non-empty group is left alone; otherwise the batch runs |
| AvahiService.ServiceContext.ClientCallbackAsWritten | zeroconf/src/avahi/service.rs:201-216 | as written: states 0, 3 and 4 (the server constants) report the last error; every other state, the client failure 100 among them, delivers nothing |
| AvahiService.ServiceContext.ClientCallback | zeroconf/src/avahi/service.rs:201-216 | corrected: client collision and failure report the last error; other states are ignored |
| AvahiService.ServiceContext.EntryGroupCallback | zeroconf/src/avahi/service.rs:305-342 | ESTABLISHED reports the registration; FAILURE the last error; COLLISION renames and reruns the batch, keeping the new name either way and reporting only a failure |
| AvahiService.AvahiMdnsService.constructor | zeroconf/src/avahi/service.rs:37-51 | the kind is `_name._protocol` and each sub-type its `_sub` label, in order |
| AvahiService.AvahiMdnsService.SetName | zeroconf/src/avahi/service.rs:59-65 | `name` reads back what was set |
| AvahiService.AvahiMdnsService.SetNetworkInterface | zeroconf/src/avahi/service.rs:67-73 | reads back as the same interface except `AtIndex(0xFFFFFFFF)` |
| AvahiService.AvahiMdnsService.SetDomain | zeroconf/src/avahi/service.rs:75-81 | `domain` reads back what was set |
| AvahiService.AvahiMdnsService.SetHost | zeroconf/src/avahi/service.rs:83-89 | `host` reads back what was set |
| AvahiService.AvahiMdnsService.SetTxtRecord | zeroconf/src/avahi/service.rs:91-97 | `txt_record` reads back what was set |
| AvahiService.AvahiMdnsService.Name | zeroconf/src/avahi/service.rs:63-65 | `name`: the stored name; `SetName` proves it reads back what was set |
| AvahiService.AvahiMdnsService.NetworkInterface | zeroconf/src/avahi/service.rs:71-73 | `network_interface`: the interface of the stored index; `SetNetworkInterface` states when it reads back |
| AvahiService.AvahiMdnsService.Domain | zeroconf/src/avahi/service.rs:79-81 | `domain`: the stored domain; `SetDomain` proves it reads back what was set |
| AvahiService.AvahiMdnsService.Host | zeroconf/src/avahi/service.rs:87-89 | `host`: the stored host; `SetHost` proves it reads back what was set |
| AvahiService.AvahiMdnsService.TxtRecord | zeroconf/src/avahi/service.rs:95-97 | `txt_record`: the stored TXT record; `SetTxtRecord` proves it reads back what was set |
| AvahiService.AvahiMdnsService.SetRegisteredCallback | zeroconf/src/avahi/service.rs:99-101 | a callback is set |
| AvahiService.AvahiMdnsService.Register | zeroconf/src/avahi/service.rs:111-144 | poll and client failures are returned; once both exist `register` is Ok, and a failure to create the service goes to the callback |
| LinuxService.ServiceContext.constructor | zeroconf/src/linux/service.rs:145-159 | no name, group or callback; every interface |
| LinuxService.ServiceContext.InvokeCallback | zeroconf/src/linux/service.rs:161-167 | panics exactly when no callback is set |
| LinuxService.ServiceContext.CreateService | zeroconf/src/linux/service.rs:197-257 | a missing name becomes the host name; the group is created once and reused; a non-empty group is left alone; otherwise the batch runs to the first refusal |
| LinuxService.ServiceContext.ClientCallback | zeroconf/src/linux/service.rs:181-195 | a running client creates the service, and a failure panics; other states are ignored |
| LinuxService.ServiceContext.EntryGroupCallback | zeroconf/src/linux/service.rs:259-286 | only ESTABLISHED is handled: a missing name panics, otherwise the registration with domain "local" (or its parse error) reaches the callback |
| LinuxService.AvahiMdnsService.constructor | zeroconf/src/linux/service.rs:37-51 | the kind is `_name._protocol` and each sub-type its `_sub` label, in order |
| LinuxService.AvahiMdnsService.SetRegisteredCallback | zeroconf/src/linux/service.rs:99-101 | a callback is set |
| LinuxService.AvahiMdnsService.Register | zeroconf/src/linux/service.rs:111-126 | only the poll and the client are created; the first failure is returned |
| BonjourService.AssembleParams | zeroconf/src/bonjour/service.rs:103-140 | the settings are passed through; with no TXT record the length is 0 and the pointer null |
| BonjourService.HandleRegister | zeroconf/src/bonjour/service.rs:186-210 | an error code is reported with its code; otherwise domain and regtype are normalised, the name copied, and the result is Ok exactly when the as-written `parse_regtype` accepts the regtype, whose error it returns otherwise; a regtype it would panic on is excluded by the precondition |
| BonjourService.HandleRegisterReportsRegisteredType | zeroconf/src/bonjour/service.rs:186-210 | the absolute regtype and domain of a registered type give that type and the domain back |
| BonjourService.ServiceContext.constructor | zeroconf/src/bonjour/service.rs:143-147 | no callback |
| BonjourService.ServiceContext.InvokeCallback | zeroconf/src/bonjour/service.rs:161-168 | delivered when a callback is set, else only a warning |
| BonjourService.ServiceContext.RegisterCallback | zeroconf/src/bonjour/service.rs:171-184 | the outcome of `handle_register`, success or error, reaches the callback once; a regtype `parse_regtype` would panic on is excluded by the precondition, as in `HandleRegister` |
| BonjourService.BonjourMdnsService.constructor | zeroconf/src/bonjour/service.rs:35-47 | the kind is the regtype; nothing else is set and every interface is used |
| BonjourService.BonjourMdnsService.SetName | zeroconf/src/bonjour/service.rs:51-57 | `name` reads back what was set |
| BonjourService.BonjourMdnsService.SetNetworkInterface | zeroconf/src/bonjour/service.rs:59-65 | reads back as the same interface exactly when it is not `AtIndex(0)` |
| BonjourService.BonjourMdnsService.SetDomain | zeroconf/src/bonjour/service.rs:67-73 | `domain` reads back what was set |
| BonjourService.BonjourMdnsService.SetHost | zeroconf/src/bonjour/service.rs:75-81 | `host` reads back what was set |
| BonjourService.BonjourMdnsService.SetTxtRecord | zeroconf/src/bonjour/service.rs:83-89 | `txt_record` reads back what was set |
| BonjourService.BonjourMdnsService.Name | zeroconf/src/bonjour/service.rs:55-57 | `name`: the stored name; `SetName` proves it reads back what was set |
| BonjourService.BonjourMdnsService.NetworkInterface | zeroconf/src/bonjour/service.rs:63-65 | `network_interface`: the interface of the stored index; `SetNetworkInterface` states when it reads back |
| BonjourService.BonjourMdnsService.Domain | zeroconf/src/bonjour/service.rs:71-73 | `domain`: the stored domain; `SetDomain` proves it reads back what was set |
| BonjourService.BonjourMdnsService.Host | zeroconf/src/bonjour/service.rs:79-81 | `host`: the stored host; `SetHost` proves it reads back what was set |
| BonjourService.BonjourMdnsService.TxtRecord | zeroconf/src/bonjour/service.rs:87-89 | `txt_record`: the stored TXT record; `SetTxtRecord` proves it reads back what was set |
| BonjourService.BonjourMdnsService.SetRegisteredCallback | zeroconf/src/bonjour/service.rs:91-93 | a callback is set |
| BonjourService.BonjourMdnsService.Register | zeroconf/src/bonjour/service.rs:103-140 | one native call with the assembled parameters; a negative code is returned as "could not register service" |
| MacService.HandleRegister | zeroconf/src/macos/service.rs:218-242 | an error code is reported with its code; otherwise domain and kind are normalised and the kind read by `from_str` |
| MacService.HandleRegisterReportsRegisteredType | zeroconf/src/macos/service.rs:218-242 | the absolute kind and domain of a registered type give that type and the domain back |
| MacService.ServiceContext.constructor | zeroconf/src/macos/service.rs:169-174 | no cached result and no callback |
| MacService.ServiceContext.InvokeCallbackAsWritten | zeroconf/src/macos/service.rs:176-184 | the callback is called or a warning given; the cache is not written |
| MacService.ServiceContext.RegisterCallbackAsWritten | zeroconf/src/macos/service.rs:203-216 | the outcome reaches the callback and the cache keeps what it held |
| MacService.ServiceContext.InvokeCallback | zeroconf/src/macos/service.rs:176-184 | corrected: the result is cached for the future, then delivered |
| MacService.ServiceContext.RegisterCallback | zeroconf/src/macos/service.rs:203-216 | corrected: the outcome is cached and reaches the callback once |
| MacService.BonjourMdnsService.constructor | zeroconf/src/macos/service.rs:43-57 | not initialised, timeout 0, the kind is the string form, nothing else set |
| MacService.BonjourMdnsService.SetName | zeroconf/src/macos/service.rs:61-63 | the name is stored |
| MacService.BonjourMdnsService.SetNetworkInterface | zeroconf/src/macos/service.rs:65-67 | the interface's index is stored |
| MacService.BonjourMdnsService.SetDomain | zeroconf/src/macos/service.rs:69-71 | the domain is stored |
| MacService.BonjourMdnsService.SetHost | zeroconf/src/macos/service.rs:73-75 | the host is stored |
| MacService.BonjourMdnsService.SetTxtRecord | zeroconf/src/macos/service.rs:77-79 | the TXT record is stored |
| MacService.BonjourMdnsService.SetRegisteredCallback | zeroconf/src/macos/service.rs:81-83 | a callback is set |
| MacService.BonjourMdnsService.SetTimeout | zeroconf/src/macos/service.rs:89-91 | the timeout is stored |
| MacService.BonjourMdnsService.Register | zeroconf/src/macos/service.rs:93-127 | one register call with the assembled parameters; the service is initialised only when it succeeds |
| MacService.BonjourMdnsService.PollFuture | zeroconf/src/macos/service.rs:145-167 | a cached result is taken and Ready; else an initialised service polls once; else registration starts; errors are Ready, success Pending |
| MacService.RegisteredNeverReadyAsWritten | zeroconf/src/macos/service.rs:145-184 | as written, the future stays Pending after the register callback has fired |
| MacService.RegisteredThenReady | zeroconf/src/macos/service.rs:145-184 | with the corrected callback the next poll returns the registration |

## Left out

- Native calls are inputs, not models: every `avahi_*`, `DNSService*` and `TXTRecord*` call, `get_error`, `get_last_error` (the error text of the client's errno, which callers receive as `lastError`), `avahi_strerror` and `alternative_service_name`. The model takes a return code, a handle (0 for null) or a function from the call's arguments to its outcome.
- Event loops, `select`, timers and locking (`event_loop.rs`, `ffi`) are not modelled; a poll of the loop is an input `Result`.
- Raw-pointer context handoff (`from_raw`, `into_raw`), drop order and the `Box<dyn Any>` user context are not modelled; the context is assumed to outlive its callbacks.
- The user callback is modelled only as the log of results it receives.
- TXT record contents are bytes passed through; `txt_record.rs`, `string_list.rs` and `txt_record_ref.rs` are not part of this model.
- Address decoding (`avahi_address_to_string`, the `sockaddr_in` byte extraction) is not modelled; the decoded address is an input string.
- `check_valid_characters` and the crate root's `lstrip_underscore` are not part of this model's sources. The check is a parameter (`CharCheck`, none for a valid part); the strip is assumed to match `from_str`'s.
- `client.rs`, `entry_group.rs`, `raw_browser.rs` and `service_ref.rs` are single native calls. Only their null checks and error messages appear, where a modelled caller uses them.
- The register and browse flags and the `DNSServiceRef` output of the Bonjour calls are left out of `RegisterParams`.
- `set_context` and `context` getters are not modelled (user context).
- `browse_async` and `register_async` only construct the future; its `poll` is modelled.
- The `linux/` service setters are not modelled; they store fields exactly as the `avahi/` ones do.
- `linux/avahi_util.rs` has no `format_service_type` or `format_sub_type`. Its service constructor uses the `avahi/` forms, `AvahiUtil.FormatServiceType` and `AvahiUtil.FormatSubType`.
- The `macos/` service setters have no getters in the source, so their round trips are not stated.
- `normalize_domain` counts bytes; the model requires ASCII input, where bytes and characters agree.
- `u16::to_be` is modelled for a little-endian host.
- The `c_string!` conversions panic on a string with an interior NUL; the model does not exclude such strings from the setters and constructors.
- AvahiService.AvahiMdnsService.Register: states only that at most one error reaches the callback, and which name is used; the exact batch is stated by `CreateService`.
- BonjourBrowser.BrowserContext.GetAddressInfoCallback: states the number of deliveries, not their content; the content is stated by `HandleGetAddressInfo`.
- LinuxBrowser.AvahiMdnsBrowser.PollFuture: when browsing fails it states only that an error is Ready, not which one; `Browse` states which.

## Findings

| source | as written | input that shows it | evidently intended | confidence | as-written member | corrected member |
|---|---|---|---|---|---|---|
| zeroconf/src/avahi/service.rs:208-215 | the client callback matches `AVAHI_SERVER_INVALID`, `_COLLISION` and `_FAILURE` (0, 3, 4) against an `AvahiClientState` | state `AVAHI_CLIENT_FAILURE` (100) is ignored, so a failed client never reaches the callback | report client collision and failure, as the browser's client callback does for failure | not executed | AvahiService.ClientFailureIgnoredAsWritten | AvahiService.ClientStateReportedExactly |
| zeroconf/src/macos/service.rs:145-184 | `invoke_callback` never writes `registration_result`, the only thing the future returns as Ready | an initialised service whose register callback fires: the next poll is still Pending | cache the result before calling the callback, as `macos/browser.rs` does with `discovered_service` | not executed | MacService.RegisteredNeverReadyAsWritten | MacService.RegisteredThenReady |
| zeroconf/src/bonjour/bonjour_util.rs:74-76 | `parse_regtype` calls `ServiceType::from_str`, which indexes `head[1]` | `parse_regtype("foobar")` panics instead of returning the error its test expects | return "invalid name and protocol", as `macos/bonjour_util.rs` does | not executed | BonjourUtil.ParseRegtypeRejectsFoobarOnlyByPanic | BonjourUtil.ParseRegtypeCheckedFoobar |
