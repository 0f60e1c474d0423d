# WFP filter construction and the Windows service command line

This project models two small parts of the Windows side of the VPN client in Dafny, and proves properties of the models.

1. **Filter construction for the Windows Filtering Platform** (`kapps_net/src/win/wfp_firewall.h`), in `wfp_firewall.dfy`, module `WfpFirewall`.
   - A filter is an `FWPM_FILTER` with the following fields:
     - a layer, an action, a callout key, a sublayer key, a weight, flags and a provider-context key;
     - a condition buffer, the count of conditions, and the pointer to the buffer.
   - The C++ template structs build filters base class first. `BasicFirewallFilter` picks the layer. `ConditionalFirewallFilter` sizes the buffer and fills it slot by slot with `setCondition`, inline conditions first. Each concrete filter adds its own conditions or overwrites the callout settings.
   - Here the fields and the buffer belong to one class, `FirewallFilter`:
     - The buffer is an `array`, and `conditionIndex` is the next slot to write.
     - Its three constructors are the three base constructors: `Basic`, `Conditional` and `Callout`.
     - Each concrete filter is a `New…` method. It runs the base constructor and then the subclass's constructor body on the new object.
   - Each `New…` method's contract gives:
     - the complete buffer contents;
     - `Filled()`, meaning every slot was written exactly once;
     - the layer, action, weight, callout and provider-context settings.
   - The pure rules are functions with lemmas about them:
     - the choice of layer;
     - the IPv4 prefix mask and its round trip back to the prefix length;
     - the fallback for a subnet string that does not parse;
     - full-length prefixes for single-address filters.
2. **The service executable's command line** (`WinConsole::run` in `daemon/src/win/win_console.cpp`), in `win_console.dfy`, module `WinConsole`.
   - `ParseCommand` turns the arguments into a `Command`, ignoring case.
   - `LogFileFor` chooses the log file, and `ExitCodeForError` maps a caught system error to the exit code.
   - The driver helpers (TAP reinstall, callout reinstall, WinTUN uninstall and adapter creation) and `Run` are methods.
   - The service and driver operations they call are outside this component. Their results come in a `World` value. Each method returns the exit value and the ordered list of external `Call`s it made.

`wrappers.dfy` holds the `Option` type.

## Model

| member | source | states |
|---|---|---|
| WfpFirewall.AuthLayer | kapps_net/src/win/wfp_firewall.h:265-270 | Picks the ALE authorisation layer: receive/accept for inbound, connect for outbound. The layer's IPv4/IPv6 variant matches the IP version. |
| WfpFirewall.AuthLayerUnique | kapps_net/src/win/wfp_firewall.h:265-270 | The choice is unique: any ALE authorisation layer with a given direction and IP version is the one `AuthLayer` picks. |
| WfpFirewall.Ipv4Mask | kapps_net/src/win/wfp_firewall.h:333 | For 1 ≤ prefix ≤ 32, bit i of the 32-bit mask is set exactly when i ≥ 32 − prefix, so exactly the top `prefix` bits are set. |
| WfpFirewall.Ipv4MaskRoundTrip | kapps_net/src/win/wfp_firewall.h:333 | The mask's count of leading ones is the prefix it was built from, and shifting the prefix bits out leaves zero (no host bit is set). |
| WfpFirewall.FullPrefixLength | kapps_net/src/win/wfp_firewall.h:395-396 | The prefix of a single-address filter covers the whole address. For IPv4 it is a valid prefix whose mask is all ones; for IPv6 it is 8 × the 16 address bytes. |
| WfpFirewall.PrefixLengthByte | kapps_net/src/win/wfp_firewall.h:366 | Stores the int prefix in the UINT8 `prefixLength`. Any prefix in 0..255 is kept unchanged. |
| WfpFirewall.Ipv4SubnetOrDefault | kapps_net/src/win/wfp_firewall.h:340-348 | A parsed subnet is used as is. A string that does not parse gives 0.0.0.0/32. |
| WfpFirewall.Ipv6SubnetOrDefault | kapps_net/src/win/wfp_firewall.h:373-381 | A parsed subnet is used as is. A string that does not parse gives ::/128. |
| WfpFirewall.FirewallFilter.Basic | kapps_net/src/win/wfp_firewall.h:262-274 | Sets the auth layer for the direction and IP version, and the given action and weight. There are no conditions, and every other field is zero. |
| WfpFirewall.FirewallFilter.Conditional | kapps_net/src/win/wfp_firewall.h:283-293 | The buffer holds count + number-of-inline conditions. `numFilterConditions` is that total, and the pointer is null exactly when the total is 0. The inline conditions fill the first slots in argument order, the rest are empty, and the index is just past the inline conditions. |
| WfpFirewall.FirewallFilter.Callout | kapps_net/src/win/wfp_firewall.h:225-235 | Sets the given layer, a callout-terminating action, the callout key, the sublayer key and the weight, with no conditions. |
| WfpFirewall.FirewallFilter.SetCondition | kapps_net/src/win/wfp_firewall.h:295-305 | Requires index < buffer size. Writes exactly the slot at the index (field, match type, tagged value), advances the index by one, and leaves every other slot unchanged. |
| WfpFirewall.FirewallFilter.ProcessInlineConditions | kapps_net/src/win/wfp_firewall.h:309-317 | Writes the inline conditions in order starting at the index and advances the index by their number. Slots before and after are unchanged. |
| WfpFirewall.NewIpPacketFilter | kapps_net/src/win/wfp_firewall.h:237-259 | A callout filter at the inbound or outbound IPv4 packet layer. The provider-context flag and key are set exactly when the context GUID is not the zero GUID. |
| WfpFirewall.NewIpSubnetFilterV4 | kapps_net/src/win/wfp_firewall.h:330-335 | Requires 1 ≤ prefix ≤ 32. One filled condition: remote address equals addr with mask `Ipv4Mask(prefix)`. |
| WfpFirewall.NewIpSubnetFilterV4FromString | kapps_net/src/win/wfp_firewall.h:336-353 | As above for the parsed subnet. A string that does not parse gives address 0 with mask 0xFFFFFFFF. |
| WfpFirewall.NewIpSubnetFilterV6 | kapps_net/src/win/wfp_firewall.h:361-368 | One filled condition: remote address equals the 16 address bytes with the prefix stored as a UINT8. |
| WfpFirewall.NewIpSubnetFilterV6FromString | kapps_net/src/win/wfp_firewall.h:369-388 | As above for the parsed subnet. A string that does not parse gives ::/128. |
| WfpFirewall.NewIpAddressFilterV4 | kapps_net/src/win/wfp_firewall.h:395 | The IPv4 subnet filter for one address, with mask 0xFFFFFFFF. |
| WfpFirewall.NewIpAddressFilterV6 | kapps_net/src/win/wfp_firewall.h:396 | The IPv6 subnet filter for one address, with prefix length 128. |
| WfpFirewall.NewLocalhostFilterV4 | kapps_net/src/win/wfp_firewall.h:406-410 | The address filter for 127.0.0.1/32. |
| WfpFirewall.NewLocalhostFilterV6 | kapps_net/src/win/wfp_firewall.h:412-416 | The address filter for ::1/128. |
| WfpFirewall.NewDhcpFilterV4 | kapps_net/src/win/wfp_firewall.h:421-434 | Outbound IPv4 with three filled conditions: local port 68, remote port 67, and remote address 255.255.255.255 with mask 0xFFFFFFFF. |
| WfpFirewall.NewDhcpFilterV6 | kapps_net/src/win/wfp_firewall.h:436-450 | Outbound IPv6 with three filled conditions: local port 546, remote port 547, and remote ff00::/8 (first byte 0xFF, the rest zero). |
| WfpFirewall.NewDnsFilter | kapps_net/src/win/wfp_firewall.h:454-460 | Outbound, with one filled condition: remote port 53. |
| WfpFirewall.NewCalloutDnsFilter | kapps_net/src/win/wfp_firewall.h:464-475 | The DNS condition, with the given layer, a callout-terminating action, the callout key, the sublayer key and the weight. No provider context. |
| WfpFirewall.NewInterfaceFilter | kapps_net/src/win/wfp_firewall.h:479-488 | One filled condition: the local interface equals the 64-bit LUID. |
| WfpFirewall.NewApplicationFilter | kapps_net/src/win/wfp_firewall.h:492-505 | The inline conditions in order, then the application ID. The count is the number of inline conditions + 1, and every slot is filled. |
| WfpFirewall.NewAppDnsFilter | kapps_net/src/win/wfp_firewall.h:509-518 | Requires a non-empty app ID. The inline conditions in order, then remote port 53, then the app ID. The count is the number of inline conditions + 2. |
| WfpFirewall.NewAppIdFilter | kapps_net/src/win/wfp_firewall.h:521-529 | Requires a non-empty app ID. Outbound, with one filled condition: the app ID. |
| WfpFirewall.NewSplitFilter | kapps_net/src/win/wfp_firewall.h:532-549 | The app-ID filter moved to the given layer, action, callout and sublayer. The provider-context flag and key are always set. |
| WinConsole.ParseCommand | daemon/src/win/win_console.cpp:175-237 | With no verb the command is help. A tap, tun or callout command is selected only when a sub-verb is present. |
| WinConsole.ParseCommandLine | daemon/src/win/win_console.cpp:189-237 | Round trip: every recognised command, written as its verb and sub-verb after any program name, parses back to itself. |
| WinConsole.ParseCommandOnlyOwnLine | daemon/src/win/win_console.cpp:189-237 | The converse of the round trip: a recognised command comes only from its own verb line. Help needs "help" or "/?"; any other command needs its verb and sub-verb, folded, in args[1] and args[2]. So an unknown verb, or an unknown or missing sub-verb after tap, tun or callout, is unrecognized. |
| WinConsole.FoldLowerCase | daemon/src/win/win_console.cpp:177 | Case folding leaves a string unchanged exactly when it has no upper-case letter. |
| WinConsole.MatchesLowerCase | daemon/src/win/win_console.cpp:177 | Against a lower-case verb, a case-insensitive match is the same as comparing the folded argument. |
| WinConsole.FoldIdempotent | daemon/src/win/win_console.cpp:177 | A folded string is lower case, so folding it again changes nothing. |
| WinConsole.ParseCommandIgnoresCase | daemon/src/win/win_console.cpp:177-237 | Folding the case of every argument does not change the command. |
| WinConsole.HelpVerbs | daemon/src/win/win_console.cpp:189-190 | "help" and "/?", in any case, both select help. |
| WinConsole.DriverVerbNeedsSubVerb | daemon/src/win/win_console.cpp:201-237 | "tap", "tun" or "callout" without a sub-verb is unrecognized. |
| WinConsole.ParseCommandIgnoresTrailingArgs | daemon/src/win/win_console.cpp:189-237 | Arguments after the sub-verb do not change the command. |
| WinConsole.LogFileFor | daemon/src/win/win_console.cpp:178-185 | With no verb no log file is opened. Otherwise the daemon log is chosen exactly when the command is "run", and the setup log for every other verb. |
| WinConsole.ExitCodeForError | daemon/src/win/win_console.cpp:240-256 | Exit code 2 exactly for the four service-state errors, 3 exactly for marked-for-delete and the two Authenticode trust errors, and 1 for every other code. It is never 0. |
| WinConsole.Caught | daemon/src/win/win_console.cpp:240-256 | A result that returned passes through unchanged. A thrown error becomes a non-zero exit code. |
| WinConsole.ReinstallTapDriver | daemon/src/win/win_console.cpp:90-94 | Uninstalls with arguments (false, false), ignores what that reports, then force-installs and returns the install result. Only an error thrown by the uninstall stops it. |
| WinConsole.UninstallWintunDriver | daemon/src/win/win_console.cpp:96-114 | Returns DriverUninstallFailed exactly when the deletion fails and DriverUninstalled exactly when it succeeds. It never returns DriverUninstalledReboot. |
| WinConsole.CreateWintunAdapter | daemon/src/win/win_console.cpp:116-128 | Returns DriverInstallFailed exactly when there is no adapter and DriverInstalled exactly when there is one. It never returns DriverInstalledReboot. |
| WinConsole.ReinstallCalloutDriver | daemon/src/win/win_console.cpp:140-152 | Installs exactly when the uninstall returned something other than DriverUninstalledReboot. It then returns the install result; otherwise it returns the uninstall result. |
| WinConsole.RunCallout | daemon/src/win/win_console.cpp:221-234 | The whole call list of each callout sub-verb: its action's calls, then the check-driver hint exactly when the action did not throw. The result is the action's own. Reinstall adds no install after an uninstall that needs a reboot or throws. |
| WinConsole.Run | daemon/src/win/win_console.cpp:154-263 | Opens the log `LogFileFor` chooses, makes the calls of the parsed command and exits with its result. A thrown error is mapped by `ExitCodeForError`. Details follow the table. |

`WinConsole.Run` ensures the following:
- The log file is the one `LogFileFor` chooses.
- With no verb, or for help, the exit code is 0 and no call is made. An unrecognized command exits 1 with no call.
- "run" and the service verbs make their one call and exit 0 or the service's result.
- TAP, WinTUN and callout commands exit with their driver status. For WinTUN, that status is never a reboot.
- A thrown error is mapped by `ExitCodeForError`.
- For each callout command, the whole call list is given: the action's calls, then the check-driver hint exactly when the action did not throw. The hint is never sent for any other command.

## Left out

- `FirewallEngine` and `FirewallTransaction` are handle-based calls into the Windows filtering API and are not part of this model.
- `FWP_DATA_Accessor` is reduced to the data-type tag plus value of `ConditionValue`. The float and double payloads and the unused payload kinds are left out.
- The address, LUID and blob values are stored by pointer in the source. The model stores them as values, so it says nothing about pointer identity or lifetime.
- The `core::Ipv4Subnet`, `core::Ipv6Subnet` and `AppIdKey` code is not part of this model. The parsed subnet (or `None` when the parser throws) and the app-ID bytes are parameters.
- `g_wfpSublayer` is not part of this model. Its sublayer key is a parameter of the callout filters.
- The `FirewallFilter` default constructor is not part of this model. It is taken to zero every field, as `HasBasicSettings` states.
- The filter key, filter ID and display data are not modelled.
- The default weight of 10 is not modelled: every `New…` method takes the weight explicitly.
- WfpFirewall.NewIpSubnetFilterV4: requires 1 ≤ prefix ≤ 32. With prefix 0, `~0UL << 32` shifts a 32-bit `unsigned long` by its full width, which C++ leaves undefined, so no result is modelled for it.
- WfpFirewall.NewIpSubnetFilterV4FromString: requires a parsed prefix ≥ 1 for the same reason. The model does not say what a string such as `0.0.0.0/0` produces.
- WfpFirewall.NewIpSubnetFilterV6: the int prefix is reduced modulo 256 into the UINT8 field. Values outside 0..128 are not rejected, just as in the source.
- UINT32 counts and indexes are unbounded naturals, because no filter comes near 2^32 conditions.
- The `assert` macros of the C++ (an index inside the buffer, a non-empty app ID) are preconditions.
- WinConsole.ParseCommand: case-insensitive comparison folds ASCII letters only. Qt compares with Unicode case folding of each UTF-16 unit, so a non-ASCII character that folds to an ASCII letter matches in the source but not in the model. For example, the source runs "ſtop" (U+017F, long s) as stop, but the model gives Unrecognized.
- `showHelp` and the unrecognized-command message are reduced to their exit codes (0 and 1). Their text, and all `qCritical`, `qInfo` and `qWarning` logging, are left out.
- `runDaemon`, `ctrlHandler` and `stopDaemon` are external. The daemon run is one call that returns (exit 0) or throws.
- The service operations (`WinService::…`), `::installTapDriver`, `::uninstallTapDriver`, `::installCalloutDriver`, `::uninstallCalloutDriver`, the `WintunModule` calls and `Exec::cmd` for the check-driver hint are not part of this model. They are the fields of `World` and the entries of `Call`.
- The `.inf` paths and the Windows-version test that chooses them are left out.
- `WinConsole::installTapDriver` is called from `run` without an argument. The model passes force = false; the header that declares that default is not part of this model.
- The two boolean arguments of `::uninstallTapDriver` are passed through as given, because their meaning is defined in code outside this model.
- DriverStatus is a datatype of the statuses these operations name, plus OtherDriverStatus(code) for any other value. The numeric values of the named statuses are not modelled.
- System error codes other than the seven that `run` distinguishes are all one value, OtherSystemError, which carries no number.
- Exceptions other than `Error` are not modelled.
