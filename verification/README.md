# A verified model of the camera application

This project models, in Dafny, how the camera application configures, starts, reconfigures and stops its
services, and proves what holds in every run. It also covers two pieces of arithmetic and text handling
beside it. `dafny verify dfyconfig.toml` checks all of it.

The main results:

* **From document to service.** A document loads to a configuration exactly when it says that configuration, JSON
  member by JSON member, and every configuration can be written down and loaded again. After any run from any start,
  each option of each running service is the JSON member it stands for; this is said without the loader's and the
  builders' own terms.
* **Filling in.** A stored file that lacks sections or members of a loadable one starts on any loadable default file,
  and each field of the configuration comes from the file where the file has its member, from the default file otherwise.
* **Live reconfiguration.** In every run of configuration updates, the subsystem's copy of the configuration is
  the load of the stored sections, and every running service has the options built from it. The running
  application is then in the very state that a restart would give it, if and only if the restart fills in nothing
  the loader reads: the configuration service completes the stored file from the default file on every start, and
  two members are optional. With arbitrary writes to other sections and address changes in between, only the
  option fields fed by those can lag, and for every accepted update and every address change it is said exactly
  when a service agrees afterwards. No restart-only field ever changes, save the static root after a start with an
  override, and that one at most once: at the first accepted update, unless it is one of `http`. Not telling a service
  of a change that the hand-written detector does not see gives the same runs as always telling it.
* **Lifecycle.** At every intermediate step of every sequence of starts, stops and updates, with any fallible
  call failing, whatever runs has running everything it keeps a pointer to and needs running, whether it got the
  pointer as an argument, from the runtime table or from a registry; HTTP rests on everything but the services it
  can do without. No pointer dangles save those of stopped protocol services to the socket layer, and none is
  missing: whatever an object may point at and is there, it does point at, but for the two pointers that are handed
  over later. A start succeeds exactly when the calls it depends on do, and a failed start leaves nothing running; a
  second stop changes nothing.
* **Code against machine.** The methods follow the code step by step; their contracts say that the code takes
  exactly the steps of the machine about which the theorems are proved, from the cold start on.
* **WebRTC address.** The dotted-quad parser accepts exactly four dot-joined groups of one to three digits worth
  at most 255. WebRTC is enabled exactly when the configuration enables it and the address decided on is such a text
  whose first group is worth neither 0 nor 127: the one given, else the interface's, else the host.
* **Buffer sizes, compile commands, quoted literals.** No 32-bit operation wraps for dimensions up to 16384; every
  size is given in terms of width, height, format and depth alone. The compile-command rewriter leaves no listed flag
  behind, and it is said of each sort of argument what it turns into. The quoted-literal scanner finds the one literal
  there is.

Some properties that one might expect are false of the code, and are stated with the exact condition under which
they hold:

* An override of the static root does not survive: after a start with an override that differs from the stored
  root, HTTP agrees with the configuration after a run if and only if no update was accepted or the first accepted
  one was of `http` (`Restarts.OverriddenRunAgrees`); it agrees after every run if and only if the override is
  redundant (`Restarts.OverrideAgreesIffRedundant`).
* A restart need not give the running state: it does if and only if neither an interface name nor a public address
  is missing from the stored sections that the default file supplies with a value other than the built-in one
  (`Restarts.ReconfiguringEqualsRestarting`). One update leads there when the default file names a public address
  (`ShippedDefaults.ARestartCanDiffer`); with the default file the repository ships it never happens
  (`ShippedDefaults.ShippedRestart`).
* A start that fails while attaching its configuration scopes also detaches a scope of the same name attached by
  someone else: the scopes are what they were if and only if it failed earlier or no such scope was attached
  (`Protocol.FailedStartKeepsScopes`).
* While the protocol layer stops, pointers dangle at the point where the socket layer is gone if and only if a
  protocol service is there to be stopped (`ProtocolTeardown.DanglesIffServicePresent`).
* While the protocol layer stops there is a point at which HTTP runs on stopped network statistics, which it keeps a
  pointer to, if and only if HTTP runs when the stop begins (`ProtocolTeardown.HttpOutrunsStatistics`).
* A flag that is to be dropped with its value takes the value along, whatever it is, if and only if it is not
  `-isysroot` (`CompileCommand.ValueGoesIffNotIsysroot`).
* Rewriting a compile command twice only repeats the warning switch if and only if the source is not named like
  that switch, nor `-iquote/` while some `-iquote` argument names the root (`CompileCommand.SanitizingTwice`).

## How the model is built

| file | module | what it holds |
|---|---|---|
| `Json.dfy`, `AppConfig.dfy` | `JsonValues`, `AppConfiguration` | JSON values; the meaning of each section and of the whole configuration |
| `ConfigLoader.dfy` | `ConfigLoader` | the loader, field by field |
| `Documents.dfy` | `Documents` | what a document says, member by member; writing a configuration down |
| `ConfigService.dfy`, `FillingIn.dfy` | `ConfigService`, `FillingIn` | filling in the stored sections from the default file, what the loader sees of it, and what it is good for |
| `ConfigChange.dfy` | `ConfigChange` | restart-only guards and change detectors |
| `Ipv4.dfy`, `ProtocolOptions.dfy` | `Ipv4`, `ProtocolOptions` | the parser, the address rule, the option builders |
| `Reconfiguration.dfy`, `Restarts.dfy` | `Reconfiguration`, `Restarts` | the update machine and the theorems about its runs; starts, restarts and overrides |
| `ServedOptions.dfy`, `UpdateAnswers.dfy` | `ServedOptions`, `UpdateAnswers` | which JSON member each option of a running service is; which answer an update gets, and what a refusal names |
| `ObjectGraphs.dfy`, `Lifetimes.dfy`, `Machine.dfy` | `ObjectGraphs`, `Lifetimes`, `Machines` | objects with raw pointers; the components and the global tables; the mutable world with its trace |
| `FoundationSubsystem.dfy`, `DeviceSubsystem.dfy`, `MediaSubsystem.dfy` | `Foundation`, `Device`, `Media` | the first three subsystems |
| `ProtocolServices.dfy`, `ProtocolTeardown.dfy`, `ProtocolSubsystem.dfy` | `ProtocolServices`, `ProtocolTeardown`, `Protocol` | starting, stopping and updating the protocol services |
| `ConfigRequests.dfy` | `ConfigRequests` | requests to the configuration service, one and many |
| `Application.dfy` | `Applications` | the four subsystems together; sessions |
| `ShippedDefaults.dfy` | `ShippedDefaults` | the configuration the repository ships |
| `CompileCommand.dfy`, `CompileFlags.dfy` | `CompileCommand`, `CompileFlags` | rewriting a compile command; what becomes of each sort of argument |
| `QuotedPath.dfy` | `QuotedPath` | the scanner for quoted literals |
| `Buffers.dfy`, `BufferSizes.dfy` | `Buffers`, `BufferSizes` | buffer sizes in 32 bits; what they are in plain numbers |

The subsystems are classes over one shared `Machine`, whose `w` is the world: the components that exist, which of
them run, what each points to, the options each service took, the tables of the runtime and of the two registries,
the attached scopes and the stored sections. An owning pointer of the code is an entry of the object table. Every
change of the world is one primitive step; the ghost `trace` keeps every world there has been, and `Machine.Valid`
says that each of them was safe and is one permitted step from the one before. So every contract that mentions
`Valid()` speaks of all intermediate states. A `Fate` is the set of the fallible calls that succeed; nothing is assumed of it.

## What is assumed

* The configuration service can always write its file in the end: a failed write is reported (`Save`), but the file
  is written again when the service stops. A start whose file cannot be read or written counts as a failed start
  of the service.
* Writes to sections outside the four scopes are not refused by anyone else's scope; a refused one is no event.
* A service that refuses new options keeps the ones it has, as all three do; whether it refuses is left open.
* A network interface reports one address. The addresses may change at any time between two requests while the
  application runs, and always do so as an event of their own (`NewAddresses`, `Readdress`): a write of the
  network section that reaches the platform is followed by one.
* A component takes its pointers from the global tables once, while it is made. What a request handler reads from
  them for one answer and does not keep is no pointer of the model.
* The device always lets go of its frame sink. Taking a pointer out of a table removes the entry of the component it points to.
* Making an object can fail; calling its stop cannot. The platforms handed to the device layer are made by it, one
  after the other, as their owners are.
* A stopped protocol service may outlive the socket layer, because the code destroys them in this order; what its
  destructor does is not part of this model.
* JSON member names and section names are constructors of a datatype; any other name is `OtherKey` or `Other`.
* Directories of compile commands are absolute, and normalising an absolute path gives an absolute path.

## Model

| member | source | states |
|---|---|---|
| AppConfiguration.LoadIffDescribes | app/config/app_config.cpp:230-265 | a root loads to a configuration if and only if every one of its seven sections, read alone, is the part of the configuration it feeds |
| AppConfiguration.LoadIsLocal | app/config/app_config.cpp:20-265 | replacing one section of a loadable root changes only the fields that section feeds |
| AppConfiguration.InertSectionFeedsNothing | app/config/app_config.cpp:105-124 | replacing `snapshot`, or a section the loader does not ask for, changes no field |
| AppConfiguration.OnvifAddressFeedsNothing | app/config/app_config.cpp:177-210 | the onvif section's own address must be there and not empty, and has no other effect |
| AppConfiguration.IceServersInOrder | app/config/app_config.cpp:152-174 | the server list loads exactly when every entry does, and keeps its length and order |
| AppConfiguration.LoadedRanges | app/config/app_config.cpp:51-210 | every loaded configuration has its ports in 1..65535, its counts positive, its addresses and static root not empty, and the servers of the document in order |
| Documents.LoadIffSays | app/config/app_config.cpp:8-265 | a root loads to a configuration if and only if each field of it is the value of the JSON member it stands for, all required members are there, in range and not empty |
| Documents.WriteThenLoad | app/config/app_config.cpp:20-265 | writing any configuration within the ranges, each field under its own member, and loading it gives it back |
| Documents.LoadedIsSayable | app/config/app_config.cpp:51-210 | every configuration that loads is within the ranges, so writing and loading it gives it back |
| ConfigLoader.ParseRtspCodec | app/config/app_config.cpp:8-18 | sets the codec exactly for the two known names and leaves it alone otherwise |
| ConfigLoader.ApplyRtspCodecConfig | app/config/app_config.cpp:20-49 | succeeds exactly when the section can be read, and then replaces exactly the two codecs |
| ConfigLoader.ApplyNetworkConfig | app/config/app_config.cpp:51-70 | succeeds exactly when there is an address, and replaces exactly the address and, if given, the interface |
| ConfigLoader.ApplyHttpConfig | app/config/app_config.cpp:72-84 | succeeds exactly when port and static root can be read, and replaces exactly these |
| ConfigLoader.ApplyRtspConfig | app/config/app_config.cpp:86-103 | succeeds exactly when port, authentication and session limit can be read, and replaces exactly these |
| ConfigLoader.ApplySnapshotConfig | app/config/app_config.cpp:105-124 | succeeds exactly when the section can be read; there is nothing it could change |
| ConfigLoader.ReadIceServers | app/config/app_config.cpp:157-173 | the loop that appends entries gives the list of all entries, or fails at a bad one |
| ConfigLoader.ApplyWebrtcConfig | app/config/app_config.cpp:126-175 | succeeds exactly when the section can be read, and replaces exactly its six fields |
| ConfigLoader.ApplyOnvifConfig | app/config/app_config.cpp:177-210 | succeeds exactly when the section can be read, and replaces exactly its six fields |
| ConfigLoader.LoadAppConfigFromRoot | app/config/app_config.cpp:230-265 | all or nothing: the caller's structure becomes the load of the root, or stays as it was |
| ConfigLoader.LoadAppConfig | app/config/app_config.cpp:214-228 | the same for the stored sections |
| ConfigLoader.BuildNextRoot | app/subsystems/protocol_config_changes.cpp:69-79 | the loop over the seven names gives the stored root with the section of the scope replaced |
| ConfigChange.VerifyProtocolConfigChangeScope | app/config/protocol_config_change.cpp:34-85 | accepts exactly when the scope is one of the four and no restart-only field of it differs; a refusal names a field that does differ |
| ConfigChange.SameIceServers | app/config/protocol_config_change.cpp:17-30 | the element-by-element comparison is equality of the lists |
| Ipv4.ReadGroup | app/subsystems/protocol_options.cpp:54-60 | reads the decimal value of a run of digits, or finds a character that is none |
| Ipv4.ParseIpv4Octets | app/subsystems/protocol_options.cpp:37-69 | terminates, stays inside the array, and agrees with cutting the text at its dots |
| Ipv4.JoinThenCut | app/subsystems/protocol_options.cpp:43-67 | cutting four joined groups at the dots gives back the four groups |
| Ipv4.CutThenJoin | app/subsystems/protocol_options.cpp:43-67 | joining the pieces of a text that does not end in a dot gives back the text |
| Ipv4.ParseQuadIffDotted | app/subsystems/protocol_options.cpp:37-69 | accepts exactly four dot-joined groups of one to three digits worth at most 255, and gives their values |
| Ipv4.PrintParse | app/subsystems/protocol_options.cpp:37-69 | printing any four bytes as in section 3.2.2 of RFC 3986 and parsing gives them back |
| ProtocolOptions.ToLowerAscii | app/subsystems/protocol_options.cpp:24-30 | every character lowered, in place |
| ProtocolOptions.IsUsableWebrtcPublicIp | app/subsystems/protocol_options.cpp:71-77 | usable exactly when the text is a dotted quad whose first group is worth neither 0 nor 127 |
| ProtocolOptions.ResolveWebrtcPublicIp | app/subsystems/protocol_options.cpp:79-114 | the branches pick the first usable candidate in order of priority, or nothing |
| ProtocolOptions.BuildWebrtcOptions | app/subsystems/protocol_options.cpp:145-161 | the options are those of the rule: enabled only with an address |
| ProtocolOptions.FirstUsableIsFirst | app/subsystems/protocol_options.cpp:85-113 | the candidate chosen is usable and every earlier one is not |
| ProtocolOptions.EnabledIffSomeCandidateUsable | app/subsystems/protocol_options.cpp:79-161 | enabled exactly when the configuration enables WebRTC and some candidate is usable, and then with a usable address |
| ProtocolOptions.UsableIffAdvertisable | app/subsystems/protocol_options.cpp:71-77 | an address is usable exactly when it is four dot-joined groups whose first is worth neither 0 nor 127 |
| ProtocolOptions.PrintedUsable | app/subsystems/protocol_options.cpp:71-77 | of the addresses written in full, exactly those with first byte 0 or 127 are refused |
| ProtocolOptions.AutoIffSpelled | app/subsystems/protocol_options.cpp:24-35 | a request to resolve is the empty text, the wildcard address, or the word in any mixture of capitals and small letters |
| ProtocolOptions.OptionsAreDecided | app/subsystems/protocol_options.cpp:79-161 | enabled and address as a rule on texts: an address given stands or falls alone, else the interface's, else the host |
| ProtocolOptions.UsableIsExplicit | app/subsystems/protocol_options.cpp:32-35 | a usable address is never taken for a request to resolve one |
| ProtocolOptions.PinningKeepsOptions | app/subsystems/protocol_options.cpp:79-161 | writing the resolved address into the configuration gives the same options whatever the network answers later |
| Reconfiguration.OwnServiceUntouched | app/config/protocol_config_change.cpp:87-116 | a change the guard accepts and the detector does not see would not change the options of the scope's own service, whatever happened to other sections |
| Reconfiguration.UndetectedIsHarmless | app/config/protocol_config_change.cpp:87-116 | if other sections are left alone as well, it would not change the options of any service |
| Reconfiguration.OtherServicesUntouched | app/subsystems/protocol_config_changes.cpp:117-128 | telling only the service of the scope is enough: the options of the others stay the same |
| UpdateAnswers.GuardIff | app/config/protocol_config_change.cpp:34-85 | the guard of each of the four scopes lets a change through exactly when these fields are equal, and lets no other scope through |
| UpdateAnswers.DetectedIff | app/config/protocol_config_change.cpp:87-116 | under the guard the detectors of RTSP and ONVIF fire exactly when the options differ, that of WebRTC exactly when what the webrtc or the network section feeds does |
| UpdateAnswers.AnswersExactly | libs/event/src/config.cpp:312-369 | which of the five answers a request gets, in every case |
| UpdateAnswers.RefusalNamesMember | app/config/protocol_config_change.cpp:34-85 | the name in a refusal is that of a JSON member in which the offered and the stored section differ |
| Reconfiguration.RunsKeepAgreement | app/subsystems/protocol_config_changes.cpp:82-134 | in every run of accepted and refused updates, the configuration is the load of the store and every service has the options built from it |
| ServedOptions.RunsServe | app/subsystems/protocol_options.cpp:134-182 | after any run from any start, with other writes, address changes and any override, each option that a protocol section feeds is the JSON member it stands for in the section stored by then |
| ServedOptions.UpdateRunsServe | app/subsystems/protocol_options.cpp:79-177 | after any run of updates so are the codecs and the ONVIF address, and WebRTC's address follows from the JSON members by the rule on texts |
| ServedOptions.StaticRootServed | app/application/application.cpp:114-117 | the static root served is the override, if there is one, and otherwise the one stored by then |
| Restarts.ReconfiguringEqualsRestarting | libs/event/src/config.cpp:390-422 | after any run of updates the state is the one a restart would give, if and only if the restart fills in nothing that the loader reads |
| Restarts.RestartingAtOnce | libs/event/src/config.cpp:390-422 | a restart right after a start changes nothing, not even the stored sections |
| ConfigService.MergeMissingFields | libs/event/src/config.cpp:83-97 | the code that changes the stored value member by member gives the filled-in value |
| FillingIn.PrunedFileLoads | libs/event/src/config.cpp:83-97 | a file that differs from a loadable one in what it lacks loads once filled in from a loadable default file, and each field comes from the file where it has the member, from the default file otherwise |
| FillingIn.PrunedFileStarts | libs/event/src/config.cpp:390-422 | so a start on such a file succeeds, with the services on that configuration, with any override |
| FillingIn.FirstStart | libs/event/src/config.cpp:397-408 | with nothing stored a start is a start on the default file |
| FillingIn.FileIsKept | libs/event/src/config.cpp:83-97 | no member of the file is lost, and one that is no object keeps its value |
| FillingIn.NothingIsInvented | libs/event/src/config.cpp:83-97 | no member appears that neither side has |
| ConfigService.MergeTwice | libs/event/src/config.cpp:414-417 | filling in sections that have been filled in changes nothing |
| ConfigService.MergeKeepsLoad | libs/event/src/config.cpp:414-417 | filling in changes what is loaded if and only if it supplies an interface name or a public address that is missing, other than the built-in one |
| Restarts.OverrideAgreesIffRedundant | app/application/application.cpp:114-117 | HTTP and configuration agree in every run if and only if the override is absent or repeats the stored static root |
| Restarts.OverriddenRunAgrees | app/application/application.cpp:114-117 | after any run from a start with another override: RTSP, WebRTC and ONVIF agree, HTTP agrees exactly if no update was accepted or the first one was of `http`, and the configuration is the load of the store exactly if one was accepted |
| Reconfiguration.RestartFieldsStay | app/config/protocol_config_change.cpp:34-85 | in every run, with other writes and after a start with any override, no restart-only field changes, although each update overwrites the whole configuration; only the static root becomes the stored one at the first accepted update, unless that is one of `http` |
| Reconfiguration.RunsKeepNearAgreement | app/subsystems/protocol_config_changes.cpp:62-134 | in every run with other writes and address changes, with any override, only codecs, advertised address, public address, `enabled` and static root can lag, and WebRTC is never left enabled with an unusable address |
| Reconfiguration.HttpAgreementAfterRun | app/application/application.cpp:114-117 | after such a run HTTP agrees if and only if the override was redundant, no update was accepted, or the first accepted one was of `http` |
| Reconfiguration.RtspAgreementAfterUpdate | app/subsystems/protocol_config_changes.cpp:117-134 | exactly when RTSP agrees after an accepted update, whether or not it agreed before |
| Reconfiguration.OnvifAgreementAfterUpdate | app/subsystems/protocol_config_changes.cpp:124-134 | exactly when ONVIF does |
| Reconfiguration.WebrtcAgreementInScope | app/subsystems/protocol_config_changes.cpp:120-123 | a lagging WebRTC service recovers from an update of its own section exactly when the detector fires |
| Reconfiguration.WebrtcAgreementOutOfScope | app/subsystems/protocol_config_changes.cpp:120-132 | after another update WebRTC agrees exactly when the address it has is the one resolved now, whether or not it agreed before |
| Reconfiguration.AgreementAfterReaddress | app/subsystems/protocol_options.cpp:94-102 | when an interface changes its address RTSP and ONVIF stay as they are, and WebRTC agrees exactly when its address is the one resolved now |
| Reconfiguration.ServicesCanFollow | libs/rtsp/src/rtsp.cpp:203-216 | the restart-only guard lets nothing through that a running service cannot change: every option outside what RTSP, ONVIF and WebRTC can take over while running is the one they have |
| Reconfiguration.AnswersTell | libs/event/src/config.cpp:312-369 | a request answered with anything but `Ok` or `Save` changes nothing; one answered with `Save` is reported as failed but has taken effect |
| Reconfiguration.VerifiedFailsOnlyInApply | app/subsystems/protocol_config_changes.cpp:98-134 | after a successful verification applying fails only with `Apply`, exactly when a difference is found and the service is missing or refuses |
| Reconfiguration.MissingServiceRefused | app/subsystems/protocol_config_changes.cpp:136-168 | an update that would change the options of its own service while that is missing is refused, also after other writes and under an override |
| Reconfiguration.SkippingRefinesEager | app/config/protocol_config_change.cpp:87-116 | with willing services, skipping undetected changes gives the same runs as pushing every update |
| Lifetimes.ObjectStepSafe | app/subsystems/protocol_subsystem.cpp:41-249 | making, starting, stopping, linking or destroying an object under its local condition keeps the world safe |
| Lifetimes.TableStepSafe | app/subsystems/protocol_subsystem.cpp:68-247 | changing one of the global tables under its local condition keeps the world safe |
| Lifetimes.RegisteredRuns | app/subsystems/protocol_subsystem.cpp:99-193 | a registered service runs, and so do the socket layer and the callback loop; behind HTTP, network statistics too |
| Lifetimes.NeededRuns | app/application/application.cpp:91-162 | what runs has running everything it must keep a pointer to and needs running |
| Lifetimes.ServiceRestsOn | libs/rtsp/src/rtsp.cpp:72-78 | while RTSP, WebRTC, ONVIF, network statistics or HTTP runs, so does all that it keeps pointers to, and what those rest on: authentication and its configuration service, the event bus, media streams, devices, sockets and their loop |
| Lifetimes.HttpRestsOnEverything | libs/http/src/http.cpp:203-279 | while HTTP runs, all that can be started runs, but for RTSP, WebRTC, ONVIF and the statistics |
| Lifetimes.StillOnlyWhereAllowed | app/subsystems/protocol_subsystem.cpp:219-224 | a running object points at one that stands still only if that is never started, or is the device that the streams feed, or the statistics that HTTP reads |
| Lifetimes.HoldsAllThereIs | app/subsystems/protocol_subsystem.cpp:86-193 | whatever an object may point at and is there it does point at, and at no predecessor of it, but for the audit sink and the frame sink, which are handed over later, and for the socket layer under stopped services |
| Lifetimes.DanglingOnlyToSockets | app/subsystems/protocol_subsystem.cpp:212-249 | of all pointers, those taken from the runtime and the registries included, the only one that can dangle is that of a stopped protocol service to the socket layer |
| Machines.Machine.Act | app/application/application.cpp:91-162 | one step on one object; the state reached joins the trace, in which every state is safe and one permitted step from the one before |
| Machines.Machine.Tell | app/application/application.cpp:91-162 | one step on one table; the same holds of the trace |
| Foundation.FoundationSubsystem.Start | app/subsystems/foundation_subsystem.cpp:76-157 | succeeds exactly when the paths are complete and every call it depends on does (not the audit sink); then authentication holds the audit sink exactly if it took it; otherwise nothing of the foundation is left |
| Foundation.FoundationSubsystem.AttachSink | app/subsystems/foundation_subsystem.cpp:139-140 | the audit sink points to the logger, and authentication to the sink if it takes it |
| Foundation.FoundationSubsystem.Stop | app/subsystems/foundation_subsystem.cpp:159-179 | from any point of a start: the foundation, its runtime pointers and the scopes are gone, and nothing else changes |
| Device.DeviceSubsystem.Start | app/subsystems/device_subsystem.cpp:13-91 | succeeds exactly when all five components start; otherwise nothing of the device layer is left; the foundation is untouched either way |
| Device.StartsInOrder | app/subsystems/device_subsystem.cpp:13-91 | whatever a start leaves behind on the way, a component is there only on top of the running one before it |
| Device.DeviceSubsystem.Stop | app/subsystems/device_subsystem.cpp:93-119 | from any point of a start: the device layer is gone and nothing else changes; each component goes before its platform |
| Media.MediaSubsystem.Start | app/subsystems/media_subsystem.cpp:44-106 | succeeds exactly when every call it depends on does; otherwise nothing of the media layer is left |
| Media.MediaSubsystem.StartStreams | app/subsystems/media_subsystem.cpp:56-73 | the streams run before they become the frame sink of a device that does not run yet |
| Media.MediaSubsystem.Stop | app/subsystems/media_subsystem.cpp:108-132 | from any point of a start: the media layer is gone, the frame sink and the source registry are cleared before what they point to |
| Protocol.ProtocolSubsystem.InstallConfigUpdateScopes | app/subsystems/protocol_config_changes.cpp:21-48 | all or nothing, whichever call fails: the four scopes are added, or the scopes are what they were |
| Protocol.ProtocolSubsystem.RemoveConfigUpdateScopes | app/subsystems/protocol_config_changes.cpp:50-60 | while attached, the four names go and the raw pointers become null; otherwise nothing happens |
| Protocol.ProtocolSubsystem.StartSockets | app/subsystems/protocol_subsystem.cpp:49-84 | succeeds exactly when loop, socket layer and runtime accept and each of the four users gets a loop |
| Protocol.ProtocolSubsystem.TryOptional | app/subsystems/protocol_subsystem.cpp:86-155 | an optional service ends up running and registered with its options, or absent; only a refused registration fails the start |
| Protocol.ProtocolSubsystem.TryMandatory | app/subsystems/protocol_subsystem.cpp:157-193 | a mandatory service ends up running and registered, or the start fails |
| Protocol.ProtocolSubsystem.StartServices | app/subsystems/protocol_subsystem.cpp:86-193 | on success exactly the services that came up run, registered, with the options built for them |
| Protocol.ProtocolSubsystem.Start | app/subsystems/protocol_subsystem.cpp:41-210 | succeeds exactly when socket layer, mandatory services, registrations and scopes do, and then shows the fresh state of the configuration; otherwise nothing is left but the stopped loop, with an empty registry |
| Protocol.FailedStartKeepsScopes | app/subsystems/protocol_subsystem.cpp:199-206 | a failed start leaves the scopes as they were if and only if it failed before attaching any, or none of the four names was in use |
| Protocol.ProtocolSubsystem.Stop | app/subsystems/protocol_subsystem.cpp:212-249 | from any point of a start: every service and the socket layer are gone, the loop is stopped, registry and pointers are cleared |
| Protocol.ProtocolSubsystem.StopServices | app/subsystems/protocol_subsystem.cpp:214-247 | passes through the state in which the statistics have stopped and HTTP has not, and the one in which the socket layer is gone and the stopped services are not |
| ProtocolTeardown.HttpOutrunsStatistics | app/subsystems/protocol_subsystem.cpp:219-224 | in the first of these HTTP runs and keeps a pointer to stopped statistics if and only if HTTP runs when the stop begins |
| ProtocolServices.RefsAreComplete | app/subsystems/protocol_subsystem.cpp:86-180 | a service is made with a pointer to everything there is that it may point at, the optional RTSP and WebRTC services included |
| ProtocolServices.RefsArePublished | libs/http/src/http.cpp:215-271 | the pointers a service is made with are what the runtime table and the two registries hand out at that time |
| ProtocolTeardown.TornDownIsStopped | app/subsystems/protocol_subsystem.cpp:214-247 | the stages of stopping, taken together, remove exactly the protocol components but the loop |
| ProtocolTeardown.DanglesIffServicePresent | app/subsystems/protocol_subsystem.cpp:234-246 | in the second of these a pointer dangles if and only if there was a protocol service to be stopped |
| Protocol.ProtocolSubsystem.BuildNextAppConfig | app/subsystems/protocol_config_changes.cpp:62-80 | gives the load of the store with one section replaced, and fails exactly when there is none |
| Protocol.ProtocolSubsystem.VerifyProtocolConfigChange | app/subsystems/protocol_config_changes.cpp:82-96 | decides as the machine does and writes an error exactly when it refuses |
| Protocol.ProtocolSubsystem.ApplyProtocolConfigChange | app/subsystems/protocol_config_changes.cpp:98-134 | takes exactly the step of the machine; a refusal leaves the world and the configuration as they were |
| Protocol.ProtocolSubsystem.ApplyRtspConfigChange | app/subsystems/protocol_config_changes.cpp:136-145 | succeeds exactly when the service is there and takes its new options, and changes nothing else |
| Protocol.ProtocolSubsystem.ApplyWebrtcConfigChange | app/subsystems/protocol_config_changes.cpp:147-157 | the same for WebRTC, with the address resolved anew |
| Protocol.ProtocolSubsystem.ApplyOnvifConfigChange | app/subsystems/protocol_config_changes.cpp:159-168 | the same for ONVIF |
| ConfigRequests.Serve | libs/event/src/config.cpp:312-369 | one request takes one step of the machine, and gets its answer; a missing section is refused and a value stored already goes no further |
| ConfigRequests.ServeAll | libs/event/src/config.cpp:203-216 | any sequence of requests and address changes takes the running services along a run of the machine |
| Protocol.ProtocolSubsystem.TakeAddresses | app/subsystems/protocol_options.cpp:94-102 | new interface addresses reach no service; they are what the next resolution asks for |
| Applications.Application.Start | app/application/application.cpp:91-153 | succeeds exactly when the paths, the load of the filled-in sections and every call it depends on do, and then shows the boot state of the machine, with no pointer missing; otherwise all is stopped |
| Applications.StartsIff | app/application/application.cpp:91-153 | the calls a start needs, as one list: it succeeds if and only if the paths are given, the sections load once filled in, these succeed, each loop user finds a loop, and no optional service that comes up is refused by the registry |
| Applications.Application.StartBase | app/application/application.cpp:103-118 | the configuration kept is the load of the store with a non-empty override put in |
| Applications.Application.Stop | app/application/application.cpp:155-162 | from any point of a start, stops all four layers; stored sections and addresses stay |
| Applications.AllStoppedIsDown | app/application/application.cpp:155-162 | after a stop nothing is left but the stopped callback loop: no pointer in a table, no scope |
| Applications.StoppingTwice | app/application/application.cpp:155-162 | stopping a second time changes nothing |
| Applications.SessionNearlyAgrees | app/application/application.cpp:91-153 | whatever is requested in a session, with any override and any address changes, near agreement holds at its end, and it is said exactly when HTTP agrees |
| Applications.SessionServes | app/application/application.cpp:91-153 | at the end of any session each option that a protocol section feeds is its JSON member; after protocol updates alone so are the others |
| Applications.SessionAgrees | app/application/application.cpp:91-153 | at the end of a session of protocol updates alone, with any override, RTSP, WebRTC and ONVIF agree |
| Applications.Session | app/application/application.cpp:91-153 | from a cold start, the code's state after any requests and address changes is the machine's run from its boot state, and each option that a protocol section feeds is its JSON member |
| Applications.SafeIsLayered | app/application/application.cpp:91-162 | in a safe state every registered service runs, and what runs has running everything it must keep a pointer to and needs running, wherever it got the pointer |
| Applications.SafeIsPointed | app/application/application.cpp:91-162 | in a safe state every runtime pointer, the source registry, the frame sink, the audit links and all other pointers are good, save those of stopped services to the socket layer |
| Applications.SafeIsConnected | app/application/application.cpp:91-162 | in a safe state every object points at every object there is that it may point at, but for the two pointers handed over later |
| Applications.Drive | app/application/application.cpp:91-162 | in any sequence of starts, stops, requests and address changes, with any calls failing, these three hold in every state passed through, each one permitted step from the one before |
| ShippedDefaults.ShippedLoads | configs/default_config.json:2-221 | the shipped sections load, and differ from the built-in defaults in advertised address and session limit only |
| ShippedDefaults.ShippedWebrtcIsEnabled | configs/default_config.json:170-200 | on the shipped sections WebRTC is enabled, whatever the network interface answers |
| ShippedDefaults.SwitchingAuthOff | configs/default_config.json:163-169 | switching RTSP authentication off is accepted, reaches the service, and gives the state of a start on the changed section |
| ShippedDefaults.ShippedRestart | configs/default_config.json:2-221 | with the shipped default file the running state after any run of updates is the one a restart gives, whatever the stored file holds |
| ShippedDefaults.ARestartCanDiffer | libs/event/src/config.cpp:414-417 | with a default file that names a public address, one accepted update that drops the optional member makes the restart differ |
| Buffers.RoundUpIsLeast | 3rdparty/hisi_mpp/include/hi_math.h:74-77 | rounding up gives the least multiple that is not below the number |
| BufferSizes.PictureSizes | 3rdparty/hisi_mpp/include/hi_buffer.h:32-178 | every size of the result in terms of width, height, format, depth, mode and alignment asked for: strides, planes, head and their sum |
| BufferSizes.HeadCoversRow | 3rdparty/hisi_mpp/include/hi_buffer.h:109-120 | up to 16384 samples the head has a byte for each 256 samples of a row |
| BufferSizes.ReferenceSize | 3rdparty/hisi_mpp/include/hi_buffer.h:424-481 | a reference buffer is two headers of 64 bytes for each 128 by 64 samples (32 for each 512 by 16), luma on a grid of 64 by 16, and half as much chroma |
| Buffers.AlignUpIsExact | 3rdparty/hisi_mpp/include/hi_math.h:74-74 | the alignment macro rounds up, unless its sum wraps |
| Buffers.Picture.AlignInRange | 3rdparty/hisi_mpp/include/hi_buffer.h:50-61 | the effective alignment is a multiple of the default, between default and maximum, and not below what was asked |
| Buffers.GetPicBufferConfig | 3rdparty/hisi_mpp/include/hi_buffer.h:32-178 | the 32-bit code gives the exact sizes on every input on which no operation wraps |
| Buffers.FitsUpTo16384 | 3rdparty/hisi_mpp/include/hi_buffer.h:32-178 | no operation wraps for dimensions up to 16384, in any format, depth, mode and alignment |
| Buffers.StrideIsLeast | 3rdparty/hisi_mpp/include/hi_buffer.h:85-89 | the stride is the least multiple of the alignment that holds a row |
| Buffers.MainSizeIsWhole | 3rdparty/hisi_mpp/include/hi_buffer.h:91-106 | the planes together are exactly their share of the luma plane; halving loses nothing |
| Buffers.ThreeHalvesOfLuma | 3rdparty/hisi_mpp/include/hi_buffer.h:91-94 | a 4:2:0 picture is exactly three halves of its luma |
| Buffers.HoldsEverySample | 3rdparty/hisi_mpp/include/hi_buffer.h:85-108 | an uncompressed buffer has room for every sample of every plane |
| Buffers.SizeGrows | 3rdparty/hisi_mpp/include/hi_buffer.h:32-178 | a larger picture never gets a smaller buffer |
| Buffers.GetRefBufferSize | 3rdparty/hisi_mpp/include/hi_buffer.h:424-481 | the 32-bit code gives the exact size on every input on which no operation wraps, and 0 for what it does not support |
| Buffers.EightfoldSurvives | 3rdparty/hisi_mpp/include/hi_buffer.h:455-455 | multiplying by 8 and shifting back loses nothing if and only if the luma size is below 2^29 |
| Buffers.RefFitsUpTo16384 | 3rdparty/hisi_mpp/include/hi_buffer.h:424-481 | no operation wraps for dimensions up to 16384 |
| Buffers.RefHoldsPicture | 3rdparty/hisi_mpp/include/hi_buffer.h:424-481 | a reference buffer holds at least three halves of width times height |
| Buffers.RefGrows | 3rdparty/hisi_mpp/include/hi_buffer.h:424-481 | a larger picture never gets a smaller reference buffer |
| Buffers.QpmapCoversBlocks | 3rdparty/hisi_mpp/include/hi_buffer.h:484-497 | the map has an entry for every block of 16 by 16 samples, unless its size wraps |
| Buffers.QpmapFitsUpTo16384 | 3rdparty/hisi_mpp/include/hi_buffer.h:484-497 | its size does not wrap for dimensions up to 16384 |
| CompileCommand.SanitizeCompileCommand | scripts/scan/quality_scan.py:2034-2068 | terminates; the new command is the compiler, the warning switch and what becomes of each token |
| CompileCommand.TakeArgument | scripts/scan/quality_scan.py:2036-2067 | one turn of the loop cuts one token off the arguments |
| CompileCommand.TokensSpellArguments | scripts/scan/quality_scan.py:2034-2067 | cutting into tokens loses no argument |
| CompileCommand.SanitizedIsClean | scripts/scan/quality_scan.py:2006-2041 | no element after the compiler is a flag, or starts with a prefix, that is to be dropped |
| CompileFlags.NoneListed | scripts/scan/quality_scan.py:2006-2041 | no element after the compiler is one of the six listed flags, `-Werror`, or starts with one of the ten listed prefixes |
| CompileFlags.ListedGoes | scripts/scan/quality_scan.py:2036-2039 | an argument with a listed prefix goes, whatever follows |
| CompileFlags.PathIsResolved | scripts/scan/quality_scan.py:2043-2054 | the argument after each of the five path options is resolved |
| CompileFlags.GluedIsResolved | scripts/scan/quality_scan.py:2047-2059 | a path glued to `-I`, `-isystem` or `-iquote` is resolved in place |
| CompileFlags.OthersStay | scripts/scan/quality_scan.py:2060-2067 | a source is resolved, and every other argument that is not listed stays as it is |
| CompileFlags.Resolves | scripts/scan/quality_scan.py:2029-2032 | a relative path is looked up in the directory, one from the root stays |
| CompileCommand.FlagAndValue | scripts/scan/quality_scan.py:2036-2042 | what becomes of the argument after each flag that takes a value |
| CompileCommand.ValueGoesIffNotIsysroot | scripts/scan/quality_scan.py:2036-2042 | the value always goes with its flag if and only if the flag is not `-isysroot` |
| CompileCommand.RewritingTwice | scripts/scan/quality_scan.py:2034-2068 | what a second rewriting does to each element of the first result |
| CompileCommand.SanitizingTwice | scripts/scan/quality_scan.py:2003-2068 | a second rewriting only adds one more copy of the warning switch, if and only if the source is not named like the switch, nor `-iquote/` while some `-iquote` argument resolves to the root |
| CompileCommand.SanitizingTwiceAddsTheSwitch | scripts/scan/quality_scan.py:2003-2068 | so it does for every source whose name does not start with a dash |
| QuotedPath.SkipSpaces | scripts/scan/check_http_web_contract.py:119-121 | stops at the first character that is no white space |
| QuotedPath.ReadBody | scripts/scan/check_http_web_contract.py:125-138 | finds the first quote that closes the literal, or there is none |
| QuotedPath.ExtractQuotedPath | scripts/scan/check_http_web_contract.py:118-138 | gives a literal at the position, with the place after it, if and only if there is one |
| QuotedPath.BodyIffNothingBare | scripts/scan/check_http_web_contract.py:125-138 | between two quotes stands exactly what has an odd number of backslashes before each quote of that kind and an even number at its end |
| QuotedPath.QuotedUnique | scripts/scan/check_http_web_contract.py:118-138 | there is at most one literal at a position |
| QuotedPath.NothingClosesInside | scripts/scan/check_http_web_contract.py:129-137 | no shorter literal closes inside a body |
| QuotedPath.EscapedIsFound | scripts/scan/check_http_web_contract.py:118-138 | any value, escaped and quoted after white space, is found again, whatever follows it |

## Left out

- The interfaces behind which the work is done (sockets, event loops, media, AI, JSON text, storage): calls that succeed or fail.
- Fields of options that are the same constant for every configuration, and options that consist of nothing else.
- Requests with ill-formed section names or values nested too deeply: the configuration service refuses them before anything else, so they are no events.
- The scope a failed request is reported under, and resetting sections to their defaults: the latter is a request with the default value.
- Logging, signals, memory maps, `main`, paths and the environment: input and output only.
- Initial and closing stream states of the media layer: values set on an object this model does not look into.
- Session tokens, user files and other contents of the foundation's components.
- The order of `Stop` calls within one failed start is that of the subsystem's own `Stop`, which the code calls on every failure path; the paths are therefore not told apart.
- Platforms that were made but not yet handed over when the device layer fails: they are destroyed with the arguments and nothing points to them.
- Destructors: what a stopped service does with its pointer to the destroyed socket layer.
- Concurrency: updates, starts and stops are taken one after the other.
- ShippedDefaults.ShippedLoads: leaves out the members of the shipped sections that the application does not read.
- Buffers.GetPicBufferConfig: says nothing of inputs on which an operation wraps, because the code promises nothing for them.
- Buffers.GetRefBufferSize: the same.
- Motion-vector and picture-information buffers, raw buffers, skip-weight and decoder sizes: the same pattern of rounding and products.
- CompileCommand.SanitizeCompileCommand: the normalisation of paths is a parameter, known only to keep absolute paths absolute.
- The rest of the two scripts: running tools, reading logs, writing reports.
- The web interface.
