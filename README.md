# consulalerting in Dafny

A verified model of the core of consulalerting: a Consul watch handler that
compares the current health of every check with the state it saw last time,
decides which checks changed state in a way worth reporting, and sends the
resulting alerts to HipChat, Slack, Mailgun, plain e-mail and PagerDuty,
routed by the tags of the check's service.  The repository holds two
generations of the Python package (the current `consulalerting/` and the
legacy `consul-alerting/`) and three command-line checks that read a metric
from InfluxDB and map it to a Nagios-style exit code (`utils/influxdb.go`,
`utils/boron/boron.go` and `utils/consul_check_influxdb.py`).

The model keeps the shape of the code:

- health records (`ConsulHealthStruct`, `ConsulHealthNodeStruct`) are
  classes with an immutable attribute map and a `Tags` field that `addTags`
  assigns in place;
- the watch handlers and notification engines are classes whose methods
  update their fields (the KV store, the loaded plugin configurations, the
  record of outgoing requests) and are proved against specification
  functions;
- the utilities, the plugin request builders and the three command-line
  checks are functions, with lemmas for the properties the code promises
  (round trips between the query built and the query read back, the
  threshold bands, the state-transition table of the alert filter, the
  routing of every alert to every channel it is tagged for).

Consul, the KV store, HTTP and SMTP, Telegraphite and InfluxDB are not
called: what they return is a parameter (a `Kv` value, a decoded JSON
value, a function from request to response), and what is sent to them is
recorded as a sequence of request values that the contracts describe.

Modules, one per core file plus shared definitions:

| module | file |
|---|---|
| `Wrappers`, `Text`, `Seqs`, `Json` | shared: Option/Result and the Python exceptions, ASCII case folding, split and join, decimal text, filtering, JSON values and dicts |
| `Health` | what both health records share (attribute map, status vocabulary, identity tuple) |
| `ConsulHealthStruct` | `consulalerting/ConsulHealthStruct.py` |
| `ConsulHealthNodeStruct` | `consul-alerting/ConsulHealthNodeStruct.py` |
| `Utilities` | `consulalerting/utilities.py` |
| `WatchCheckHandler` | `consulalerting/WatchCheckHandler.py` |
| `LegacyWatchCheckHandler` | `consul-alerting/WatchCheckHandler.py` |
| `Plugins` | `consulalerting/plugins.py` |
| `NotificationEngine` | `consulalerting/NotificationEngine.py` |
| `LegacyNotificationEngine` | `consul-alerting/NotificationEngine.py` |
| `Influxdb` | `utils/influxdb.go` |
| `Boron` | `utils/boron/boron.go` |
| `InfluxQuery`, `ConsulCheckInfluxdb` | `utils/consul_check_influxdb.py` (the query text and the check) |

## Model

| member | source | states |
|---|---|---|
| Health.States | consulalerting/settings.py:22-26 | the five status strings are distinct: the vocabulary has exactly five members |
| Health.IdentityIff | consulalerting/ConsulHealthStruct.py:41-51 | two entries have the same identity tuple exactly when they agree on Node, CheckID, Name, ServiceID and ServiceName |
| Health.IdentityIgnoresOtherAttributes | consulalerting/ConsulHealthStruct.py:41-47 | changing any attribute outside the identity (Status, Notes, Output, ...) leaves the identity unchanged |
| ConsulHealthStruct.TagsFor | consulalerting/ConsulHealthStruct.py:63-77 | the assigned tags are lower case; a null or empty source gives []; a truthy non-iterable source raises TypeError (the handler's evident intent); a failed source lookup raises |
| ConsulHealthStruct.TagsForAsWritten | consulalerting/ConsulHealthStruct.py:68-77 | as written: succeeds exactly when `TagsFor` does and with the same tags; a failed source lookup raises its own error; any failure inside the `try` raises AttributeError from the handler's logger |
| ConsulHealthStruct.TagsForAsWrittenDiffers | consulalerting/ConsulHealthStruct.py:71-77 | for a system check with a truthy scalar `non_service_checks`, the intended result is TypeError and the written one AttributeError |
| ConsulHealthStruct.SystemCheckTags | consulalerting/ConsulHealthStruct.py:63-64 | a check with neither ServiceID nor ServiceName takes the lower-cased `non_service_checks`, whatever the catalog |
| ConsulHealthStruct.ServiceCheckTags | consulalerting/ConsulHealthStruct.py:65-70 | a service check takes the lower-cased tags of the catalog service keyed by its ServiceID |
| ConsulHealthStruct.ServiceCheckKeyedById | consulalerting/ConsulHealthStruct.py:66 | a service check whose ServiceID is not a catalog key raises KeyError, even when its ServiceName is one |
| ConsulHealthStruct.HealthStruct.constructor | consulalerting/ConsulHealthStruct.py:19-30 | the record holds the given attributes and no Tags |
| ConsulHealthStruct.HealthStruct.AddTags | consulalerting/ConsulHealthStruct.py:53-77 | succeeds exactly when `TagsFor` does and then assigns its value; on an exception Tags is left as it was |
| ConsulHealthStruct.EqualsIff | consulalerting/ConsulHealthStruct.py:49-51 | `__eq__` holds exactly when the five identity attributes agree |
| ConsulHealthStruct.AbsentReadsNone | consulalerting/ConsulHealthStruct.py:35-36 | an attribute that was never set reads as None |
| ConsulHealthNodeStruct.LegacyStates | consul-alerting/ConsulHealthNodeStruct.py:19-23 | the legacy class constants are exactly the current status vocabulary |
| ConsulHealthNodeStruct.TagsFor | consul-alerting/ConsulHealthNodeStruct.py:68-77 | succeeds exactly when the source is a list, with its tags lower-cased; a null or scalar source raises TypeError |
| ConsulHealthNodeStruct.SystemCheckTags | consul-alerting/ConsulHealthNodeStruct.py:68-69 | a system check takes the lower-cased `non_service_checks` |
| ConsulHealthNodeStruct.ServiceCheckKeyedByName | consul-alerting/ConsulHealthNodeStruct.py:71 | a service check's source is the catalog service keyed by its ServiceName, and changing its ServiceID changes nothing |
| ConsulHealthNodeStruct.NullTagsRaise | consul-alerting/ConsulHealthNodeStruct.py:73-77 | a null tag source raises TypeError in the legacy record where the current record assigns [] |
| ConsulHealthNodeStruct.NodeStruct.constructor | consul-alerting/ConsulHealthNodeStruct.py:35 | the record holds the given attributes and no Tags |
| ConsulHealthNodeStruct.NodeStruct.AddTags | consul-alerting/ConsulHealthNodeStruct.py:58-77 | succeeds exactly when the legacy `TagsFor` does and assigns its value; on an exception Tags is unchanged |
| ConsulHealthNodeStruct.Construct | consul-alerting/ConsulHealthNodeStruct.py:25-36 | construction succeeds exactly when `addTags` does, giving a fresh record with the attributes and the tags; otherwise the exception escapes |
| ConsulHealthNodeStruct.EqualsIff | consul-alerting/ConsulHealthNodeStruct.py:47-56 | `__eq__` holds exactly when the five identity attributes agree |
| Utilities.PriorState | consulalerting/utilities.py:20-32 | a missing or undecodable key yields []; a stored value is returned as decoded |
| Utilities.GetCheckTags | consulalerting/utilities.py:35-47 | a missing or undecodable key yields []; a stored value is returned as decoded |
| Utilities.GetBlacklist | consulalerting/utilities.py:82-93 | only a missing key yields []; undecodable text raises ValueError; a stored list is returned |
| Utilities.CreateConsulHealthList | consulalerting/utilities.py:96-103 | one fresh record per entry, in order, each holding that entry and no Tags |
| Utilities.GetHashStateSet | consulalerting/utilities.py:111-116 | an identity is in the set exactly when some record in the given state has it |
| Utilities.HashStateSetCollapses | consulalerting/utilities.py:115-116 | a record whose identity and state are already present adds nothing to the set |
| Utilities.GetObjectListByState | consulalerting/utilities.py:119-125 | the result holds exactly the records in the given state, as a subsequence of the input |
| Utilities.CommonNotifiers | consulalerting/utilities.py:128-134 | succeeds exactly when the destination map exists and the record has Tags; it is then the intersection of the destination keys and the tags; a missing map raises KeyError |
| Utilities.LoadPlugin | consulalerting/utilities.py:137-155 | a missing key raises KeyError, a non-object AttributeError; a stored object loads exactly when its lower-cased keys name an object under the destination key, a missing destination raising KeyError; on success every top-level key is the lower-cased stored key with its value kept, and the destination map is the stored one with its keys lower-cased and its values kept |
| WatchCheckHandler.Listed | consulalerting/WatchCheckHandler.py:45-54 | one blacklist test raises TypeError exactly when the blacklist is unset; a "*" entry always matches; an unset or empty attribute matches only through "*" |
| WatchCheckHandler.FilteredStep | consulalerting/WatchCheckHandler.py:42-56 | the filter over a suffix is the verdict on its first record followed by the filter over the rest |
| WatchCheckHandler.FilteredSelectsSurvivors | consulalerting/WatchCheckHandler.py:40-60 | with all three blacklists set, the filter keeps exactly the records that no blacklist names and no list wildcards, in input order |
| WatchCheckHandler.FilteredIsSubseq | consulalerting/WatchCheckHandler.py:41-60 | whatever the blacklists, a successful filter returns a subsequence of the input objects |
| WatchCheckHandler.EntriesOfSurvivors | consulalerting/WatchCheckHandler.py:31-66 | filtering records by the blacklists and then taking their entries gives the same list as filtering the entries themselves |
| WatchCheckHandler.ServiceWildcardEmpties | consulalerting/WatchCheckHandler.py:45-46 | a "*" service entry filters out everything, whether or not the other blacklists are set |
| WatchCheckHandler.WildcardEmpties | consulalerting/WatchCheckHandler.py:45-54 | a "*" in any of the three blacklists filters out everything |
| WatchCheckHandler.UnsetServiceBlacklistRaises | consulalerting/WatchCheckHandler.py:40-66 | on a non-empty list an unset service blacklist raises TypeError |
| WatchCheckHandler.AlertHashSetIff | consulalerting/WatchCheckHandler.py:132-189 | an identity is in `alert_hash_set` exactly when some current record with it is unknown, recovered from warning or critical, became warning from anything but warning, or became critical from anything but critical |
| WatchCheckHandler.AlertHashSetSound | consulalerting/WatchCheckHandler.py:184-189 | every identity of the union comes from a reportable current record |
| WatchCheckHandler.SteadyStateReported | consulalerting/WatchCheckHandler.py:191-204 | with a prior snapshot, a current record is returned exactly when some current record with its identity is reportable |
| WatchCheckHandler.SteadyStateReportedUnique | consulalerting/WatchCheckHandler.py:191-204 | with unique identities, a current record is returned exactly when it is itself reportable |
| WatchCheckHandler.SteadyStateKeepsOrder | consulalerting/WatchCheckHandler.py:194-196 | the steady-state alerts are a subsequence of the current list |
| WatchCheckHandler.AlertsDrawnFromCurrent | consulalerting/WatchCheckHandler.py:114-196 | every returned alert is one of the current records |
| WatchCheckHandler.AlertsNeverEmptyList | consulalerting/WatchCheckHandler.py:116-204 | the result is None or a non-empty list, never an empty list |
| WatchCheckHandler.BootstrapReportsProblems | consulalerting/WatchCheckHandler.py:98-122 | without a prior snapshot, alerts exist exactly when some current record is warning or critical, and are the warnings followed by the criticals |
| WatchCheckHandler.UnchangedReportsOnlyUnknown | consulalerting/WatchCheckHandler.py:132-204 | when the prior snapshot has the same warning and critical identities as the current one, only the unknown records are returned |
| WatchCheckHandler.UnchangedRecordReported | consulalerting/WatchCheckHandler.py:132-189 | in that situation a record's identity is in the alert set exactly when the record is unknown |
| WatchCheckHandler.UnchangedRecordNotReportable | consulalerting/WatchCheckHandler.py:157-181 | in that situation a record that is not unknown is not reportable |
| WatchCheckHandler.SameSnapshotReportsOnlyUnknown | consulalerting/WatchCheckHandler.py:234-275 | comparing a snapshot with itself, which is what `Run` does, returns only its unknown records |
| WatchCheckHandler.SingleRecordTransition | consulalerting/WatchCheckHandler.py:157-196 | one record seen in both snapshots is returned, by itself, exactly when it is unknown now, recovered from warning or critical, newly warning, or newly critical |
| WatchCheckHandler.TransitionTable | consulalerting/WatchCheckHandler.py:157-196 | among passing, warning and critical, a record is returned exactly when its status changed |
| WatchCheckHandler.UnknownToPassingSilent | consulalerting/WatchCheckHandler.py:157-164 | a record that recovers from unknown to passing is not returned |
| WatchCheckHandler.CriticalToPassingReported | consulalerting/WatchCheckHandler.py:157-158 | a record that recovers from critical to passing is returned |
| WatchCheckHandler.Handler.constructor | consulalerting/WatchCheckHandler.py:23-29 | the handler holds the KV store and catalog; every attribute `__getattr__` would read as None starts unset |
| WatchCheckHandler.Handler.FilterByBlacklists | consulalerting/WatchCheckHandler.py:31-66 | the loop returns exactly the `Filtered` list or its TypeError |
| WatchCheckHandler.Handler.NodeCatalogTags | consulalerting/WatchCheckHandler.py:68-81 | succeeds exactly when `addTags` succeeds on every record; then every record carries its derived tags; on failure the first failing record's exception is returned, the records before it are tagged, and the failing record and every later one not also earlier in the list keep their old Tags |
| WatchCheckHandler.Handler.CheckForAlertChanges | consulalerting/WatchCheckHandler.py:83-209 | returns `AlertChanges` of the two lists; only the bootstrap branch stores the current payload under the prior key, and nothing else in the KV store changes |
| WatchCheckHandler.Handler.ReadConfiguration | consulalerting/WatchCheckHandler.py:237-251 | the prior snapshot and check tags are read with their defaults; it succeeds exactly when all three blacklists decode, and then holds their values |
| WatchCheckHandler.Handler.Detect | consulalerting/WatchCheckHandler.py:256-275 | the filtered current and prior lists are fresh records whose entries are exactly the snapshot entries that survive the three blacklists, in order; the current ones start untagged; the alerts are `AlertChanges` of the two lists and are drawn from the filtered current records |
| WatchCheckHandler.Handler.Run | consulalerting/WatchCheckHandler.py:211-288 | without the lock it returns [] and changes nothing but the current payload; with it the prior key and the prior snapshot both become the current payload and nothing else in the KV store changes; both filtered lists hold exactly the surviving entries of the current payload; the run succeeds exactly when the blacklists decode and every alert can be tagged, and a successful run returns None |
| WatchCheckHandler.Handler.RunCorrected | consulalerting/WatchCheckHandler.py:211-288 | the same run with the prior key read before it is overwritten and the tagged alert list returned: the filtered prior list holds the surviving entries of the stored prior snapshot; the run succeeds exactly when the blacklists decode and every alert can be tagged; the result is `AlertChanges` of the filtered snapshots, and every alert carries its tags |
| LegacyWatchCheckHandler.GetHashStateSet | consul-alerting/WatchCheckHandler.py:59-64 | an identity is in the set exactly when some record in the given state has it |
| LegacyWatchCheckHandler.GetObjectListByState | consul-alerting/WatchCheckHandler.py:66-72 | the result holds exactly the records in the given state, as a subsequence of the input |
| LegacyWatchCheckHandler.FilterByBlacklistsIff | consul-alerting/WatchCheckHandler.py:75-91 | a record is kept exactly when its ServiceName is in neither the service nor the check blacklist and its Node is not in the node blacklist; input order is kept |
| LegacyWatchCheckHandler.CheckIdIgnored | consul-alerting/WatchCheckHandler.py:85-86 | a record whose CheckID is blacklisted is still kept: the check blacklist is compared with ServiceName |
| LegacyWatchCheckHandler.NoWildcard | consul-alerting/WatchCheckHandler.py:81-89 | "*" is an ordinary entry: blacklists holding only "*" drop no record named otherwise |
| LegacyWatchCheckHandler.AlertHashSetIff | consul-alerting/WatchCheckHandler.py:165-201 | an identity is in the legacy alert set exactly when some current record with it is unknown, recovered from warning, became warning from anything but warning, or became critical from anything but critical |
| LegacyWatchCheckHandler.AlertHashSetSound | consul-alerting/WatchCheckHandler.py:185-201 | every identity of the union comes from a reportable current record |
| LegacyWatchCheckHandler.SteadyStateReported | consul-alerting/WatchCheckHandler.py:206-214 | with a prior payload, a current record is returned exactly when some current record with its identity is reportable, and the list keeps current order |
| LegacyWatchCheckHandler.SingleRecordTransition | consul-alerting/WatchCheckHandler.py:165-212 | one record seen in both snapshots is returned, by itself, exactly when it is unknown now, recovered from warning, newly warning, or newly critical |
| LegacyWatchCheckHandler.CriticalToPassingSilent | consul-alerting/WatchCheckHandler.py:185 | a record that recovers from critical to passing is not returned |
| LegacyWatchCheckHandler.ReportableAgainstEmpty | consul-alerting/WatchCheckHandler.py:165-201 | against an empty prior list exactly the warning, critical and unknown records are reportable |
| LegacyWatchCheckHandler.FilteredAwayPriorReportsProblems | consul-alerting/WatchCheckHandler.py:135-212 | the branch follows the raw prior payload: a present payload whose records were all filtered away reports every warning, critical and unknown record |
| LegacyWatchCheckHandler.BootstrapReportsProblems | consul-alerting/WatchCheckHandler.py:135-154 | without a prior payload the alerts are exactly the current warning and critical records, and never an empty list |
| LegacyWatchCheckHandler.LegacyHandler.constructor | consul-alerting/WatchCheckHandler.py:22-29 | the handler holds the KV store; every attribute `__getattr__` would read as None starts unset |
| LegacyWatchCheckHandler.LegacyHandler.ConsulAPILookups | consul-alerting/WatchCheckHandler.py:31-45 | records the current health; succeeds exactly when the check-tags key exists, else raises KeyError before the prior is read; the prior payload defaults to [] |
| LegacyWatchCheckHandler.LegacyHandler.AlertsBlacklist | consul-alerting/WatchCheckHandler.py:47-57 | succeeds exactly when all three keys exist; the first absent key raises KeyError and the later blacklists keep their old values |
| LegacyWatchCheckHandler.LegacyHandler.CheckForAlertChanges | consul-alerting/WatchCheckHandler.py:123-220 | returns the legacy `AlertChanges`, and on every path the prior key ends up holding the current payload |
| Plugins.HipchatStyleStable | consulalerting/plugins.py:11-27 | re-running the colour chain changes nothing: a recognised status always gives its own style, an unrecognised one keeps the previous values |
| Plugins.HipchatStyleMeaning | consulalerting/plugins.py:8-27 | from yellow/0, only warning, critical and unknown notify, only passing is green, and an unrecognised status stays yellow without notifying |
| Plugins.HipchatRequest | consulalerting/plugins.py:30-38 | the request carries the configured url and token, sender "Consul", the message and the style, with verification on; a missing url raises KeyError; the room id is `int()` of the stored value, so blanks around it and a sign are accepted (`Json.PyInt`) |
| Plugins.HipchatRoomIdFromText | consulalerting/plugins.py:33 | a room id stored as decimal text is posted as that number |
| Plugins.SlackRequest | consulalerting/plugins.py:81-87 | the request carries the room's channel, sender "Consul", the configured token and the message |
| Plugins.MailgunEndpointInjective | consulalerting/plugins.py:113-114 | distinct Mailgun domains give distinct endpoints, so the domain can be read back from the endpoint |
| Plugins.MailgunSetup | consulalerting/plugins.py:113-115 | the endpoint and credentials are read before the loop; their absence raises even with no team |
| Plugins.MailgunRequest | consulalerting/plugins.py:119-124 | the request posts to the endpoint with the token, the configured sender, the team's address, subject "Consul Alert" and the message |
| Plugins.EventType | consulalerting/plugins.py:173-176 | the event type is "resolve" exactly for a passing record and "trigger" otherwise |
| Plugins.PagerdutyRequest | consulalerting/plugins.py:173-184 | the event carries the team's service key, the event type, the message and the incident key "node/CheckID" |
| Plugins.ResolveMatchesTrigger | consulalerting/plugins.py:173-184 | the event sent when a critical check recovers resolves the incident key its trigger opened |
| Plugins.Post | consulalerting/plugins.py:186-189 | posting yields the status code exactly when the server answers; an SSL failure is raised |
| Plugins.RetryOnlyOnSsl | consulalerting/plugins.py:29-52 | hipchat sends at most two requests; it sends a second exactly when the request was built and the first attempt failed on SSL; the second is the first with verification switched off; the outcome is an error exactly when the request could not be built or both attempts failed on SSL |
| Plugins.Outcome | consulalerting/plugins.py:54-75 | a request that cannot be built raises and sends nothing; an answered request returns its status code, 200 or not |
| Plugins.HipchatOutcome | consulalerting/plugins.py:29-75 | a request that cannot be built raises and sends nothing; an answer returns its status code after one request; an SSL failure sends the request and then its unverified repeat, whose answer gives its status code and whose own SSL failure raises SSLError |
| Plugins.PostToFirst | consulalerting/plugins.py:79-109 | the loop posts only to the first destination the set yields and returns its outcome; an empty set posts nothing and returns None |
| Plugins.NotifyHipchat | consulalerting/plugins.py:7-75 | no room gives None; otherwise the first room's request, in the record's style, is posted with its SSL retry; at most two requests go out |
| Plugins.NotifySlack | consulalerting/plugins.py:78-109 | no room gives None; otherwise the outcome of the first room's request; at most one request |
| Plugins.NotifyMailgun | consulalerting/plugins.py:112-143 | a setup failure raises before anything is sent; otherwise as `PostToFirst` over the teams |
| Plugins.NotifyPagerduty | consulalerting/plugins.py:169-205 | no team gives None; otherwise the outcome of the first team's event; at most one request |
| Plugins.EmailBodyLayout | consulalerting/plugins.py:156-162 | the body is the From, To and Subject headers, an empty line and the message, separated by CRLF |
| Plugins.SmtpOpening | consulalerting/plugins.py:147-152 | the session opens with a connect, and logs in exactly when both username and password are truthy |
| Plugins.TeamMail | consulalerting/plugins.py:155-164 | one mail from the configured sender to the team's recipients, whose body lists them joined by ", " |
| Plugins.NotifyEmail | consulalerting/plugins.py:146-166 | a failed opening raises and sends nothing; a success is the opening commands, one mail per team with each team once, then a single quit; a failure names a team whose mail raised that error and leaves the session without quit |
| Plugins.MailTeams | consulalerting/plugins.py:155-164 | the loop appends exactly one mail per visited team and never quits; on success the visit enumerates the set once; on failure the error is that of a team not yet visited |
| NotificationEngine.ChannelIndex | consulalerting/NotificationEngine.py:77-90 | every channel has a position in the engine's fixed order hipchat, slack, mailgun, email, pagerduty |
| NotificationEngine.ChannelNamesDistinct | consulalerting/NotificationEngine.py:77-90 | two channels have the same tag name exactly when they are the same channel |
| NotificationEngine.PluginSet | consulalerting/NotificationEngine.py:48 | `set(value)` of a list holds exactly its strings and fails on a nested list or object; of an object, its keys; of a scalar, TypeError |
| NotificationEngine.AvailablePlugins | consulalerting/NotificationEngine.py:46-55 | a missing plugins key raises KeyError; otherwise the set of the stored value |
| NotificationEngine.UniqueTags | consulalerting/NotificationEngine.py:57-67 | succeeds exactly when every record has Tags; then a tag is in the set exactly when some record carries it |
| NotificationEngine.FirstFailing | consulalerting/NotificationEngine.py:77-90 | the position of the first channel to be loaded whose configuration raises: every channel before it loads, and it fails |
| NotificationEngine.LoadedStep | consulalerting/NotificationEngine.py:77-90 | one block that loads its channel, or skips it, extends the loaded prefix by one channel |
| NotificationEngine.LoadedPrefixMeaning | consulalerting/NotificationEngine.py:77-90 | while no block has raised, the blocks load exactly the configurations of the channels to be loaded and leave every other channel as it was |
| NotificationEngine.LoadedPrefixWellLoaded | consulalerting/NotificationEngine.py:102-113 | every configuration the blocks load keeps its destinations as an object |
| NotificationEngine.LoadOutcomeMeaning | consulalerting/NotificationEngine.py:69-92 | the blocks succeed exactly when no needed configuration raises; otherwise the error is the first failing channel's; the channels before it (all on success) are loaded, the rest unchanged, and loaded configurations keep their destinations an object |
| NotificationEngine.PagerdutyBlockAsWritten | consulalerting/NotificationEngine.py:89-90 | as written, when pagerduty is to be loaded and the four blocks before it succeed, loading raises AttributeError with those four channels loaded; otherwise the outcome is the intended one |
| NotificationEngine.LoadFromAsWrittenMeaning | consulalerting/NotificationEngine.py:77-90 | the written blocks from any channel before pagerduty, with the prefix loaded, end as `PagerdutyBlockAsWritten` says |
| NotificationEngine.LoadFromMeaning | consulalerting/NotificationEngine.py:69-92 | running the blocks in order stops at the first channel whose configuration raises, with its error, having loaded the configurations before it |
| NotificationEngine.MessagePatternVariants | consulalerting/NotificationEngine.py:124-142 | the message opens with "Service " exactly when ServiceName or ServiceID is set: then with "Service " and the ServiceName, otherwise with "System Check " and the CheckID; the status and the node occur in it, and it ends with ". Output from test: " and the output |
| NotificationEngine.MessagePatternIgnoresOtherAttributes | consulalerting/NotificationEngine.py:124-142 | the message depends only on the six attributes it renders |
| NotificationEngine.RoutesUnfold | consulalerting/NotificationEngine.py:144-171 | a record's processes are the five blocks' processes in channel order |
| NotificationEngine.RoutesOverCons | consulalerting/NotificationEngine.py:148-171 | the blocks for one more channel in front start that channel's process first |
| NotificationEngine.RoutesOverElements | consulalerting/NotificationEngine.py:148-171 | every process started is the one its channel's block starts |
| NotificationEngine.RoutesOverCovers | consulalerting/NotificationEngine.py:148-171 | every tagged channel whose configuration is loaded gets a process |
| NotificationEngine.RoutesOverOrdered | consulalerting/NotificationEngine.py:148-171 | processes come in strictly increasing channel order |
| NotificationEngine.RoutesMeaning | consulalerting/NotificationEngine.py:116-171 | a record gets a process for a channel exactly when the channel is among its tags and loaded; each process carries the record, the message, the configuration and exactly the destinations the record shares with it; channels come in order, each at most once |
| NotificationEngine.RoutesChannels | consulalerting/NotificationEngine.py:148-171 | the channels that get a process are exactly the tagged, loaded ones |
| NotificationEngine.RoutesFields | consulalerting/NotificationEngine.py:116-171 | each process carries the record, the message, its channel's configuration and the common destinations |
| NotificationEngine.TagLists | consulalerting/NotificationEngine.py:178-179 | one tag list per record, the record's Tags |
| NotificationEngine.AllRoutesStep | consulalerting/NotificationEngine.py:178-179 | one more record appends that record's processes |
| NotificationEngine.AllRoutesFromRecords | consulalerting/NotificationEngine.py:173-179 | every process `Run` starts is one that some record's routing asks for |
| NotificationEngine.Engine.constructor | consulalerting/NotificationEngine.py:33-44 | the engine holds the alert list and the KV store; nothing is loaded or started |
| NotificationEngine.Engine.GetAvailablePlugins | consulalerting/NotificationEngine.py:46-55 | returns and stores the plugin set, or raises and leaves it unchanged |
| NotificationEngine.Engine.GetUniqueTagsKeys | consulalerting/NotificationEngine.py:57-67 | returns and stores the union of the records' tags, or raises TypeError and leaves it unchanged |
| NotificationEngine.Engine.LoadChannel | consulalerting/NotificationEngine.py:77-78 | one block: loads the channel's configuration when it is to be loaded, raising what `load_plugin` raises |
| NotificationEngine.Engine.LoadPluginsFromTags | consulalerting/NotificationEngine.py:69-92 | unset tags raise AttributeError, unset plugins TypeError, both before loading; otherwise the loaded map and the result are the intended outcome over the intersection of tags and plugins |
| NotificationEngine.Engine.LoadAll | consulalerting/NotificationEngine.py:77-90 | the five blocks in order equal `LoadFrom` from the first channel |
| NotificationEngine.Engine.RunNotifiers | consulalerting/NotificationEngine.py:144-171 | a record without Tags raises TypeError and starts nothing; otherwise exactly the record's routed processes are appended |
| NotificationEngine.Engine.Run | consulalerting/NotificationEngine.py:173-179 | the intended run: succeeds exactly when the plugins, the tags and every needed configuration load; then every configured channel is loaded and exactly the records' routed processes, record by record, are started; on failure nothing is started, the error is the first failing step's (the plugins' or the tags' with nothing loaded, else the first failing channel's with the channels before it loaded) |
| NotificationEngine.Engine.GetAvailablePluginsAsWritten | consulalerting/NotificationEngine.py:46-55 | as written: a missing key raises KeyError; otherwise the logger call raises AttributeError, after storing the plugin set when it could be built |
| NotificationEngine.Engine.RunAsWritten | consulalerting/NotificationEngine.py:173-176 | as written: `run` always raises (KeyError or AttributeError) in `get_available_plugins`, before any tag, configuration or process |
| NotificationEngine.RunAsWrittenDiffers | consulalerting/NotificationEngine.py:46-55 | with an empty plugin list and one record tagged nothing, every step of the intended run succeeds while the written run raises AttributeError |
| NotificationEngine.Engine.RunAll | consulalerting/NotificationEngine.py:178-179 | the loop starts every record's routed processes, in record order |
| NotificationEngine.PostToAll | consulalerting/NotificationEngine.py:242-261 | every destination is posted to once, in set order, a non-200 status only logged; a raised error ends the loop at the destination that raised |
| NotificationEngine.PostFirstThenRaise | consulalerting/NotificationEngine.py:241-261 | as written: an empty destination set succeeds; otherwise exactly one destination is posted to and the notifier raises, with that post's own error or else AttributeError from the logger |
| NotificationEngine.NotifyHipchat | consulalerting/NotificationEngine.py:182-236 | every room gets the request in the record's style, with its SSL retry; the loop ends early only at a room whose request raises |
| NotificationEngine.NotifySlack | consulalerting/NotificationEngine.py:241-261 | every room gets its request; only a raised error ends the loop early |
| NotificationEngine.NotifyMailgun | consulalerting/NotificationEngine.py:264-287 | a setup failure raises before anything is sent; otherwise every team gets its request |
| NotificationEngine.NotifyPagerduty | consulalerting/NotificationEngine.py:313-343 | every team gets its event; only a raised error ends the loop early |
| LegacyNotificationEngine.UniqueTags | consul-alerting/NotificationEngine.py:42-49 | succeeds exactly when every record has Tags, and then holds every tag some record carries; otherwise TypeError |
| LegacyNotificationEngine.LegacyStyle | consul-alerting/NotificationEngine.py:107-121 | a style is assigned exactly for a recognised status, and it is the style the current plugin chain gives |
| LegacyNotificationEngine.CommonRooms | consul-alerting/NotificationEngine.py:94-98 | a room is used exactly when it is a configured room and one of the record's tags |
| LegacyNotificationEngine.RoomCall | consul-alerting/NotificationEngine.py:123-142 | the call succeeds exactly when the room's id converts with `int()` (blanks around it and a sign accepted, as `Json.PyInt` reads it) and the status is recognised; it then carries the client's token and url, the id, sender "Consul", the engine's message and the style; an unrecognised status raises UnboundLocalError |
| LegacyNotificationEngine.EachNotifiedSnoc | consul-alerting/NotificationEngine.py:82-86 | notifying one more record extends the per-record batches by its batch |
| LegacyNotificationEngine.EachNotifiedAt | consul-alerting/NotificationEngine.py:82-86 | each record's batch is what `notify_hipchat` sends for it |
| LegacyNotificationEngine.LegacyEngine.constructor | consul-alerting/NotificationEngine.py:30-40 | the engine holds the alert list and the KV store with nothing loaded or sent; the plugin set is fixed to hipchat |
| LegacyNotificationEngine.LegacyEngine.GetUniqueTagsKeys | consul-alerting/NotificationEngine.py:42-49 | assigns the union of the tags, or raises TypeError and assigns nothing |
| LegacyNotificationEngine.LegacyEngine.LoadFromTagsKeys | consul-alerting/NotificationEngine.py:51-76 | unset tags raise AttributeError; hipchat is loaded, keys and room names lower-cased, exactly when some record is tagged hipchat; a failed load raises `load_plugin`'s error and leaves hipchat unchanged |
| LegacyNotificationEngine.LegacyEngine.Run | consul-alerting/NotificationEngine.py:78-89 | unset Tags raise TypeError before anything is sent; a failed hipchat load raises its error and sends nothing; a successful load is what hipchat holds afterwards; everything sent is the records' batches in order; a success notified every record as `notify_hipchat` says, and a failure is the last record's `notify_hipchat` raising after every earlier record was notified |
| LegacyNotificationEngine.LegacyEngine.NotifyRecords | consul-alerting/NotificationEngine.py:82-89 | the loop sends the records' batches in order; on success every record was notified; on failure the records before the last batch were notified and the last one's `notify_hipchat` raised that error |
| LegacyNotificationEngine.LegacyEngine.NotifyRecord | consul-alerting/NotificationEngine.py:85-86 | a record not tagged hipchat, or with hipchat unloaded, sends nothing; otherwise the outcome is that of `notify_hipchat`: KeyError without token or url, and otherwise a visit of the common rooms ending at the first call that raises |
| LegacyNotificationEngine.LegacyEngine.NotifyHipchat | consul-alerting/NotificationEngine.py:91-142 | a missing token or url raises KeyError before anything is sent; otherwise one call per common room in some order, stopping at the first call that raises; on success every common room got exactly one call |
| LegacyNotificationEngine.SendRooms | consul-alerting/NotificationEngine.py:105-142 | the calls made are those of a visit of distinct common rooms; success means every room was visited, failure names the room whose call raised |
| LegacyNotificationEngine.CallRooms | consul-alerting/NotificationEngine.py:105-142 | the loop visits distinct rooms, records each successful call, and stops at the first call that raises |
| LegacyNotificationEngine.SendsUnrecognised | consul-alerting/NotificationEngine.py:105-142 | with an unrecognised status no room gets a message, and the call raises exactly when there is a room |
| Influxdb.Exceeded | utils/influxdb.go:142-158 | in less-than mode a value exceeds a threshold exactly when it is strictly below it, otherwise exactly when it is strictly above it |
| Influxdb.ExceededMirror | utils/influxdb.go:142-158 | less-than mode is greater-than mode on negated values |
| Influxdb.CurrentValue | utils/influxdb.go:161 | the value is read exactly when the answer has a first series with a first point holding a value, and is that value |
| Influxdb.Classify | utils/influxdb.go:163-179 | with no threshold given the code is 1; otherwise 2 exactly when the critical threshold is exceeded, 1 exactly when a given warning threshold is exceeded and the critical one is not, else 0 |
| Influxdb.ThresholdChecker | utils/influxdb.go:160-181 | a short answer panics with an index error even without thresholds; otherwise the code is `Classify` of the first value |
| Influxdb.ClassifyBands | utils/influxdb.go:163-179 | in greater-than mode with warning at most critical, the codes split the line at the two thresholds, each threshold itself belonging to the lower band |
| Influxdb.ClassifyWithoutWarning | utils/influxdb.go:168-179 | without a warning threshold the code is 2 or 0 |
| Influxdb.Passed | utils/influxdb.go:124 | the flags passed to `createQuery` are nine, in its order, and median is not among them |
| Influxdb.QueryBuilderReadsBack | utils/influxdb.go:183-185 | the statement reads back as the function, the quoted series and the window in seconds |
| Influxdb.CreateQueryPicksFirstFlag | utils/influxdb.go:187-219 | a non-empty custom query is used verbatim; otherwise a series gives the statement for the first flag set in the chain's order, no flag or no series is an error |
| Influxdb.FirstFlagQuery | utils/influxdb.go:190-210 | the first flag set, at any position, selects its function |
| Influxdb.FirstFlagQueryLate | utils/influxdb.go:200-210 | the same for the flags after mean |
| Influxdb.MedianIgnored | utils/influxdb.go:108-124 | the median flag changes no query |
| Influxdb.CreateQueryReadsBack | utils/influxdb.go:187-210 | a built query reads back as one of the nine functions over the quoted series and the given window |
| Influxdb.InfluxdbMain | utils/influxdb.go:59-136 | an unusable query or a failed request exits 1, a short answer exits 2 by panic, otherwise the threshold code; the code is always 0, 1 or 2 |
| Boron.SplitParameters | utils/boron/boron.go:104-106 | the parameters split into at least one piece, no piece holds a '\|', and joining the pieces with '\|' gives back the input |
| Boron.SplitParametersSingle | utils/boron/boron.go:104-106 | a string without a separator is a single parameter |
| Boron.SplitParametersConcat | utils/boron/boron.go:104-106 | splitting two strings joined by a separator gives the pieces of the first followed by those of the second |
| Boron.ConfigPathInjective | utils/boron/boron.go:117 | in one working location distinct plugins get distinct files |
| Boron.ThresholdChecker | utils/boron/boron.go:206-225 | the code is the one the InfluxDB check computes; the missing-threshold report happens exactly when neither threshold is given; critical, warning and passing results report the critical, the warning and the warning threshold |
| Boron.BoronMain | utils/boron/boron.go:86-100 | an unwritable configuration exits 2, an error or the MaxFloat64 marker exits 1, otherwise the threshold code; always 0, 1 or 2 |
| InfluxQuery.ParseSelect | utils/consul_check_influxdb.py:61-66 | a statement that reads back at all is the select statement of what it reads back as |
| InfluxQuery.ParseSelectRoundTrip | utils/consul_check_influxdb.py:61-66 | a select statement built from a function without '(' reads back as that function, series and window |
| ConsulCheckInfluxdb.FqdnSeriesJoinsLabels | utils/consul_check_influxdb.py:35-42 | the host part of the fqdn series is the fqdn's dot-separated labels joined by the replacement text |
| ConsulCheckInfluxdb.FqdnSeriesSplits | utils/consul_check_influxdb.py:35-42 | with dot-free prefix, replacement and series the name splits at its dots into exactly prefix, rewritten fqdn and series |
| ConsulCheckInfluxdb.SeriesAfterCreate | utils/consul_check_influxdb.py:28-49 | the hostname branch, taken exactly when none of custom, full and fqdn is given, raises KeyError; a custom query keeps the earlier series; the full and fqdn branches assign one |
| ConsulCheckInfluxdb.ChosenAggregate | utils/consul_check_influxdb.py:55-120 | the chain stops only at a truthy seconds option |
| ConsulCheckInfluxdb.ChosenIsFirstTruthy | utils/consul_check_influxdb.py:58-120 | the chain stops at the first truthy seconds option in its order, and at none when none is truthy |
| ConsulCheckInfluxdb.FirstTruthyChosen | utils/consul_check_influxdb.py:61-120 | the first truthy option at any position is the one chosen |
| ConsulCheckInfluxdb.FirstTruthyChosenLate | utils/consul_check_influxdb.py:91-120 | the same for the options after mode |
| ConsulCheckInfluxdb.SelectedQuery | utils/consul_check_influxdb.py:55-120 | a custom query is used verbatim; the query is None exactly when there is neither a custom query nor a truthy seconds option; the only error is AttributeError, for an unassigned series |
| ConsulCheckInfluxdb.SelectedQueryReadsBack | utils/consul_check_influxdb.py:55-120 | an aggregate query reads back as the first truthy aggregate, the series and that option's seconds |
| ConsulCheckInfluxdb.ThresholdCode | utils/consul_check_influxdb.py:171-221 | the code is always 0, 1 or 2 |
| ConsulCheckInfluxdb.GreaterBands | utils/consul_check_influxdb.py:171-188 | in greater-than mode with a warning: critical exactly at or above the critical threshold, warning exactly strictly between the thresholds, passing otherwise |
| ConsulCheckInfluxdb.ThresholdCodeDocumented | utils/consul_check_influxdb.py:434-435 | the exit code the `--threshold-warning` help text describes; it differs from the written code only for a value equal to the warning threshold in greater-than mode, which it reports as a warning |
| ConsulCheckInfluxdb.DocumentedGreaterBands | utils/consul_check_influxdb.py:434-442 | as documented, greater-than mode with a warning: critical at or above the critical threshold, warning from the warning threshold (inclusive) up to the critical one, passing below the warning threshold |
| ConsulCheckInfluxdb.WarningThresholdPasses | utils/consul_check_influxdb.py:181-188 | as written, a value equal to a warning threshold below the critical one exits 0, where the help text promises 1 |
| ConsulCheckInfluxdb.LessBands | utils/consul_check_influxdb.py:197-213 | in less-than mode with a warning the bands are the mirror image |
| ConsulCheckInfluxdb.WithoutWarning | utils/consul_check_influxdb.py:189-221 | without a truthy warning the code is critical when the critical threshold is reached, otherwise passing |
| ConsulCheckInfluxdb.ThresholdMirror | utils/consul_check_influxdb.py:171-221 | less-than mode is greater-than mode on negated thresholds and value |
| ConsulCheckInfluxdb.AgreesWithInfluxdb | utils/consul_check_influxdb.py:171-221 | away from the critical threshold the script's code equals the one utils/influxdb.go computes |
| ConsulCheckInfluxdb.CurrentValue | utils/consul_check_influxdb.py:141-169 | a missing "points" key is KeyError, a too-short points list IndexError, otherwise the second entry of the first point |
| ConsulCheckInfluxdb.Alert | utils/consul_check_influxdb.py:154-163 | writing a message raises AttributeError exactly when the series was never assigned |
| ConsulCheckInfluxdb.Compare | utils/consul_check_influxdb.py:165-221 | the comparison never returns normally: it exits or raises |
| ConsulCheckInfluxdb.CompareCorrectedExits | utils/consul_check_influxdb.py:141-221 | corrected, an empty answer exits 1, a value read exits with its threshold code, and with an assigned series nothing changes |
| ConsulCheckInfluxdb.Outcome | utils/consul_check_influxdb.py:223-227 | a run never returns normally: its steps end in an exit or an exception |
| ConsulCheckInfluxdb.Validate | utils/consul_check_influxdb.py:446-486 | the options pass exactly when every InfluxDB option is truthy, a full or custom query or a complete fqdn or hostname triple is given, the critical threshold is truthy and some aggregate or a custom query is given; otherwise the usage exit 2 |
| ConsulCheckInfluxdb.Main | utils/consul_check_influxdb.py:491-494 | invalid options end with the validation error, valid ones run a fresh object |
| ConsulCheckInfluxdb.ValidatedQueryIsBuilt | utils/consul_check_influxdb.py:474-486 | validated options that get past the series step always produce a query |
| ConsulCheckInfluxdb.HostnameOptionsRaise | utils/consul_check_influxdb.py:45-49 | options that validate only by the hostname triple end in KeyError |
| ConsulCheckInfluxdb.CustomQueryAlertRaises | utils/consul_check_influxdb.py:156-157 | with a custom query a value that crosses a threshold raises AttributeError, so the process exits 1 whatever the threshold |
| ConsulCheckInfluxdb.InfluxDBQuery.constructor | utils/consul_check_influxdb.py:25-26 | the object keeps its options and has no series, query or result yet |
| ConsulCheckInfluxdb.InfluxDBQuery.CreateSeries | utils/consul_check_influxdb.py:28-49 | the series afterwards is `SeriesAfterCreate` of the one before, unchanged on error |
| ConsulCheckInfluxdb.InfluxDBQuery.SelectAggregate | utils/consul_check_influxdb.py:61-66 | with a series the query becomes its select statement, without one AttributeError and no change |
| ConsulCheckInfluxdb.InfluxDBQuery.BuildQuery | utils/consul_check_influxdb.py:55-120 | the query afterwards is `SelectedQuery`, and None on error |
| ConsulCheckInfluxdb.InfluxDBQuery.RunQuery | utils/consul_check_influxdb.py:122-139 | a failed request exits 2 and keeps the old result, a successful one stores the answer |
| ConsulCheckInfluxdb.InfluxDBQuery.MessageThenExit | utils/consul_check_influxdb.py:154-163 | ends as `Alert` for the current series |
| ConsulCheckInfluxdb.InfluxDBQuery.CompareQueryToThresholds | utils/consul_check_influxdb.py:141-221 | ends as `Compare` of the options, the series and the stored answer |
| ConsulCheckInfluxdb.InfluxDBQuery.Run | utils/consul_check_influxdb.py:223-227 | ends as `Outcome` of the options, the series before the run and the client |
| Json.LowerKeys | consulalerting/utilities.py:151-155 | keys are folded to lower case, values stay in place, and the key set is the folded key set of the input |
| Json.LowerKeysIdempotent | consulalerting/utilities.py:151-155 | folding twice is folding once |
| Json.LowerKeysLookup | consulalerting/utilities.py:151-155 | a key no other key collides with after folding keeps its value under its lower-case spelling |
| Text.LowerAll | consulalerting/ConsulHealthStruct.py:70 | every tag is folded to lower case, in the same order |
| Text.ParseIntRoundTrip | consulalerting/plugins.py:33 | `int()` reads the decimal text of every integer, negative ones included, back as that integer |
| Text.ParseIntDigits | consulalerting/plugins.py:33 | a non-empty run of decimal digits reads as its value |
| Text.PaddedDigits | consulalerting/plugins.py:33 | blanks before and after the digits of a number are stripped: the text still reads as that number |
| Text.PaddedSignedDigits | consulalerting/plugins.py:33 | a '+' or '-' followed by blanks and the digits of a number, with blanks around, reads as the number with that sign |
| Text.ParseIntBlank | consulalerting/plugins.py:33 | an empty or all-blank text raises ValueError |
| Text.ParseIntTrailingJunk | consulalerting/plugins.py:33 | a text whose last character is neither a digit nor a blank raises ValueError |
| Json.PyInt | consulalerting/NotificationEngine.py:205 | a number converts to itself, a text as Python 2's `int()` reads it, and null, a list or an object raise TypeError |

## Left out

- Logging, `sys.stdout` messages, Go's `messageGenerator` and printed usage texts: they change no state and no result. Boron's report is the one exception, kept as a value. The class-level `logger` that consulalerting/NotificationEngine.py and consulalerting/ConsulHealthStruct.py call does not exist; what that does is under "## Findings".
- Floating-point values are modelled as reals. Python's float formatting inside messages is not modelled.
- The Consul HTTP API, the KV store client, sessions and locks are parameters or plain fields. This covers `currentState`, `getHash`, `createSession` and `acquireLock`: the lock outcome and the current payload are inputs.
- The HipChat, Slack, Mailgun, PagerDuty, SMTP and InfluxDB clients are parameters that return a status or an error. Errors raised inside the client libraries beyond that are not modelled.
- `multiprocessing.Process` start-up is modelled as a recorded dispatch, and the processes themselves do not run concurrently here.
- Python set iteration order is not fixed: where the source iterates a set, the model takes the order as an extra argument and proves the results for every order.
- Python 2 comparisons with None are modelled only for the two thresholds of utils/consul_check_influxdb.py, where the options can be unset.
- The hostname branch of `_createSeries`: the model raises KeyError for the fields its format string names but does not pass. The text it would have built is not modelled.
- `re.sub` in `_createSeries`: backslash escapes in the replacement text are not interpreted; the replacement is taken literally.
- `query_timeout` and `time_precision` are passed to the InfluxDB client and change nothing the model observes.
- InfluxDB answers are modelled by their `points` lists of numbers. Other keys and non-numeric values are not modelled.
- The random default of the Go thresholds is a parameter. The case where it equals a real threshold value is covered; its chance is not.
- Go flag parsing: `flag.ExitOnError` makes the parser exit by itself, so the `return 1` after `Parse` is not reachable. The model starts after parsing.
- Boron's `writeTemplate` (template execution and file creation) and `executeTeleGraphite` (the subprocess, its output and the regular expression over it) are parameters. Only the path they use and the results they return are modelled.
- Boron's `exceeded` is the same code as the one in utils/influxdb.go, so the model reuses `Influxdb.Exceeded` for it.
- `notify_influxdb`, which tests/test_plugins.py calls, is not defined in consulalerting/plugins.py and is not part of this model.
- The engine's `notify_email` (consulalerting/NotificationEngine.py:290-310) is the same code as `notify_email` in consulalerting/plugins.py:146-166, and `Plugins.NotifyEmail` models both.
- NotificationEngine.Engine.Run, NotificationEngine.PostToAll and the engine's notifiers model the intended behaviour, with a logger that exists and the pagerduty key of consulalerting/settings.py. The written behaviour (AttributeError) is modelled beside them by the members named under "## Findings".
- The legacy `Run` (consul-alerting/WatchCheckHandler.py:222-234), `createConsulHealthNodeList` (:96-107) and the legacy `nodeCatalogTags` (:109-120) are not modelled. `createConsulHealthNodeList` builds node records without the catalog arguments their constructor needs, so any current or prior record makes it raise TypeError. With an empty current payload and no prior records nothing is built and the run goes on: the bootstrap branch stores the empty current payload under the prior key and returns None, and `nodeCatalogTags(None)` then raises TypeError. Both paths end in TypeError without alerts; the prior-key write of the second is not modelled.
- LegacyNotificationEngine.LegacyEngine.LoadFromTagsKeys: on a KV error the source may leave `self.hipchat` partly rewritten (keys folded, rooms not yet). The model leaves it unchanged.
- Json.LowerKeys, Utilities.LoadPlugin: when two keys fold to the same lower-case key, the model lets the later key of the stored object's order win (`Json.Get` reads the last match). Python 2 builds the dict in its own iteration order, so which value survives there is not determined by the stored order.
- Text.Lower folds ASCII letters only. Python's `unicode.lower()` also folds every other letter that has a lower-case form, so non-ASCII tags, keys and names compare differently here.
- Json.Render: `str.format` and `%s` render a list or an object as its Python text. The model has no such text and raises TypeError instead.
- Plugins.MailgunSetup: it raises TypeError for a list or object `mailgun_domain`, where `str.format` would build an endpoint from its Python text (consulalerting/plugins.py:113-114).
- Plugins.SmtpOpening: it renders `from` before the loop and raises TypeError for a list or object. The source only reads it there and formats it inside the loop (consulalerting/plugins.py:154-157), so with no team it does not raise, and with a team `%s` renders it. A missing `from` raises KeyError in both, even with no team.
- ConsulHealthStruct.TagsFor: a tag source is modelled as None, a scalar, or a list of strings. A string source (the source iterates its characters and succeeds, one tag per character), an object source (its keys) and list items without `.lower()` are not modelled. For such an item the handler means to log the AttributeError and go on without re-raising, leaving `Tags` unassigned; as written its logger call raises AttributeError (consulalerting/ConsulHealthStruct.py:78-82).
- ConsulHealthNodeStruct.TagsFor: the same restriction to None, a scalar or a list of strings. A string source makes the legacy `map` iterate its characters and succeed with one tag per character, which the model does not show; an object source (its keys) and items without `.lower()` are not modelled either (consul-alerting/ConsulHealthNodeStruct.py:72-80).
- Text.ParseInt: only ASCII digits and the ASCII blanks (space, tab, newline, vertical tab, form feed, carriage return) are modelled. Python 2's `int()` of a `unicode` room id also accepts other Unicode decimal digits and white space, which read as errors here.
- Json.PyInt: JSON numbers are integers in the model, so `int()` of a stored float such as 12.0 (which truncates toward zero) is not modelled.
- Utilities.LoadPlugin: the stored value is modelled as JSON already decoded, so the ValueError that `json.loads` raises for malformed text (consulalerting/utilities.py:140) is not modelled.
- Json.JoinJson: `', '.join` of an object joins its keys (consulalerting/plugins.py:158, consulalerting/NotificationEngine.py:302); the model raises TypeError for an object.
- Blacklists are modelled as lists of strings, and `x in blacklist` as list membership. A blacklist stored as a JSON string makes the source test for a substring, which is not modelled.
- Record identities are compared as the tuple of Node, CheckID, Name, ServiceID and ServiceName. The source compares `hash()` of that tuple (consulalerting/ConsulHealthStruct.py:41-47, consulalerting/utilities.py:111-116), so a hash collision between two distinct tuples, which the model cannot show, would merge them there.
- NotificationEngine.MessagePatternVariants, NotificationEngine.MessagePattern, NotificationEngine.Engine.RunNotifiers, NotificationEngine.Engine.Run, LegacyNotificationEngine.RoomCall, Plugins.IncidentKey, Plugins.PagerdutyRequest, Plugins.MailgunEndpoint: the model assumes ASCII attribute and configuration text. The source fills byte-string templates with `.format` (consulalerting/NotificationEngine.py:128-141, consul-alerting/NotificationEngine.py:123-137, consulalerting/plugins.py:113 and :178), and the decoded JSON values are `unicode`, so Python 2 raises UnicodeEncodeError for any non-ASCII character in them. In `run_notifiers` that stops `run` at that record and starts no process for the later ones; in the legacy room loop it ends the loop. The model always builds the string and drops that error.
- ConsulHealthStruct.HealthStruct.AddTags, WatchCheckHandler.Handler.NodeCatalogTags: on a failure inside the `try`, they return the intended error of `ConsulHealthStruct.TagsFor` (TypeError for a truthy scalar source) in place of the AttributeError the written handler raises through its missing logger; `ConsulHealthStruct.TagsForAsWritten` gives the written error, and their success cases and assigned tags are the same under both.
- Health.NodeCatalog: the node catalog is reduced to a map from ServiceID to its Tags value, so the KeyError for a catalog without "Services" or a service entry without "Tags" (consulalerting/ConsulHealthStruct.py:66) is not represented. Likewise `WatchCheckHandler.Handler.Run` takes the current payload as a list, so `currentState` returning None is not represented. Consul's answers always carry these.
- HTTP and socket health probes that the Consul agent runs are outside the core and not part of this model.

## Findings

| source | as written | input that shows it | evidently intended | confidence | as-written member | corrected member |
|---|---|---|---|---|---|---|
| consulalerting/WatchCheckHandler.py:234-237 | the prior-state key is overwritten with the current payload before `priorState` reads it back, so prior and current are always the same snapshot | any run holding the lock where a check went from passing to critical | read the stored prior state first, then store the current payload | not executed | WatchCheckHandler.SameSnapshotReportsOnlyUnknown | WatchCheckHandler.Handler.RunCorrected |
| consulalerting/WatchCheckHandler.py:284 | `alert_list` is assigned the result of `nodeCatalogTags`, which returns nothing, so a run with alerts returns None | a run with one new critical record | tag the alerts in place and return the list | not executed | WatchCheckHandler.Handler.Run | WatchCheckHandler.Handler.RunCorrected |
| consul-alerting/WatchCheckHandler.py:185 | the recovery set intersects current passing with prior warning twice, never with prior critical | a record critical before and passing now | current passing intersected with prior warning or prior critical | not executed | LegacyWatchCheckHandler.CriticalToPassingSilent | WatchCheckHandler.CriticalToPassingReported |
| utils/consul_check_influxdb.py:156-157 | `_messageGenerator` reads `influx_hostname_series`, which `_createSeries` never sets for a custom query, so an alert raises AttributeError and the process exits 1 | `--query-custom` with a value at or beyond the critical threshold | exit with the threshold code (2 for critical) | not executed | ConsulCheckInfluxdb.CustomQueryAlertRaises | ConsulCheckInfluxdb.CompareCorrectedExits |
| consulalerting/NotificationEngine.py:49-54 | `get_available_plugins` logs through `NotificationEngine.logger`, which neither the class nor `Settings` defines, so it raises AttributeError on every path but a missing key, and `run` never gets past its first step | a KV store holding an empty plugin list and one record tagged nothing | log through the module logger of consulalerting/settings.py and go on with the plugin set | not executed | NotificationEngine.Engine.RunAsWritten, NotificationEngine.RunAsWrittenDiffers | NotificationEngine.Engine.Run |
| consulalerting/NotificationEngine.py:222-236 | every notifier logs each post's status through the same missing `NotificationEngine.logger` (also :250-261, :277-287, :334-343), so its process raises AttributeError after the first destination | a record whose tags share two rooms with the slack configuration | post to every destination, logging each status | not executed | NotificationEngine.PostFirstThenRaise | NotificationEngine.PostToAll |
| consulalerting/NotificationEngine.py:89-90 | the pagerduty block reads `NotificationEngine.KV_ALERTING_NOTIFY_PAGERDUTY`, which `Settings` does not define, so loading raises AttributeError whenever pagerduty is to be loaded; as written the missing logger above stops `run` before this block | plugins and tags both naming pagerduty, with the other blocks loading | read `alerting/notify/pagerduty`, the key consulalerting/settings.py defines | not executed | NotificationEngine.PagerdutyBlockAsWritten | NotificationEngine.LoadOutcomeMeaning |
| consulalerting/ConsulHealthStruct.py:71-77 | the TypeError handler logs through `ConsulHealthStruct.logger`, which does not exist, so it raises AttributeError instead of re-raising the TypeError | a system check with `non_service_checks` a truthy number | log and re-raise the TypeError | not executed | ConsulHealthStruct.TagsForAsWritten, ConsulHealthStruct.TagsForAsWrittenDiffers | ConsulHealthStruct.TagsFor |
| utils/consul_check_influxdb.py:434-435 | the `--threshold-warning` help text promises exit code 1 for a value equal to the warning threshold, but the comparison at :181 is strict, so that value exits 0 | `--threshold-warning 5 --threshold-critical 10` with a current value of 5 | warn from the warning threshold on, as documented | not executed | ConsulCheckInfluxdb.WarningThresholdPasses | ConsulCheckInfluxdb.ThresholdCodeDocumented, ConsulCheckInfluxdb.DocumentedGreaterBands |
