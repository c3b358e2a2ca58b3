# sud updater, modelled in Dafny

`sud` is a small dynamic-DNS updater. Every cycle it:

1. reads the "A" record of the configured hostname from the DNS provider (Scaleway's zone-records API);
2. asks a "what is my IP" service for the current public address;
3. creates the record when there is none, changes it when its address is stale, or leaves it alone;
4. after a create or a change, optionally sends a Telegram notification.

`Updater.run` repeats the cycle forever. It logs the application's own `SudException` and sleeps between cycles; the code passes `frequency.seconds` to `time.sleep`, and the model sleeps the whole frequency instead (see "## Findings").

This project models the core of `sud/updater.py`:

- **`ARecordInfo`** (module `ARecords`): `from_hostname` on top of a model of Python's `str.split(".")` and `".".join` (module `Labels`), and `get_dns_name`.
- **Provider side** (module `Scaleway`): the record scan of `get_record`, the change requests of `add_record` and `change_record`, and how `_update_zone` maps the answer.
- **Notification decision** (module `Telegram`): the template choice and the keyword formatting in `notify`.
- **Configuration** (module `Settings`): the configuration record and the `timedelta` that `frequency` returns.
- **`Updater`** (module `Sud`): a class with the read-only `config` and a `trace` of what it has done to the outside world. Each method (`GetRecord`, `DiscoverAddress`, `UpdateZone`, `AddRecord`, `ChangeRecord`, `Notify`, `Update`, `Run`) appends its effects to `trace`. Each is proved to do exactly what a specification function in module `Reconcile` describes. The properties the updater promises are proved as lemmas about those functions.

The outside world enters as inputs, never as calls:

- **`World`**: one cycle's answers. These are the lookup response, the discovered address, the PATCH response, and whether the bot delivered.
- **`Run`**: takes a finite sequence of `World`s. Running out of them stands for the `KeyboardInterrupt` that ends the real loop.
- **Exceptions**: `SudException` is `Errors.SudError`. Other exceptions the code lets through are `Errors.Crash`: `IndexError`, a JSON decoding error, `KeyError`, and a bot failure.

The model follows the code, with two exceptions. Both are listed under "## Findings" and "## Left out": the model's `run` sleeps the whole frequency, and its `notify` fills the template by keyword. Some consequences of following the code:

- **Trailing dot.** A hostname written with a trailing dot renders with two dots. Its last label is empty, so the zone becomes `"com."` and the rendered name ends in two dots (`ARecords.TrailingDotDoubled`). More generally, the round trip holds exactly as `ARecords.DnsNameRoundTrip` states.
- **Notification failures.** A bot failure escapes `update` and ends `run` (`Reconcile.NotifySendsOnlyWhenConfigured`, `Sud.Updater.Run`).
- **Interrupt.** `run` logs nothing on the interrupt. The "Exiting..." line that tests/test_updater.py:363-364 expects is not in `run`.
- **Error messages** are the code's exact texts (`Errors.Text`). The test at tests/test_updater.py:165-168 quotes names with backticks, which the code does not.

## Model

| member | source | states |
|---|---|---|
| Labels.Split | sud/updater.py:45 | `str.split(".")` always gives at least one part |
| Labels.Join | sud/updater.py:50-51 | `".".join` of two or more labels contains a dot, and of one dot-free label does not; `Labels.JoinSplit` and `Labels.SplitJoin` make it the inverse of the split |
| Labels.SplitDotFree | sud/updater.py:45 | no part of a split contains a dot |
| Labels.JoinSplit | sud/updater.py:45-51 | joining the parts of a split with "." gives the string back |
| Labels.SplitCount | sud/updater.py:45-47 | a split has two or more parts exactly when the string contains a dot |
| Labels.SplitAfterLabel | sud/updater.py:45 | a dot-free label, a dot and a rest split as that label followed by the split of the rest |
| Labels.SplitLabel | sud/updater.py:45 | a dot-free string splits into itself alone |
| Labels.SplitJoin | sud/updater.py:45-51 | splitting the dot-join of non-empty dot-free labels gives those labels back |
| Labels.JoinAppend | sud/updater.py:50-51 | the dot-join of two non-empty label lists is the first join, a dot and the second join |
| Errors.Text | sud/updater.py:43-247 | the five `SudException` texts: "Hostname is required", and otherwise a text ending with the invalid hostname or with the underlying error (followed by "." for the address service) |
| ARecords.FromHostname | sud/updater.py:40-53 | "Hostname is required" for a missing or empty hostname; "Invalid hostname" for one without a dot; success exactly for a hostname with a dot; ttl 300 and no address on success |
| ARecords.DnsName | sud/updater.py:55-58 | `get_dns_name` is always absolute: it ends in a dot and is longer than the zone; `ARecords.DnsNameRoundTrip` states when it gives the hostname back |
| ARecords.FromHostnameRecomposes | sud/updater.py:45-53 | the zone is exactly the last two labels; name + "." + zone is the hostname, or the name is "" and the zone is the hostname when there are two labels |
| ARecords.DnsNameRoundTrip | sud/updater.py:55-58 | `get_dns_name(from_hostname(h))` is h + "." if and only if h is not three labels with the first empty |
| ARecords.HostnameRoundTrip | sud/updater.py:50-58 | a hostname without empty labels renders back to itself plus a trailing dot |
| ARecords.FromLabels | sud/updater.py:45-53 | parsing the dot-join of two or more dot-free labels gives the join of the front labels as name and of the last two as zone |
| ARecords.JoinLabels | sud/updater.py:45-53 | a hostname built from name labels and two zone labels parses back to that name and zone |
| ARecords.ParsesSubdomain | tests/test_updater.py:21-49 | "test.example.com" parses to name "test", zone "example.com", ttl 300, and renders as "test.example.com." |
| ARecords.ParsesApex | tests/test_updater.py:28-53 | "example.com" parses to name "" and zone "example.com", and renders as "example.com." |
| ARecords.ParsesDeepName | tests/test_updater.py:32-34 | "x.y.z.example.com" parses to name "x.y.z" and zone "example.com" |
| ARecords.RejectsBadHostnames | tests/test_updater.py:36-44 | "xxxx" fails with "Invalid hostname: xxxx" and a missing hostname with "Hostname is required" |
| ARecords.TrailingDotDoubled | sud/updater.py:45-58 | "example.com." parses to name "example" and zone "com.", and renders as "example.com.." |
| Settings.FromSeconds | sud/config.py:20-26 | `timedelta(seconds=s)` keeps 0 <= seconds < 86400 and days * 86400 + seconds == s |
| Settings.SleepAsWritten | sud/updater.py:160 | `frequency.seconds` is always under one day |
| Settings.SleepSeconds | sud/updater.py:160 | the pause between cycles is the whole configured frequency |
| Settings.SleepAsWrittenDropsDays | sud/updater.py:160 | `frequency.seconds` is the frequency modulo one day, and equals the frequency exactly when it is below one day |
| Settings.DailyFrequencyNeverSleeps | sud/updater.py:160 | with a frequency of 86400 the code sleeps 0 seconds where 86400 are meant |
| Scaleway.FirstMatch | sud/updater.py:95-102 | no index exactly when no record has the name; otherwise an index of a record with the name and none before it |
| Scaleway.ScanRecords | sud/updater.py:95-102 | the scan loop returns the first index whose record has the name, or none |
| Scaleway.LookupResult | sud/updater.py:84-108 | a failed request gives the lookup error for that name and zone; no record exactly when none has the name; otherwise the first match, in the parsed zone, with its ttl and data |
| Scaleway.AddChanges | sud/updater.py:112-125 | the "add" changes are one change carrying one record: the rendered name, type "A", the record's ttl and the address |
| Scaleway.SetChanges | sud/updater.py:130-147 | the "set" changes are one change carrying the same record as the add, keyed by that record's own name and type |
| Scaleway.PatchRequest | sud/updater.py:214-228 | the PATCH goes to the record's zone with the given changes, never creates a zone and asks only for the changed records back |
| Scaleway.ZoneResult | sud/updater.py:230-247 | success exactly for an accepted PATCH listing a record, giving the first record in the parsed zone; caught errors are "Cannot add A record" for that name and zone; uncaught exactly for an empty list or a non-JSON error body |
| Scaleway.ChangeRequestsCarryOneARecord | sud/updater.py:110-148 | add and set each carry one A record (rendered name, ttl 300, address); the set is keyed by that name and type "A"; both go to the zone with `disallow_new_zone_creation` true and `return_all_records` false; the name is the hostname plus "." when no label is empty |
| Telegram.Placeholders | sud/updater.py:17-27 | both templates ask for "name" first and "address" last; only the updated template asks for "previous" |
| Telegram.FormatNamed | sud/updater.py:210 | `str.format` by keyword succeeds exactly when every placeholder has a value and then fills each with it; otherwise it names the first missing placeholder |
| Telegram.TemplateFor | sud/updater.py:196-204 | the chosen template asks for `previous` exactly when previous is neither None nor ""; both ask for name and address |
| Telegram.TemplateData | sud/updater.py:197-204 | `data` maps name to the hostname and address to the address, and holds previous exactly when it is neither None nor ""; it has no key the chosen template does not ask for |
| Telegram.KeywordFormatFillsData | sud/updater.py:196-210 | formatting the chosen template by keyword from `data` fills exactly the `data` values |
| Telegram.NotifyMessage | sud/updater.py:195-212 | a message exactly when telegram is configured, to its token and chat; the created template exactly when previous is None or ""; its fields are name and address, or name, previous and address |
| Telegram.NotifyAsWritten | sud/updater.py:195-212 | as written, `notify` is silent exactly without a telegram configuration, and whatever it raises is a `KeyError` for a placeholder of the chosen template |
| Telegram.FormatAsWrittenFails | sud/updater.py:210 | as written, every configured notification raises `KeyError('name')` |
| Reconcile.GetRecordStep | sud/updater.py:76-108 | no request exactly when the hostname does not parse, and then its error is raised; otherwise one zone query with the API secret, and a record found has the configured name and zone |
| Reconcile.DiscoverStep | sud/updater.py:65-74 | one address query; the address exactly when the service answered, otherwise "Cannot determine current public ip address" with the request's error |
| Reconcile.UpdateZoneStep | sud/updater.py:214-247 | exactly one PATCH, with the API secret, to the record's zone carrying the given changes; a returned record lies in that zone |
| Reconcile.AddRecordStep | sud/updater.py:110-126 | at most one request; none exactly when the hostname does not parse, and then its error; otherwise the PATCH with the "add" changes of the address |
| Reconcile.ChangeRecordStep | sud/updater.py:128-148 | at most one request; none exactly when the hostname does not parse, and then its error; otherwise the PATCH with the "set" changes of the address |
| Reconcile.NotifyStep | sud/updater.py:195-212 | the call is recorded first, with at most one message after it; the only exception is the bot's |
| Reconcile.DecideStep | sud/updater.py:165-193 | an unchanged address gives no effect and success; a create or change that ends in success has notified the detected address with the old one as previous |
| Reconcile.UpdateStep | sud/updater.py:162-193 | a cycle succeeds only with a parsable hostname, a listed zone and a discovered address, having queried the record first and the address second |
| Reconcile.NotifySendsOnlyWhenConfigured | sud/updater.py:195-212 | `notify` sends one message only with a telegram configuration, with the template chosen by `previous`; it raises only when delivery fails |
| Reconcile.NotifyWritesNothing | sud/updater.py:195-212 | `notify` neither writes to the zone nor sleeps |
| Reconcile.UpdateLooksUpBeforeDiscovering | sud/updater.py:162-164 | an invalid hostname ends the cycle with no request; otherwise the first request is the record query with the API secret, and the second is the address query |
| Reconcile.UpdateStopsOnFailedRead | sud/updater.py:162-164 | a failed lookup or a failed discovery raises its error before any write or notification |
| Reconcile.UpdateCreatesMissingRecord | sud/updater.py:165-173 | with no record there is exactly one "add" write of the detected address, then `notify` with no previous address if the write succeeded |
| Reconcile.UpdateKeepsUnchangedRecord | sud/updater.py:175-180 | a record already holding the detected address gets no write and no notification |
| Reconcile.UpdateChangesStaleRecord | sud/updater.py:182-193 | a stale record gets exactly one "set" write, then `notify` with the old address if the write succeeded |
| Reconcile.UpdateConverges | sud/updater.py:162-193 | a cycle that creates or changes the record writes the detected address once; when the provider answers that write with a record and the next lookup lists that record, the next cycle finds exactly what the write returned and writes nothing |
| Reconcile.DecideWritesOnceUnlessUnchanged | sud/updater.py:165-193 | after both reads the decision writes once, or not at all when the address is unchanged, and never sleeps |
| Reconcile.UpdateWritesAtMostOnce | sud/updater.py:162-193 | a cycle writes to the zone at most once and never sleeps |
| Reconcile.RunOf | sud/updater.py:150-160 | a run sleeps at most once per cycle: once per cycle when it reaches the interrupt, fewer when an exception escapes |
| Reconcile.RunSleepsOncePerCycle | sud/updater.py:150-160 | the run reaches the interrupt exactly when no cycle escapes, having slept once per cycle; otherwise it stops at the first escaping cycle with that cycle's exception |
| Reconcile.RunSleepsForTheFrequency | sud/updater.py:156-160 | when no cycle sleeps by itself, the sleeps in the run are the counted ones, each of the configured frequency; below one day that is exactly the code's `frequency.seconds` |
| Reconcile.RunSleepsOnlyBetweenCycles | sud/updater.py:150-160 | every sleep in a run is one of its pauses between cycles |
| Reconcile.RunSurvivesSudErrors | sud/updater.py:152-160 | a `SudException` is logged, followed by one sleep, and the loop goes on with the remaining cycles |
| Reconcile.RunAroundOneError | tests/test_updater.py:341-356 | a success, then a `SudException`, then the interrupt give two sleeps of the frequency and one logged error, and end in the interrupt |
| Sud.Updater.constructor | sud/updater.py:62-63 | holds the configuration with an empty trace |
| Sud.Updater.DiscoverAddress | sud/updater.py:65-74 | queries the address service; returns the address or raises "Cannot determine current public ip address" |
| Sud.Updater.GetRecord | sud/updater.py:76-108 | parses the hostname, queries the zone with the API secret, and returns what `Reconcile.GetRecordStep` specifies |
| Sud.Updater.UpdateZone | sud/updater.py:214-247 | sends one PATCH with the changes to the zone, and returns or raises what `Scaleway.ZoneResult` states |
| Sud.Updater.AddRecord | sud/updater.py:110-126 | parses the hostname and sends the "add" change of one A record |
| Sud.Updater.ChangeRecord | sud/updater.py:128-148 | parses the hostname and sends the "set" change of one A record keyed by name and type |
| Sud.Updater.Notify | sud/updater.py:195-212 | records the call and, with telegram configured, sends the template filled by keyword; a failed delivery raises |
| Sud.Updater.Decide | sud/updater.py:165-193 | after both reads: add and notify, keep, or change and notify, as `Reconcile.DecideStep` specifies |
| Sud.Updater.Update | sud/updater.py:162-193 | one cycle's effects and outcome are exactly `Reconcile.UpdateStep`'s, so the update lemmas above hold for it |
| Sud.Updater.RunCycle | sud/updater.py:151-160 | one turn of the loop: `update`, then the run either moves on by one cycle and one sleep or ends with the escaping exception, as `Reconcile.RunOf` describes |
| Sud.Updater.CatchAndSleep | sud/updater.py:154-160 | an exception other than `SudException` escapes, and only then; a `SudException` is logged; otherwise one sleep follows |
| Sud.Updater.Run | sud/updater.py:150-160 | the loop's trace, sleep count and end are exactly `Reconcile.RunSpec`'s, so the run lemmas above hold for it |

## Left out

- **HTTP, URLs and JSON.** `requests`, URL joining and JSON decoding are not modelled. Each request is an input response, and the effects record the request's target and payload.
- **Whitespace.** The `.strip()` of the address service's body is not modelled. `Discovered` carries the stripped text.
- **Malformed responses.** A response whose JSON lacks `records`, `name`, `ttl` or `data` (a `KeyError`) is not modelled. Nor is a success body that is not JSON.
- **Telegram.** The bot, `asyncio.run`, the HTML parse mode and the template texts are not modelled. A message is its token, chat, template and placeholder values. Delivery is an input.
- **Logging.** `humanize.naturaldelta` and `time.sleep` itself are not modelled. `run`'s caught-error log and its sleeps are effects; the informational log lines are not.
- **Configuration loading.** YAML loading and the `Config` dictionary lookups are not modelled. The configuration is a record, with the frequency already a whole number of seconds. A missing or null hostname in the file is not modelled: `ARecords.FromHostname` handles `None`, but the `Updater` always passes a string. A telegram mapping without `token` or `chat_id` is not modelled.
- **Negative frequency.** A negative frequency is outside the model (`Settings.Config.frequency` is a `nat`).
- **The infinite loop.** `run` is modelled over a finite sequence of cycles. The real loop ends only by an exception, and the end of the sequence stands for the `KeyboardInterrupt`.
- Sud.Updater.DiscoverAddress: a static method in the source, modelled as a method of the class so that it can append to the trace.
- Sud.Updater.Run, Reconcile.RunOf, Sud.Updater.CatchAndSleep: each sleep lasts the whole configured frequency (`total_seconds()`, the corrected member of the second finding). The code sleeps `frequency.seconds`, which is the same below one day and drops the whole days from one day up; a daily frequency makes the code's loop sleep 0 seconds.
- RunSleepsForTheFrequency: states each sleep as the whole frequency. It agrees with the code's `frequency.seconds` only below one day, as its second clause states.
- RunSurvivesSudErrors: the sleep after the logged error is the whole frequency, where the code sleeps `frequency.seconds`; the two agree only below one day.
- RunAroundOneError: the two sleeps are the whole frequency, where the code and its test use `frequency.seconds`; the two agree only below one day.
- Sud.Updater.Notify, Reconcile.NotifyStep: the template is filled by keyword (`format(**data)`, the corrected member of the first finding). As written, `format(data)` raises `KeyError('name')` whenever telegram is configured (`Telegram.NotifyAsWritten`). That exception is not a `SudException`, so in the code every `update` that creates or changes the record with telegram configured ends in that exception, and `run` stops with it. In the model such an `update` sends its message and `run` goes on.
- **Other files.** sud/cli.py, sud/click.py, sud/prompt.py and sud/__init__.py are not part of this model (command line, prompts, version metadata).

## Findings

| source | as written | input that shows it | evidently intended | confidence | as-written member | corrected member |
|---|---|---|---|---|---|---|
| sud/updater.py:210 | `template.format(data)` passes the mapping as one positional argument, so `{name}` has no keyword value and raises `KeyError('name')` | any notification with telegram configured, e.g. a first creation with previous None | `template.format(**data)`, as tests/test_updater.py:421 formats the expected message | not executed; high | Telegram.FormatAsWrittenFails | Telegram.KeywordFormatFillsData |
| sud/updater.py:160 | `time.sleep(frequency.seconds)` takes only the seconds within the last day of the `timedelta` | frequency 86400 sleeps 0 seconds, so the loop never pauses | sleep `frequency.total_seconds()` | not executed; medium | Settings.DailyFrequencyNeverSleeps | Settings.SleepSeconds |
