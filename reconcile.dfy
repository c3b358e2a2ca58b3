/**
 * What each of `Updater`'s operations does to the outside world, as a value: the
 * list of effects it performs (requests, notifications, log lines that matter,
 * sleeps) and what it returns or raises. The answers of the outside world (the DNS
 * provider, the address service, the chat bot) are inputs.
 */
module Reconcile {
  import opened Wrappers
  import opened Labels
  import opened Errors
  import opened ARecords
  import opened Settings
  import opened Scaleway
  import opened Telegram

  /** Answer of the "what is my IP" service: the stripped body, or the request's error text. */
  datatype DiscoveryResponse = Discovered(address: string) | DiscoveryError(detail: string)

  /** Whether the bot delivers a message it is asked to send. */
  datatype Delivery = Delivered | DeliveryFailed

  /** Everything the outside world answers during one update cycle. */
  datatype World = World(lookup: LookupResponse, discovery: DiscoveryResponse, patch: PatchResponse, delivery: Delivery)

  datatype Effect =
    | QueryRecords(token: string, domain: string, name: string)  // GET dns-zones/{domain}/records?type=A&name=
    | QueryAddress                                               // GET on the address service
    | PatchZone(token: string, request: ZoneRequest)              // PATCH dns-zones/{domain}/records
    | Notified(address: string, previous: Option<string>)        // the call to `notify`
    | SendMessage(message: Message)                               // the bot's `send_message`
    | LogError(error: SudError)                                   // `run` catching a `SudException`
    | Sleep(seconds: nat)                                         // `time.sleep`

  /** The effects of one operation, in order, and its return value or exception. */
  datatype Step<T> = Step(effects: seq<Effect>, result: Result<T, Raised>)

  function Lift<T>(r: Result<T, SudError>): Result<T, Raised>
  {
    match r
    case Success(v) => Success(v)
    case Failure(e) => Failure(Sud(e))
  }

  /** `get_record`: parse the hostname, query the zone, pick the record of that name. */
  function GetRecordStep(config: Config, response: LookupResponse): (r: Step<Option<ARecordInfo>>)
    ensures r.effects == [] <==> FromHostname(Some(config.hostname)).Failure?
    ensures r.effects == [] ==> r.result == Failure(Sud(FromHostname(Some(config.hostname)).error))
    ensures r.effects != [] ==>
              var info := FromHostname(Some(config.hostname)).value;
              r.effects == [QueryRecords(config.apiSecret, info.domain, info.name)] &&
              (r.result.Success? && r.result.value.Some? ==>
                 r.result.value.value.name == info.name && r.result.value.value.domain == info.domain)
  {
    match FromHostname(Some(config.hostname))
    case Failure(e) => Step([], Failure(Sud(e)))
    case Success(info) =>
      Step([QueryRecords(config.apiSecret, info.domain, info.name)], Lift(LookupResult(info, response)))
  }

  /** `discover_address`. */
  function DiscoverStep(response: DiscoveryResponse): (r: Step<string>)
    ensures r.effects == [QueryAddress]
    ensures r.result.Success? <==> response.Discovered?
    ensures r.result.Success? ==> r.result.value == response.address
    ensures r.result.Failure? ==> r.result.error == Sud(AddressUnknown(response.detail))
  {
    match response
    case Discovered(address) => Step([QueryAddress], Success(address))
    case DiscoveryError(detail) => Step([QueryAddress], Failure(Sud(AddressUnknown(detail))))
  }

  /** `_update_zone`: send the changes for `info`'s zone and map the answer. */
  function UpdateZoneStep(config: Config, info: ARecordInfo, changes: seq<ZoneChange>, response: PatchResponse)
    : (r: Step<ARecordInfo>)
    ensures |r.effects| == 1 && r.effects[0].PatchZone? && r.effects[0].token == config.apiSecret
    ensures r.effects[0].request.domain == info.domain && r.effects[0].request.changes == changes
    ensures r.result.Success? ==> r.result.value.domain == info.domain
  {
    Step([PatchZone(config.apiSecret, PatchRequest(info, changes))], ZoneResult(info, response))
  }

  /** `add_record`. */
  function AddRecordStep(config: Config, address: string, response: PatchResponse): (r: Step<ARecordInfo>)
    ensures |r.effects| <= 1
    ensures r.effects == [] <==> FromHostname(Some(config.hostname)).Failure?
    ensures r.effects == [] ==> r.result == Failure(Sud(FromHostname(Some(config.hostname)).error))
    ensures r.effects != [] ==>
              var info := FromHostname(Some(config.hostname)).value;
              r.effects[0] == PatchZone(config.apiSecret, PatchRequest(info, AddChanges(info, address))) &&
              (r.result.Success? ==> r.result.value.domain == info.domain)
  {
    match FromHostname(Some(config.hostname))
    case Failure(e) => Step([], Failure(Sud(e)))
    case Success(info) => UpdateZoneStep(config, info, AddChanges(info, address), response)
  }

  /** `change_record`. */
  function ChangeRecordStep(config: Config, address: string, response: PatchResponse): (r: Step<ARecordInfo>)
    ensures |r.effects| <= 1
    ensures r.effects == [] <==> FromHostname(Some(config.hostname)).Failure?
    ensures r.effects == [] ==> r.result == Failure(Sud(FromHostname(Some(config.hostname)).error))
    ensures r.effects != [] ==>
              var info := FromHostname(Some(config.hostname)).value;
              r.effects[0] == PatchZone(config.apiSecret, PatchRequest(info, SetChanges(info, address))) &&
              (r.result.Success? ==> r.result.value.domain == info.domain)
  {
    match FromHostname(Some(config.hostname))
    case Failure(e) => Step([], Failure(Sud(e)))
    case Success(info) => UpdateZoneStep(config, info, SetChanges(info, address), response)
  }

  /**
   * `asyncio.run(notify(address, previous))`: a message goes out only with a telegram
   * configuration; a bot failure is not a `SudException` and escapes.
   */
  function NotifyStep(config: Config, address: string, previous: Option<string>, delivery: Delivery): (r: Step<()>)
    ensures 1 <= |r.effects| <= 2 && r.effects[0] == Notified(address, previous)
    ensures r.result.Failure? ==> r.result.error == Unhandled(TelegramError)
  {
    var message := NotifyMessage(config.telegram, config.hostname, address, previous);
    if message.None? then Step([Notified(address, previous)], Success(()))
    else
      Step([Notified(address, previous), SendMessage(message.value)],
           if delivery == Delivered then Success(()) else Failure(Unhandled(TelegramError)))
  }

  /**
   * What `update` does once both reads succeeded: create the record when there is
   * none, leave it alone when its address is the detected one, change it otherwise;
   * notify after a create or a change that succeeded.
   */
  function DecideStep(config: Config, previous: Option<ARecordInfo>, detected: string, w: World): (r: Step<()>)
    ensures previous.Some? && previous.value.address == Some(detected) ==> r == Step([], Success(()))
    ensures r.result.Success? && !(previous.Some? && previous.value.address == Some(detected)) ==>
              Notified(detected, if previous.None? then None else previous.value.address) in r.effects
  {
    if previous.None? then
      var added := AddRecordStep(config, detected, w.patch);
      if added.result.Failure? then Step(added.effects, Failure(added.result.error))
      else
        var notified := NotifyStep(config, detected, None, w.delivery);
        assert (added.effects + notified.effects)[|added.effects|] == notified.effects[0];
        Step(added.effects + notified.effects, notified.result)
    else if previous.value.address == Some(detected) then Step([], Success(()))
    else
      var changed := ChangeRecordStep(config, detected, w.patch);
      if changed.result.Failure? then Step(changed.effects, Failure(changed.result.error))
      else
        var notified := NotifyStep(config, detected, previous.value.address, w.delivery);
        assert (changed.effects + notified.effects)[|changed.effects|] == notified.effects[0];
        Step(changed.effects + notified.effects, notified.result)
  }

  /**
   * `update`: look the record up, then discover the address, then decide; the first
   * exception ends the cycle.
   */
  function UpdateStep(config: Config, w: World): (r: Step<()>)
    ensures r.result.Success? ==> Dot in config.hostname && w.lookup.Listed? && w.discovery.Discovered?
    ensures r.result.Success? ==> |r.effects| >= 2 && r.effects[0].QueryRecords? && r.effects[1] == QueryAddress
  {
    var lookup := GetRecordStep(config, w.lookup);
    if lookup.result.Failure? then Step(lookup.effects, Failure(lookup.result.error))
    else
      var discovery := DiscoverStep(w.discovery);
      if discovery.result.Failure? then Step(lookup.effects + discovery.effects, Failure(discovery.result.error))
      else
        var decided := DecideStep(config, lookup.result.value, discovery.result.value, w);
        Step(lookup.effects + discovery.effects + decided.effects, decided.result)
  }

  /** `update` in three stages: the lookup, the discovery, the decision; each failure stops it. */
  lemma UpdateStages(config: Config, w: World)
    ensures var lookup := GetRecordStep(config, w.lookup);
            lookup.result.Failure? ==> UpdateStep(config, w) == Step(lookup.effects, Failure(lookup.result.error))
    ensures var lookup, discovery := GetRecordStep(config, w.lookup), DiscoverStep(w.discovery);
            lookup.result.Success? && discovery.result.Failure? ==>
              UpdateStep(config, w) == Step(lookup.effects + discovery.effects, Failure(discovery.result.error))
    ensures var lookup, discovery := GetRecordStep(config, w.lookup), DiscoverStep(w.discovery);
            lookup.result.Success? && discovery.result.Success? ==>
              var decided := DecideStep(config, lookup.result.value, discovery.result.value, w);
              UpdateStep(config, w) == Step(lookup.effects + discovery.effects + decided.effects, decided.result)
  {
  }

  /** A trace extended three times is the first trace followed by the three extensions. */
  lemma AppendThree(t0: seq<Effect>, t1: seq<Effect>, t2: seq<Effect>, t3: seq<Effect>)
    requires |t0| <= |t1| <= |t2| <= |t3|
    requires t1[..|t0|] == t0 && t2[..|t1|] == t1 && t3[..|t2|] == t2
    ensures t3 == t0 + (t1[|t0|..] + t2[|t1|..] + t3[|t2|..])
  {
  }

  /** The cycle ended in an exception other than `SudException`, which `run` does not catch. */
  predicate Escapes(s: Step<()>)
  {
    s.result.Failure? && s.result.error.Unhandled?
  }

  /**
   * How `run` stops: the external interrupt, raised by the first `update` after the
   * given cycles, or an exception escaping from an `update`.
   */
  datatype RunEnd = Interrupted | Crashed(crash: Crash)

  datatype RunTrace = RunTrace(effects: seq<Effect>, sleeps: nat, end: RunEnd)

  /** The outcome of `update` for each cycle's answers. */
  function Cycles(config: Config, worlds: seq<World>): (cycles: seq<Step<()>>)
    ensures |cycles| == |worlds|
    ensures forall i :: 0 <= i < |worlds| ==> cycles[i] == UpdateStep(config, worlds[i])
  {
    seq(|worlds|, i requires 0 <= i < |worlds| => UpdateStep(config, worlds[i]))
  }

  /**
   * `run` over the outcomes of successive `update` calls: each cycle whose exception,
   * if any, is a `SudException` is followed by logging that error and one sleep; any
   * other exception ends the loop at once.
   */
  function RunOf(config: Config, cycles: seq<Step<()>>): (r: RunTrace)
    ensures r.sleeps <= |cycles|
    ensures r.end == Interrupted ==> r.sleeps == |cycles|
    ensures r.end.Crashed? ==> r.sleeps < |cycles|
    decreases |cycles|
  {
    if cycles == [] then RunTrace([], 0, Interrupted)
    else
      var cycle := cycles[0];
      if Escapes(cycle) then RunTrace(cycle.effects, 0, Crashed(cycle.result.error.crash))
      else
        var rest := RunOf(config, cycles[1..]);
        RunTrace(cycle.effects + Pause(config, cycle) + rest.effects, rest.sleeps + 1, rest.end)
  }

  /** What `run` does after a cycle that did not escape: log its error, if any, and sleep. */
  function Pause(config: Config, cycle: Step<()>): seq<Effect>
    requires !Escapes(cycle)
  {
    (if cycle.result.Failure? then [LogError(cycle.result.error.error)] else []) + [Sleep(SleepSeconds(config))]
  }

  /**
   * After the first `i` cycles, `run` has added `current` to the `start` trace and slept
   * `sleeps` times, and what it still does is the run of the remaining cycles.
   */
  ghost predicate Resumes(config: Config, cycles: seq<Step<()>>, i: nat, start: seq<Effect>, current: seq<Effect>, sleeps: nat)
  {
    i <= |cycles| &&
    var whole, rest := RunOf(config, cycles), RunOf(config, cycles[i..]);
    start + whole.effects == current + rest.effects && whole.sleeps == sleeps + rest.sleeps && whole.end == rest.end
  }

  /** Before the first cycle, all of the run is still to come. */
  lemma ResumesAtStart(config: Config, cycles: seq<Step<()>>, start: seq<Effect>)
    ensures Resumes(config, cycles, 0, start, start, 0)
  {
    assert cycles[0..] == cycles;
  }

  /** A cycle that did not escape, then its logged error and its sleep: one cycle further. */
  lemma ResumesAfterPause(config: Config, cycles: seq<Step<()>>, i: nat, start: seq<Effect>, pre: seq<Effect>, post: seq<Effect>, sleeps: nat)
    requires Resumes(config, cycles, i, start, pre, sleeps)
    requires i < |cycles| && !Escapes(cycles[i])
    requires post == pre + cycles[i].effects + Pause(config, cycles[i])
    ensures Resumes(config, cycles, i + 1, start, post, sleeps + 1)
  {
    assert cycles[i..][0] == cycles[i] && cycles[i..][1..] == cycles[i + 1..];
  }

  /** A cycle that escaped ends the run with its own exception and no further sleep. */
  lemma ResumesIntoCrash(config: Config, cycles: seq<Step<()>>, i: nat, start: seq<Effect>, pre: seq<Effect>, post: seq<Effect>, sleeps: nat)
    requires Resumes(config, cycles, i, start, pre, sleeps)
    requires i < |cycles| && Escapes(cycles[i])
    requires post == pre + cycles[i].effects
    ensures start + RunOf(config, cycles).effects == post
    ensures RunOf(config, cycles).sleeps == sleeps
    ensures RunOf(config, cycles).end == Crashed(cycles[i].result.error.crash)
  {
    assert cycles[i..][0] == cycles[i];
  }

  /** With no cycle left, the run ends in the interrupt. */
  lemma ResumesAtEnd(config: Config, cycles: seq<Step<()>>, start: seq<Effect>, current: seq<Effect>, sleeps: nat)
    requires Resumes(config, cycles, |cycles|, start, current, sleeps)
    ensures start + RunOf(config, cycles).effects == current
    ensures RunOf(config, cycles).sleeps == sleeps
    ensures RunOf(config, cycles).end == Interrupted
  {
    assert cycles[|cycles|..] == [];
  }

  /** `run` over the answers of successive cycles. */
  function RunSpec(config: Config, worlds: seq<World>): RunTrace
  {
    RunOf(config, Cycles(config, worlds))
  }

  /** Number of zone writes (PATCH requests) among `effects`. */
  function Writes(effects: seq<Effect>): nat
  {
    if effects == [] then 0 else (if effects[0].PatchZone? then 1 else 0) + Writes(effects[1..])
  }

  /** Number of sleeps among `effects`. */
  function Sleeps(effects: seq<Effect>): nat
  {
    if effects == [] then 0 else (if effects[0].Sleep? then 1 else 0) + Sleeps(effects[1..])
  }

  lemma {:induction false} CountsAppend(a: seq<Effect>, b: seq<Effect>)
    ensures Writes(a + b) == Writes(a) + Writes(b)
    ensures Sleeps(a + b) == Sleeps(a) + Sleeps(b)
    decreases |a|
  {
    if a == [] {
      assert a + b == b;
    } else {
      CountsAppend(a[1..], b);
      assert (a + b)[1..] == a[1..] + b;
    }
  }

  /**
   * `notify` always records the call; it sends one message, with the template that
   * `previous` selects, only when telegram is configured; only a failed delivery
   * makes it raise.
   */
  lemma NotifySendsOnlyWhenConfigured(config: Config, address: string, previous: Option<string>, delivery: Delivery)
    ensures var s := NotifyStep(config, address, previous, delivery);
            |s.effects| >= 1 && s.effects[0] == Notified(address, previous) &&
            (config.telegram.None? ==> s == Step([Notified(address, previous)], Success(()))) &&
            (config.telegram.Some? ==>
               |s.effects| == 2 && s.effects[1].SendMessage? &&
               s.effects[1].message.chatId == config.telegram.value.chatId &&
               (s.effects[1].message.template == Created <==> previous == None || previous == Some(""))) &&
            (s.result.Failure? <==> config.telegram.Some? && delivery == DeliveryFailed)
  {
  }

  /** `notify` neither writes to the zone nor sleeps. */
  lemma NotifyWritesNothing(config: Config, address: string, previous: Option<string>, delivery: Delivery)
    ensures Writes(NotifyStep(config, address, previous, delivery).effects) == 0
    ensures Sleeps(NotifyStep(config, address, previous, delivery).effects) == 0
  {
    var effects := NotifyStep(config, address, previous, delivery).effects;
    var call := Notified(address, previous);
    if |effects| == 1 {
      assert effects == [call] && effects[1..] == [];
    } else {
      assert effects[1..][1..] == [];
      assert Writes(effects[1..]) == 0 && Sleeps(effects[1..]) == 0;
    }
  }

  /**
   * An invalid hostname ends the cycle before any request; otherwise the record is
   * queried first, with the API secret, and the address second.
   */
  lemma UpdateLooksUpBeforeDiscovering(config: Config, w: World)
    ensures FromHostname(Some(config.hostname)).Failure? ==>
              UpdateStep(config, w) == Step([], Failure(Sud(FromHostname(Some(config.hostname)).error)))
    ensures FromHostname(Some(config.hostname)).Success? ==>
              var info := FromHostname(Some(config.hostname)).value;
              var s := UpdateStep(config, w);
              |s.effects| >= 1 && s.effects[0] == QueryRecords(config.apiSecret, info.domain, info.name) &&
              (|s.effects| >= 2 ==> s.effects[1] == QueryAddress)
  {
    var lookup := GetRecordStep(config, w.lookup);
    if lookup.result.Success? {
      var discovery := DiscoverStep(w.discovery);
      assert discovery.effects == [QueryAddress];
      if discovery.result.Success? {
        UpdateStages(config, w);
      }
    }
  }

  /** A failed lookup or a failed discovery raises before any write or notification. */
  lemma UpdateStopsOnFailedRead(config: Config, w: World)
    requires Dot in config.hostname
    ensures var info := FromHostname(Some(config.hostname)).value;
            var query := QueryRecords(config.apiSecret, info.domain, info.name);
            (w.lookup.LookupError? ==>
               UpdateStep(config, w) ==
               Step([query], Failure(Sud(RecordLookupFailed(info.name, info.domain, w.lookup.detail))))) &&
            (w.lookup.Listed? && w.discovery.DiscoveryError? ==>
               UpdateStep(config, w) ==
               Step([query, QueryAddress], Failure(Sud(AddressUnknown(w.discovery.detail)))))
  {
  }

  /**
   * No record of that name: exactly one "add" write of the detected address; if it
   * succeeds, then `notify(address)` with no previous address, else the write's error.
   */
  lemma UpdateCreatesMissingRecord(config: Config, w: World, address: string)
    requires Dot in config.hostname
    requires LookupResult(FromHostname(Some(config.hostname)).value, w.lookup) == Success(None)
    requires w.discovery == Discovered(address)
    ensures var info := FromHostname(Some(config.hostname)).value;
            var lookups := [QueryRecords(config.apiSecret, info.domain, info.name), QueryAddress];
            var write := PatchZone(config.apiSecret, PatchRequest(info, AddChanges(info, address)));
            var notified := NotifyStep(config, address, None, w.delivery);
            var s := UpdateStep(config, w);
            (ZoneResult(info, w.patch).Failure? ==> s == Step(lookups + [write], Failure(ZoneResult(info, w.patch).error))) &&
            (ZoneResult(info, w.patch).Success? ==> s == Step(lookups + [write] + notified.effects, notified.result)) &&
            Writes(s.effects) == 1
  {
    var info := FromHostname(Some(config.hostname)).value;
    var query := QueryRecords(config.apiSecret, info.domain, info.name);
    var lookups := [query, QueryAddress];
    var write := PatchZone(config.apiSecret, PatchRequest(info, AddChanges(info, address)));
    var notified := NotifyStep(config, address, None, w.delivery);
    UpdateStages(config, w);
    assert GetRecordStep(config, w.lookup) == Step([query], Success(None));
    assert DiscoverStep(w.discovery) == Step([QueryAddress], Success(address));
    assert [query] + [QueryAddress] == lookups;
    assert AddRecordStep(config, address, w.patch) == Step([write], ZoneResult(info, w.patch));
    CountsAppend(lookups, [write]);
    CountsAppend(lookups + [write], notified.effects);
    assert Writes(lookups) == 0 && Writes([write]) == 1;
    NotifyWritesNothing(config, address, None, w.delivery);
  }

  /** The record already holds the detected address: no write and no notification. */
  lemma UpdateKeepsUnchangedRecord(config: Config, w: World, address: string)
    requires Dot in config.hostname
    requires var found := LookupResult(FromHostname(Some(config.hostname)).value, w.lookup);
             found.Success? && found.value.Some? && found.value.value.address == Some(address)
    requires w.discovery == Discovered(address)
    ensures var info := FromHostname(Some(config.hostname)).value;
            UpdateStep(config, w) ==
            Step([QueryRecords(config.apiSecret, info.domain, info.name), QueryAddress], Success(()))
  {
  }

  /**
   * The record holds another address: exactly one "set" write of the detected
   * address; if it succeeds, then `notify(address, previous=<old address>)`.
   */
  lemma UpdateChangesStaleRecord(config: Config, w: World, address: string)
    requires Dot in config.hostname
    requires var found := LookupResult(FromHostname(Some(config.hostname)).value, w.lookup);
             found.Success? && found.value.Some? && found.value.value.address != Some(address)
    requires w.discovery == Discovered(address)
    ensures var info := FromHostname(Some(config.hostname)).value;
            var previous := LookupResult(info, w.lookup).value.value.address;
            var lookups := [QueryRecords(config.apiSecret, info.domain, info.name), QueryAddress];
            var write := PatchZone(config.apiSecret, PatchRequest(info, SetChanges(info, address)));
            var notified := NotifyStep(config, address, previous, w.delivery);
            var s := UpdateStep(config, w);
            (ZoneResult(info, w.patch).Failure? ==> s == Step(lookups + [write], Failure(ZoneResult(info, w.patch).error))) &&
            (ZoneResult(info, w.patch).Success? ==> s == Step(lookups + [write] + notified.effects, notified.result)) &&
            Writes(s.effects) == 1
  {
    var info := FromHostname(Some(config.hostname)).value;
    var previous := LookupResult(info, w.lookup).value.value.address;
    var query := QueryRecords(config.apiSecret, info.domain, info.name);
    var lookups := [query, QueryAddress];
    var write := PatchZone(config.apiSecret, PatchRequest(info, SetChanges(info, address)));
    var notified := NotifyStep(config, address, previous, w.delivery);
    UpdateStages(config, w);
    assert GetRecordStep(config, w.lookup) == Step([query], Success(LookupResult(info, w.lookup).value));
    assert DiscoverStep(w.discovery) == Step([QueryAddress], Success(address));
    assert [query] + [QueryAddress] == lookups;
    assert ChangeRecordStep(config, address, w.patch) == Step([write], ZoneResult(info, w.patch));
    CountsAppend(lookups, [write]);
    CountsAppend(lookups + [write], notified.effects);
    assert Writes(lookups) == 0 && Writes([write]) == 1;
    NotifyWritesNothing(config, address, previous, w.delivery);
  }

  /**
   * A cycle that creates or changes the record, and whose write the provider answers
   * with record `r`, writes the detected address once; when the next lookup lists
   * that same record and the address has not moved, the next cycle finds it and
   * neither writes nor notifies.
   */
  lemma UpdateConverges(config: Config, first: World, next: World, r: Record)
    requires Dot in config.hostname
    requires var found := LookupResult(FromHostname(Some(config.hostname)).value, first.lookup);
             found.Success? && (found.value.None? || found.value.value.address != Some(r.data))
    requires first.discovery == Discovered(r.data) && first.patch == Patched([r])
    requires r.name == FromHostname(Some(config.hostname)).value.name
    requires next.lookup == Listed([r]) && next.discovery == first.discovery
    ensures var info := FromHostname(Some(config.hostname)).value;
            var s := UpdateStep(config, first);
            Writes(s.effects) == 1 && |s.effects| >= 3 &&
            (s.effects[2] == PatchZone(config.apiSecret, PatchRequest(info, AddChanges(info, r.data))) ||
             s.effects[2] == PatchZone(config.apiSecret, PatchRequest(info, SetChanges(info, r.data))))
    ensures var info := FromHostname(Some(config.hostname)).value;
            ZoneResult(info, first.patch) == Success(ToInfo(r, info.domain)) &&
            LookupResult(info, next.lookup) == Success(Some(ToInfo(r, info.domain)))
    ensures UpdateStep(config, next).result == Success(())
    ensures Writes(UpdateStep(config, next).effects) == 0
  {
    var info := FromHostname(Some(config.hostname)).value;
    if LookupResult(info, first.lookup).value.None? {
      UpdateCreatesMissingRecord(config, first, r.data);
    } else {
      UpdateChangesStaleRecord(config, first, r.data);
    }
    var found := ToInfo(r, info.domain);
    assert LookupResult(info, next.lookup) == Success(Some(found));
    assert GetRecordStep(config, next.lookup).result == Success(Some(found));
    assert DecideStep(config, Some(found), r.data, next) == Step([], Success(()));
    var lookups := [QueryRecords(config.apiSecret, info.domain, info.name), QueryAddress];
    assert UpdateStep(config, next) == Step(lookups + [], Success(()));
    assert Writes(lookups) == 0;
  }

  /**
   * Once both reads succeeded, the decision writes to the zone exactly once unless
   * the record already holds the detected address, and never sleeps.
   */
  lemma DecideWritesOnceUnlessUnchanged(config: Config, previous: Option<ARecordInfo>, detected: string, w: World)
    requires Dot in config.hostname
    ensures var s := DecideStep(config, previous, detected, w);
            Writes(s.effects) == (if previous.Some? && previous.value.address == Some(detected) then 0 else 1) &&
            Sleeps(s.effects) == 0
  {
    if !(previous.Some? && previous.value.address == Some(detected)) {
      var info := FromHostname(Some(config.hostname)).value;
      var oldAddress := if previous.None? then None else previous.value.address;
      var write := if previous.None? then AddRecordStep(config, detected, w.patch)
                   else ChangeRecordStep(config, detected, w.patch);
      assert |write.effects| == 1 && write.effects[0].PatchZone?;
      assert Writes(write.effects) == 1 && Sleeps(write.effects) == 0 by {
        assert write.effects[1..] == [];
      }
      NotifyWritesNothing(config, detected, oldAddress, w.delivery);
      CountsAppend(write.effects, NotifyStep(config, detected, oldAddress, w.delivery).effects);
    }
  }

  /** A cycle writes to the zone at most once and never sleeps. */
  lemma UpdateWritesAtMostOnce(config: Config, w: World)
    ensures Writes(UpdateStep(config, w).effects) <= 1
    ensures Sleeps(UpdateStep(config, w).effects) == 0
  {
    var lookup := GetRecordStep(config, w.lookup);
    var discovery := DiscoverStep(w.discovery);
    assert Writes(lookup.effects) == 0 && Sleeps(lookup.effects) == 0 by {
      assert lookup.effects == [] || lookup.effects[1..] == [];
    }
    assert Writes(discovery.effects) == 0 && Sleeps(discovery.effects) == 0 by {
      assert discovery.effects[1..] == [];
    }
    CountsAppend(lookup.effects, discovery.effects);
    if lookup.result.Success? && discovery.result.Success? {
      var decided := DecideStep(config, lookup.result.value, discovery.result.value, w);
      DecideWritesOnceUnlessUnchanged(config, lookup.result.value, discovery.result.value, w);
      CountsAppend(lookup.effects + discovery.effects, decided.effects);
    }
  }

  /**
   * `run` sleeps once after every cycle that did not escape, so the loop reaches
   * the interrupt exactly when no cycle escapes, having slept once per cycle; if a
   * cycle escapes, it is the first such one, the loop stops there, and its
   * exception is what ends `run`.
   */
  lemma {:induction false} RunSleepsOncePerCycle(config: Config, cycles: seq<Step<()>>)
    ensures var t := RunOf(config, cycles);
            t.sleeps <= |cycles| &&
            (t.end == Interrupted <==> forall i :: 0 <= i < |cycles| ==> !Escapes(cycles[i])) &&
            (t.end == Interrupted ==> t.sleeps == |cycles|) &&
            (t.end.Crashed? ==>
               t.sleeps < |cycles| && Escapes(cycles[t.sleeps]) &&
               t.end.crash == cycles[t.sleeps].result.error.crash &&
               forall i :: 0 <= i < t.sleeps ==> !Escapes(cycles[i]))
    decreases |cycles|
  {
    if cycles != [] {
      RunSleepsOncePerCycle(config, cycles[1..]);
      assert forall i :: 1 <= i < |cycles| ==> cycles[i] == cycles[1..][i - 1];
    }
  }

  /**
   * The sleeps in `run`'s effects are exactly the counted ones, each of the
   * configured frequency, provided no `update` sleeps itself; below one day that is
   * also what `frequency.seconds` gives.
   */
  lemma {:induction false} RunSleepsForTheFrequency(config: Config, cycles: seq<Step<()>>)
    requires forall i :: 0 <= i < |cycles| ==> Sleeps(cycles[i].effects) == 0
    ensures Sleeps(RunOf(config, cycles).effects) == RunOf(config, cycles).sleeps
    ensures forall i :: 0 <= i < |RunOf(config, cycles).effects| && RunOf(config, cycles).effects[i].Sleep? ==>
              RunOf(config, cycles).effects[i].seconds == config.frequency
    ensures config.frequency < SecondsPerDay ==>
              forall i :: 0 <= i < |RunOf(config, cycles).effects| && RunOf(config, cycles).effects[i].Sleep? ==>
                RunOf(config, cycles).effects[i].seconds == SleepAsWritten(config)
    decreases |cycles|
  {
    SleepAsWrittenDropsDays(config);
    if cycles != [] {
      var cycle := cycles[0];
      NoSleepsAnywhere(cycle.effects);
      if !Escapes(cycle) {
        assert forall i :: 0 <= i < |cycles[1..]| ==> cycles[1..][i] == cycles[i + 1];
        RunSleepsForTheFrequency(config, cycles[1..]);
        var logged := if cycle.result.Failure? then [LogError(cycle.result.error.error)] else [];
        var sleep := [Sleep(SleepSeconds(config))];
        var pause := Pause(config, cycle);
        var rest := RunOf(config, cycles[1..]);
        assert pause == logged + sleep;
        CountsAppend(logged, sleep);
        CountsAppend(cycle.effects, pause);
        CountsAppend(cycle.effects + pause, rest.effects);
        assert Sleeps(logged) == 0 && Sleeps(sleep) == 1;
        var all := cycle.effects + pause + rest.effects;
        assert forall i :: 0 <= i < |all| && all[i].Sleep? ==> all[i].seconds == config.frequency by {
          forall i | 0 <= i < |all| && all[i].Sleep?
            ensures all[i].seconds == config.frequency
          {
            if i >= |cycle.effects + pause| {
              assert all[i] == rest.effects[i - |cycle.effects + pause|];
            }
          }
        }
      }
    }
  }

  /** No `update` sleeps, so every sleep of `run` is one of its counted pauses. */
  lemma RunSleepsOnlyBetweenCycles(config: Config, worlds: seq<World>)
    ensures Sleeps(RunSpec(config, worlds).effects) == RunSpec(config, worlds).sleeps
  {
    var cycles := Cycles(config, worlds);
    forall i | 0 <= i < |cycles| ensures Sleeps(cycles[i].effects) == 0 {
      UpdateWritesAtMostOnce(config, worlds[i]);
    }
    RunSleepsForTheFrequency(config, cycles);
  }

  /** Effects that count no sleep hold none. */
  lemma {:induction false} NoSleepsAnywhere(effects: seq<Effect>)
    requires Sleeps(effects) == 0
    ensures forall i :: 0 <= i < |effects| ==> !effects[i].Sleep?
    decreases |effects|
  {
    if effects != [] {
      NoSleepsAnywhere(effects[1..]);
      assert forall i :: 1 <= i < |effects| ==> effects[i] == effects[1..][i - 1];
    }
  }

  /**
   * A cycle that raises a `SudException` does not end `run`: the error is logged,
   * the loop sleeps, and the remaining cycles run as if from the start.
   */
  lemma RunSurvivesSudErrors(config: Config, cycle: Step<()>, rest: seq<Step<()>>)
    requires cycle.result.Failure? && cycle.result.error.Sud?
    ensures RunOf(config, [cycle] + rest) ==
            RunTrace(cycle.effects + [LogError(cycle.result.error.error), Sleep(config.frequency)] + RunOf(config, rest).effects,
                     RunOf(config, rest).sleeps + 1,
                     RunOf(config, rest).end)
  {
    assert ([cycle] + rest)[1..] == rest;
    assert Pause(config, cycle) == [LogError(cycle.result.error.error), Sleep(config.frequency)];
  }

  /**
   * A cycle that succeeds, then one that raises a `SudException`, then the interrupt:
   * two sleeps of the frequency, one logged error, and the interrupt ends the run.
   */
  lemma RunAroundOneError(config: Config, ok: Step<()>, failed: Step<()>)
    requires ok.result.Success? && failed.result.Failure? && failed.result.error.Sud?
    ensures var run := RunOf(config, [ok, failed]);
            run.sleeps == 2 && run.end == Interrupted &&
            run.effects == ok.effects + [Sleep(config.frequency)] +
                           failed.effects + [LogError(failed.result.error.error), Sleep(config.frequency)]
  {
    assert [ok, failed][1..] == [failed];
    assert [failed][1..] == [];
    assert Pause(config, ok) == [Sleep(config.frequency)];
    assert Pause(config, failed) == [LogError(failed.result.error.error), Sleep(config.frequency)];
    assert RunOf(config, [failed]).effects == failed.effects + Pause(config, failed) + [];
  }
}
