/**
 * `Updater`: holds the configuration read-only and performs the reconciliation.
 * `trace` is the outside world's record of what the updater has done to it; every
 * operation appends its effects there and is proved to do exactly what its
 * counterpart in `Reconcile` describes.
 */
module Sud {
  import opened Wrappers
  import opened Errors
  import opened ARecords
  import opened Settings
  import opened Scaleway
  import opened Telegram
  import opened Reconcile

  class Updater {
    const config: Config
    var trace: seq<Effect>

    constructor (config: Config)
      ensures this.config == config && trace == []
    {
      this.config := config;
      trace := [];
    }

    /** `discover_address`. */
    method DiscoverAddress(response: DiscoveryResponse) returns (r: Result<string, Raised>)
      modifies this`trace
      ensures trace == old(trace) + DiscoverStep(response).effects
      ensures r == DiscoverStep(response).result
    {
      trace := trace + [QueryAddress];
      match response {
        case Discovered(address) => r := Success(address);
        case DiscoveryError(detail) => r := Failure(Sud(AddressUnknown(detail)));
      }
    }

    /** `get_record`. */
    method GetRecord(response: LookupResponse) returns (r: Result<Option<ARecordInfo>, Raised>)
      modifies this`trace
      ensures trace == old(trace) + GetRecordStep(config, response).effects
      ensures r == GetRecordStep(config, response).result
    {
      var parsed := FromHostname(Some(config.hostname));
      if parsed.Failure? {
        return Failure(Sud(parsed.error));
      }
      var info := parsed.value;
      trace := trace + [QueryRecords(config.apiSecret, info.domain, info.name)];
      match response {
        case LookupError(detail) =>
          r := Failure(Sud(RecordLookupFailed(info.name, info.domain, detail)));
        case Listed(records) =>
          var k := ScanRecords(records, info.name);
          if k.None? {
            r := Success(None);
          } else {
            var rec := records[k.value];
            r := Success(Some(ARecordInfo(rec.name, info.domain, rec.ttl, Some(rec.data))));
          }
      }
    }

    /** `_update_zone`. */
    method UpdateZone(info: ARecordInfo, changes: seq<ZoneChange>, response: PatchResponse)
      returns (r: Result<ARecordInfo, Raised>)
      modifies this`trace
      ensures trace == old(trace) + UpdateZoneStep(config, info, changes, response).effects
      ensures r == UpdateZoneStep(config, info, changes, response).result
    {
      trace := trace + [PatchZone(config.apiSecret, ZoneRequest(info.domain, changes, true, false))];
      match response {
        case Patched(records) =>
          if records == [] {
            r := Failure(Unhandled(IndexError));
          } else {
            r := Success(ARecordInfo(records[0].name, info.domain, records[0].ttl, Some(records[0].data)));
          }
        case Rejected(body) =>
          if body.None? {
            r := Failure(Unhandled(JsonDecodeError));
          } else {
            r := Failure(Sud(RecordUpdateFailed(info.name, info.domain, body.value)));
          }
        case Unreachable(detail) =>
          r := Failure(Sud(RecordUpdateFailed(info.name, info.domain, detail)));
      }
    }

    /** `add_record`. */
    method AddRecord(address: string, response: PatchResponse) returns (r: Result<ARecordInfo, Raised>)
      modifies this`trace
      ensures trace == old(trace) + AddRecordStep(config, address, response).effects
      ensures r == AddRecordStep(config, address, response).result
    {
      var parsed := FromHostname(Some(config.hostname));
      if parsed.Failure? {
        return Failure(Sud(parsed.error));
      }
      var info := parsed.value;
      var changes := [AddRecords([NewRecord(DnsName(info), "A", info.ttl, address)])];
      r := UpdateZone(info, changes, response);
    }

    /** `change_record`. */
    method ChangeRecord(address: string, response: PatchResponse) returns (r: Result<ARecordInfo, Raised>)
      modifies this`trace
      ensures trace == old(trace) + ChangeRecordStep(config, address, response).effects
      ensures r == ChangeRecordStep(config, address, response).result
    {
      var parsed := FromHostname(Some(config.hostname));
      if parsed.Failure? {
        return Failure(Sud(parsed.error));
      }
      var info := parsed.value;
      var changes := [SetRecords(DnsName(info), "A", [NewRecord(DnsName(info), "A", info.ttl, address)])];
      r := UpdateZone(info, changes, response);
    }

    /** `asyncio.run(self.notify(address, previous))`. */
    method Notify(address: string, previous: Option<string>, delivery: Delivery) returns (r: Result<(), Raised>)
      modifies this`trace
      ensures trace == old(trace) + NotifyStep(config, address, previous, delivery).effects
      ensures r == NotifyStep(config, address, previous, delivery).result
    {
      trace := trace + [Notified(address, previous)];
      if config.telegram.Some? {
        var template := TemplateFor(previous);
        var data := TemplateData(config.hostname, address, previous);
        var fields := FormatNamed(Placeholders(template), data);
        KeywordFormatFillsData(config.hostname, address, previous);
        var message := Message(config.telegram.value.token, config.telegram.value.chatId, template, fields.value);
        trace := trace + [SendMessage(message)];
        if delivery == DeliveryFailed {
          return Failure(Unhandled(TelegramError));
        }
      }
      r := Success(());
    }

    /**
     * The second half of `update`: with the record read and the address discovered,
     * create the record, leave it, or change it, and notify after a write.
     */
    method Decide(previous: Option<ARecordInfo>, address: string, w: World) returns (r: Result<(), Raised>)
      modifies this`trace
      ensures trace == old(trace) + DecideStep(config, previous, address, w).effects
      ensures r == DecideStep(config, previous, address, w).result
    {
      if previous.None? {
        var added := AddRecord(address, w.patch);
        if added.Failure? {
          return Failure(added.error);
        }
        r := Notify(address, None, w.delivery);
        return;
      }
      if previous.value.address == Some(address) {
        return Success(());
      }
      var changed := ChangeRecord(address, w.patch);
      if changed.Failure? {
        return Failure(changed.error);
      }
      r := Notify(address, previous.value.address, w.delivery);
    }

    /** `update`: one reconciliation cycle. */
    method Update(w: World) returns (r: Result<(), Raised>)
      modifies this`trace
      ensures trace == old(trace) + UpdateStep(config, w).effects
      ensures r == UpdateStep(config, w).result
    {
      UpdateStages(config, w);
      ghost var before := trace;
      var previous := GetRecord(w.lookup);
      if previous.Failure? {
        return Failure(previous.error);
      }
      ghost var afterLookup := trace;
      var detected := DiscoverAddress(w.discovery);
      if detected.Failure? {
        return Failure(detected.error);
      }
      ghost var afterDiscovery := trace;
      r := Decide(previous.value, detected.value, w);
      AppendThree(before, afterLookup, afterDiscovery, trace);
    }

    /**
     * One turn of `run`'s loop, for the `i`-th of the `cycles` the answers `worlds`
     * give: `update`, then what `run` does with its outcome. Afterwards the run has
     * either moved on by one cycle and one sleep or ended with the escaping exception.
     */
    method RunCycle(worlds: seq<World>, i: nat, ghost start: seq<Effect>, sleeps: nat) returns (escaped: Option<Crash>)
      modifies this`trace
      requires i < |worlds|
      requires Resumes(config, Cycles(config, worlds), i, start, trace, sleeps)
      ensures escaped.None? ==> Resumes(config, Cycles(config, worlds), i + 1, start, trace, sleeps + 1)
      ensures escaped.Some? ==>
                var whole := RunOf(config, Cycles(config, worlds));
                start + whole.effects == trace && whole.sleeps == sleeps && whole.end == Crashed(escaped.value)
    {
      ghost var cycles := Cycles(config, worlds);
      ghost var pre := trace;
      var outcome := Update(worlds[i]);
      assert outcome == cycles[i].result && trace == pre + cycles[i].effects;
      escaped := CatchAndSleep(outcome, cycles, i, start, pre, sleeps);
    }

    /**
     * The `except SudException` clause and the sleep after the `i`-th cycle: an
     * exception other than `SudException` escapes; a `SudException` is logged; then
     * `run` sleeps once.
     */
    method CatchAndSleep(outcome: Result<(), Raised>, ghost cycles: seq<Step<()>>, ghost i: nat,
                         ghost start: seq<Effect>, ghost pre: seq<Effect>, sleeps: nat)
      returns (escaped: Option<Crash>)
      modifies this`trace
      requires i < |cycles| && Resumes(config, cycles, i, start, pre, sleeps)
      requires outcome == cycles[i].result && trace == pre + cycles[i].effects
      ensures escaped.Some? <==> Escapes(cycles[i])
      ensures escaped.None? ==> Resumes(config, cycles, i + 1, start, trace, sleeps + 1)
      ensures escaped.Some? ==>
                var whole := RunOf(config, cycles);
                start + whole.effects == trace && whole.sleeps == sleeps && whole.end == Crashed(escaped.value)
    {
      if outcome.Failure? && outcome.error.Unhandled? {
        ResumesIntoCrash(config, cycles, i, start, pre, trace, sleeps);
        return Some(outcome.error.crash);
      }
      if outcome.Failure? {
        trace := trace + [LogError(outcome.error.error)];
      }
      trace := trace + [Sleep(SleepSeconds(config))];
      assert trace == pre + cycles[i].effects + Pause(config, cycles[i]);
      ResumesAfterPause(config, cycles, i, start, pre, trace, sleeps);
      escaped := None;
    }

    /**
     * `run` over the answers of successive cycles: `update`, a caught and logged
     * `SudException`, one sleep, and again, until an exception escapes or the
     * cycles run out (the interrupt).
     */
    method Run(worlds: seq<World>) returns (sleeps: nat, end: RunEnd)
      modifies this`trace
      ensures trace == old(trace) + RunSpec(config, worlds).effects
      ensures sleeps == RunSpec(config, worlds).sleeps
      ensures end == RunSpec(config, worlds).end
    {
      ResumesAtStart(config, Cycles(config, worlds), trace);
      sleeps := 0;
      var i := 0;
      while i < |worlds|
        invariant i <= |worlds|
        invariant Resumes(config, Cycles(config, worlds), i, old(trace), trace, sleeps)
      {
        var escaped := RunCycle(worlds, i, old(trace), sleeps);
        if escaped.Some? {
          return sleeps, Crashed(escaped.value);
        }
        sleeps := sleeps + 1;
        i := i + 1;
      }
      ResumesAtEnd(config, Cycles(config, worlds), old(trace), trace, sleeps);
      end := Interrupted;
    }
  }
}
