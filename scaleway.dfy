/**
 * The DNS provider's zone-records API as the updater uses it: the record list a
 * lookup returns, the change requests `add_record` and `change_record` send, and
 * how `get_record` and `_update_zone` turn the responses into an `ARecordInfo` or
 * an error.
 */
module Scaleway {
  import opened Wrappers
  import opened Labels
  import opened Errors
  import opened ARecords

  /** One entry of a response's `records` list. */
  datatype Record = Record(name: string, ttl: int, data: string)

  /** Answer to the lookup GET: the `records` list, or the `RequestException` text. */
  datatype LookupResponse = Listed(records: seq<Record>) | LookupError(detail: string)

  /**
   * Answer to the zone PATCH: the `records` list of a 2xx answer; an HTTP error
   * status with its JSON error body (`None` when the body is not JSON); or any other
   * `RequestException`, by its text.
   */
  datatype PatchResponse =
    | Patched(records: seq<Record>)
    | Rejected(body: Option<string>)
    | Unreachable(detail: string)

  /** One record of a change: `name`, `type`, `ttl` and `data`. */
  datatype NewRecord = NewRecord(name: string, rtype: string, ttl: int, data: string)

  /** An "add" change, or a "set" change keyed by its `id_fields` (`name`, `type`). */
  datatype ZoneChange =
    | AddRecords(records: seq<NewRecord>)
    | SetRecords(idName: string, idType: string, records: seq<NewRecord>)

  /** The PATCH sent to `dns-zones/{domain}/records`. */
  datatype ZoneRequest = ZoneRequest(
    domain: string,
    changes: seq<ZoneChange>,
    disallowNewZoneCreation: bool,
    returnAllRecords: bool)

  /** Index of the first record named `name`, if any. */
  function FirstMatch(records: seq<Record>, name: string): (r: Option<nat>)
    ensures r.None? <==> forall i :: 0 <= i < |records| ==> records[i].name != name
    ensures r.Some? ==> r.value < |records| && records[r.value].name == name &&
                        forall j :: 0 <= j < r.value ==> records[j].name != name
  {
    if records == [] then None
    else if records[0].name == name then Some(0)
    else match FirstMatch(records[1..], name)
      case None => None
      case Some(k) => Some(k + 1)
  }

  /** The `for record in data["records"]` scan of `get_record`, with its early return. */
  method ScanRecords(records: seq<Record>, name: string) returns (r: Option<nat>)
    ensures r == FirstMatch(records, name)
    ensures r.Some? ==> r.value < |records| && records[r.value].name == name
  {
    var i := 0;
    while i < |records|
      invariant 0 <= i <= |records|
      invariant forall j :: 0 <= j < i ==> records[j].name != name
    {
      if records[i].name == name {
        return Some(i);
      }
      i := i + 1;
    }
    return None;
  }

  /** A response record as an `ARecordInfo` of the zone `domain`. */
  function ToInfo(rec: Record, domain: string): ARecordInfo
  {
    ARecordInfo(rec.name, domain, rec.ttl, Some(rec.data))
  }

  /**
   * What `get_record` makes of the lookup answer for `info`: the first record named
   * exactly `info.name`, in `info`'s zone, or nothing; a failed request becomes a
   * lookup error naming the record and the zone.
   */
  function LookupResult(info: ARecordInfo, response: LookupResponse): (r: Result<Option<ARecordInfo>, SudError>)
    ensures response.LookupError? ==>
              r == Failure(RecordLookupFailed(info.name, info.domain, response.detail))
    ensures response.Listed? ==> r.Success?
    ensures r == Success(None) <==>
              response.Listed? && forall i :: 0 <= i < |response.records| ==> response.records[i].name != info.name
    ensures r.Success? && r.value.Some? ==>
              var k := FirstMatch(response.records, info.name).value;
              r.value.value == ToInfo(response.records[k], info.domain) &&
              r.value.value.name == info.name
  {
    match response
    case LookupError(detail) => Failure(RecordLookupFailed(info.name, info.domain, detail))
    case Listed(records) =>
      match FirstMatch(records, info.name)
      case None => Success(None)
      case Some(k) => Success(Some(ToInfo(records[k], info.domain)))
  }

  /** The one A record both change requests carry: absolute name, ttl and address. */
  function ARecordFor(info: ARecordInfo, address: string): NewRecord
  {
    NewRecord(DnsName(info), "A", info.ttl, address)
  }

  /** The `changes` of `add_record`. */
  function AddChanges(info: ARecordInfo, address: string): (changes: seq<ZoneChange>)
    ensures |changes| == 1 && changes[0].AddRecords? && |changes[0].records| == 1
    ensures changes[0].records[0].name == DnsName(info) && changes[0].records[0].rtype == "A"
    ensures changes[0].records[0].ttl == info.ttl && changes[0].records[0].data == address
  {
    [AddRecords([ARecordFor(info, address)])]
  }

  /** The `changes` of `change_record`: replace the A records of that name. */
  function SetChanges(info: ARecordInfo, address: string): (changes: seq<ZoneChange>)
    ensures |changes| == 1 && changes[0].SetRecords? && |changes[0].records| == 1
    ensures changes[0].records == AddChanges(info, address)[0].records
    ensures changes[0].idName == changes[0].records[0].name && changes[0].idType == changes[0].records[0].rtype
  {
    [SetRecords(DnsName(info), "A", [ARecordFor(info, address)])]
  }

  /** The body `_update_zone` sends: never create a zone, return only the changed records. */
  function PatchRequest(info: ARecordInfo, changes: seq<ZoneChange>): (request: ZoneRequest)
    ensures request.domain == info.domain && request.changes == changes
    ensures request.disallowNewZoneCreation && !request.returnAllRecords
  {
    ZoneRequest(info.domain, changes, true, false)
  }

  /**
   * What `_update_zone` makes of the PATCH answer: the first returned record in
   * `info`'s zone; an update error for a refused request with a JSON body or for a
   * failed request; and, let through uncaught, an `IndexError` for an empty record
   * list and a JSON decoding error for a refusal whose body is not JSON.
   */
  function ZoneResult(info: ARecordInfo, response: PatchResponse): (r: Result<ARecordInfo, Raised>)
    ensures r.Success? <==> response.Patched? && response.records != []
    ensures r.Success? ==> r.value == ToInfo(response.records[0], info.domain)
    ensures r.Failure? && r.error.Sud? ==>
              r.error.error.RecordUpdateFailed? &&
              r.error.error.name == info.name && r.error.error.domain == info.domain
    ensures r.Failure? && r.error.Unhandled? <==>
              response == Patched([]) || response == Rejected(None)
  {
    match response
    case Patched(records) =>
      if records == [] then Failure(Unhandled(IndexError))
      else Success(ToInfo(records[0], info.domain))
    case Rejected(body) =>
      if body.Some? then Failure(Sud(RecordUpdateFailed(info.name, info.domain, body.value)))
      else Failure(Unhandled(JsonDecodeError))
    case Unreachable(detail) => Failure(Sud(RecordUpdateFailed(info.name, info.domain, detail)))
  }

  /**
   * For a parsed hostname, the add and the set request each carry one change with
   * one A record: the rendered name (the hostname and a trailing dot, when it has
   * no empty label), the default ttl and the address; the set is keyed by that same
   * name and type; both go to the hostname's zone without creating it and without
   * asking for all records back.
   */
  lemma ChangeRequestsCarryOneARecord(h: string, address: string)
    requires Dot in h
    ensures FromHostname(Some(h)).Success?
    ensures var info := FromHostname(Some(h)).value;
            var rec := NewRecord(DnsName(info), "A", DefaultTtl, address);
            var add := PatchRequest(info, AddChanges(info, address));
            var put := PatchRequest(info, SetChanges(info, address));
            add.changes == [AddRecords([rec])] &&
            put.changes == [SetRecords(rec.name, rec.rtype, [rec])] &&
            add.domain == put.domain == info.domain &&
            add.disallowNewZoneCreation && put.disallowNewZoneCreation &&
            !add.returnAllRecords && !put.returnAllRecords
    ensures (forall i :: 0 <= i < |Split(h)| ==> Split(h)[i] != "") ==>
              ARecordFor(FromHostname(Some(h)).value, address).name == h + [Dot]
  {
    if forall i :: 0 <= i < |Split(h)| ==> Split(h)[i] != "" {
      HostnameRoundTrip(h);
    }
  }
}
