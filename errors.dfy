/**
 * What an update cycle can raise. `SudError` is the application's own exception
 * (`SudException`), which `Updater.run` catches; `Crash` lists the other exceptions
 * the updater lets through, which `run` does not catch.
 */
module Errors {

  datatype SudError =
    | HostnameRequired
    | InvalidHostname(hostname: string)
    | AddressUnknown(detail: string)
    | RecordLookupFailed(name: string, domain: string, detail: string)
    | RecordUpdateFailed(name: string, domain: string, detail: string)

  datatype Crash =
    | IndexError        // an accepted zone update whose response lists no record
    | JsonDecodeError   // a rejected zone update whose error body is not JSON
    | KeyError(key: string)
    | TelegramError     // the bot failed to deliver a notification

  datatype Raised = Sud(error: SudError) | Unhandled(crash: Crash)

  /**
   * The message the `SudException` carries: a fixed text for a missing hostname,
   * and otherwise a text that ends with the offending hostname or the underlying
   * error's detail.
   */
  function Text(e: SudError): (s: string)
    ensures e.HostnameRequired? ==> s == "Hostname is required"
    ensures e.InvalidHostname? ==> |s| > |e.hostname| && s[|s| - |e.hostname|..] == e.hostname
    ensures e.AddressUnknown? ==> |s| > |e.detail| + 1 && s[|s| - |e.detail| - 1..] == e.detail + "."
    ensures e.RecordLookupFailed? || e.RecordUpdateFailed? ==>
              |s| > |e.name| + |e.domain| + |e.detail| && s[|s| - |e.detail|..] == e.detail
  {
    match e
    case HostnameRequired => "Hostname is required"
    case InvalidHostname(h) => "Invalid hostname: " + h
    case AddressUnknown(d) => "Cannot determine current public ip address: " + d + "."
    case RecordLookupFailed(n, z, d) =>
      "Cannot retrieve information for A record " + n + " from zone " + z + ": " + d
    case RecordUpdateFailed(n, z, d) =>
      "Cannot add A record for " + n + " to zone " + z + ": " + d
  }
}
