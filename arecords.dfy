/**
 * `ARecordInfo`: one DNS "A" record, its zone (`domain`, the last two labels of the
 * hostname) and its name inside the zone (`name`, the labels before those).
 */
module ARecords {
  import opened Wrappers
  import opened Labels
  import opened Errors

  const DefaultTtl: int := 300

  datatype ARecordInfo = ARecordInfo(name: string, domain: string, ttl: int, address: Option<string>)

  /**
   * `ARecordInfo.from_hostname`: `None` and "" are refused as missing, a hostname
   * without a dot as invalid; otherwise the last two labels are the zone and the
   * rest the name, with the default ttl and no address.
   */
  function FromHostname(hostname: Option<string>): (r: Result<ARecordInfo, SudError>)
    ensures hostname == None || hostname == Some("") ==> r == Failure(HostnameRequired)
    ensures hostname.Some? && hostname.value != "" && Dot !in hostname.value ==>
              r == Failure(InvalidHostname(hostname.value))
    ensures r.Success? <==> hostname.Some? && Dot in hostname.value
    ensures r.Success? ==> r.value.ttl == DefaultTtl && r.value.address == None
  {
    if hostname.None? || hostname.value == "" then Failure(HostnameRequired)
    else
      var parts := Split(hostname.value);
      SplitCount(hostname.value);
      if |parts| < 2 then Failure(InvalidHostname(hostname.value))
      else Success(ARecordInfo(Join(parts[..|parts| - 2]), Join(parts[|parts| - 2..]), DefaultTtl, None))
  }

  /** `ARecordInfo.get_dns_name`: the absolute (trailing-dot) name of the record. */
  function DnsName(info: ARecordInfo): (s: string)
    ensures |s| > |info.domain| && s[|s| - 1] == Dot
  {
    if info.name != "" then info.name + [Dot] + info.domain + [Dot] else info.domain + [Dot]
  }

  /**
   * The zone of a parsed hostname is exactly its last two labels, and the name and
   * zone put back together with a dot give the hostname (the zone alone when there
   * are only two labels).
   */
  lemma FromHostnameRecomposes(h: string)
    requires Dot in h
    ensures FromHostname(Some(h)).Success?
    ensures var info := FromHostname(Some(h)).value;
            var parts := Split(h);
            Split(info.domain) == parts[|parts| - 2..] &&
            (if |parts| == 2 then info.name == "" && info.domain == h
             else info.name + [Dot] + info.domain == h)
  {
    var parts := Split(h);
    SplitCount(h);
    SplitDotFree(h);
    JoinSplit(h);
    var n := |parts|;
    var front, zone := parts[..n - 2], parts[n - 2..];
    SplitJoin(zone);
    if n == 2 {
      assert zone == parts;
    } else {
      assert front + zone == parts;
      JoinAppend(front, zone);
    }
  }

  /**
   * Rendering a parsed hostname gives the hostname with a dot appended, except when
   * it has exactly three labels of which the first is empty (".example.com"): that
   * name is "" and only the zone is rendered.
   */
  lemma DnsNameRoundTrip(h: string)
    requires Dot in h
    ensures FromHostname(Some(h)).Success?
    ensures DnsName(FromHostname(Some(h)).value) == h + [Dot] <==>
            !(|Split(h)| == 3 && Split(h)[0] == "")
  {
    FromHostnameRecomposes(h);
    var parts := Split(h);
    var info := FromHostname(Some(h)).value;
    var n := |parts|;
    if n > 2 {
      assert parts[..n - 2] == [parts[0]] + parts[1..n - 2];
      if n == 3 {
        assert parts[..n - 2] == [parts[0]];
      } else {
        JoinSplit(h);
        assert |Join(parts[..n - 2])| >= 1 by {
          assert parts[..n - 2] == [parts[0]] + parts[1..n - 2];
        }
      }
      if info.name == "" {
        assert |DnsName(info)| < |h + [Dot]|;
      }
    }
  }

  /** A hostname with no empty label renders back to itself plus a trailing dot. */
  lemma HostnameRoundTrip(h: string)
    requires Dot in h
    requires forall i :: 0 <= i < |Split(h)| ==> Split(h)[i] != ""
    ensures DnsName(FromHostname(Some(h)).value) == h + [Dot]
  {
    DnsNameRoundTrip(h);
  }

  /** Parsing the dot-join of two or more dot-free labels splits them back at the zone. */
  lemma FromLabels(parts: seq<string>)
    requires |parts| >= 2
    requires forall i :: 0 <= i < |parts| ==> Dot !in parts[i]
    ensures FromHostname(Some(Join(parts))) ==
            Success(ARecordInfo(Join(parts[..|parts| - 2]), Join(parts[|parts| - 2..]), DefaultTtl, None))
  {
    var h := Join(parts);
    SplitJoin(parts);
    SplitCount(h);
  }

  /** Joining the labels of a parsed hostname, split into the name labels and the zone labels. */
  lemma JoinLabels(front: seq<string>, zone: seq<string>, name: string, domain: string, h: string)
    requires |zone| == 2 && Join(front) == name && Join(zone) == domain
    requires forall i :: 0 <= i < |front + zone| ==> Dot !in (front + zone)[i]
    requires h == (if front == [] then domain else name + [Dot] + domain)
    ensures FromHostname(Some(h)) == Success(ARecordInfo(name, domain, DefaultTtl, None))
  {
    var parts := front + zone;
    assert parts[..|parts| - 2] == front && parts[|parts| - 2..] == zone;
    FromLabels(parts);
    if front != [] {
      JoinAppend(front, zone);
    }
  }

  /** A three-label hostname: name "test" in zone "example.com". */
  lemma ParsesSubdomain(h: string)
    requires h == "test.example.com"
    ensures FromHostname(Some(h)) == Success(ARecordInfo("test", "example.com", 300, None))
    ensures DnsName(FromHostname(Some(h)).value) == "test.example.com."
  {
    JoinLabels(["test"], ["example", "com"], "test", "example.com", h);
  }

  /** A two-label hostname is the zone itself, with an empty name. */
  lemma ParsesApex(h: string)
    requires h == "example.com"
    ensures FromHostname(Some(h)) == Success(ARecordInfo("", "example.com", 300, None))
    ensures DnsName(FromHostname(Some(h)).value) == "example.com."
  {
    JoinLabels([], ["example", "com"], "", "example.com", h);
  }

  /** Every label before the zone belongs to the name. */
  lemma ParsesDeepName(h: string)
    requires h == "x.y.z.example.com"
    ensures FromHostname(Some(h)) == Success(ARecordInfo("x.y.z", "example.com", 300, None))
  {
    var front := ["x", "y", "z"];
    assert Join(front[2..]) == "z";
    assert Join(front[1..]) == "y.z";
    JoinLabels(front, ["example", "com"], "x.y.z", "example.com", h);
  }

  /** A single label and a missing hostname are refused with their own messages. */
  lemma RejectsBadHostnames(h: string)
    requires h == "xxxx"
    ensures FromHostname(Some(h)) == Failure(InvalidHostname("xxxx"))
    ensures Text(FromHostname(Some(h)).error) == "Invalid hostname: xxxx"
    ensures Text(FromHostname(None).error) == "Hostname is required"
  {
  }

  /**
   * A hostname written with its trailing dot is not given back unchanged: its last
   * label is empty, so the zone becomes "com." and the rendered name ends in two dots.
   */
  lemma TrailingDotDoubled(h: string)
    requires h == "example.com."
    ensures FromHostname(Some(h)) == Success(ARecordInfo("example", "com.", 300, None))
    ensures DnsName(FromHostname(Some(h)).value) == "example.com.."
  {
    JoinLabels(["example"], ["com", ""], "example", "com.", h);
  }
}
