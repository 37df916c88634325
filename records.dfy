/**
 * Record operations (getDNSRecords, createRecord, updateRecord in
 * client.go): the request each one builds before the round trip, and the
 * lemmas about where those requests go.
 */
module Records {
  import opened Wrappers
  import opened Http
  import opened Dns

  /** /dns_zones/{zoneId}/dns_records, the collection createRecord posts to. */
  function RecordsPath(zoneId: string): string
  {
    BASE_URL + "/dns_zones/" + zoneId + "/dns_records"
  }

  /** /dns_zones/{zoneId}/dns_records/{recordId}, the record updateRecord patches. */
  function RecordPath(zoneId: string, recordId: string): string
  {
    RecordsPath(zoneId) + "/" + recordId
  }

  /** /zones/{zoneId}/dns_records, the collection getDNSRecords queries. */
  function ListPath(zoneId: string): string
  {
    BASE_URL + "/zones/" + zoneId + "/dns_records"
  }

  /**
   * The filter getDNSRecords sends: always the type and the absolute name,
   * and the content exactly when matchContent is set.
   */
  function ListQuery(zoneInfo: Zone, rec: Record, matchContent: bool, lib: Library): (qs: map<string, string>)
    ensures "type" in qs && qs["type"] == rec.rrType
    ensures "name" in qs && qs["name"] == lib.absoluteName(rec.name, zoneInfo.name)
    ensures "content" in qs <==> matchContent
    ensures matchContent ==> qs["content"] == rec.value
    ensures qs.Keys <= {"type", "name", "content"}
  {
    var qs := map["type" := rec.rrType, "name" := lib.absoluteName(rec.name, zoneInfo.name)];
    if matchContent then qs["content" := rec.value] else qs
  }

  /** NewRequestWithContext with a JSON body, then the JSON Content-Type header. */
  function JsonPlan(verb: Method, url: Url, body: Bytes, lib: Library): Plan
  {
    match NewRequest(verb, url, Some(body), lib.parseUrl)
    case Failure(e) => Abort(e)
    case Success(req) => Send(WithHeader(req, CONTENT_TYPE, JSON_MEDIA_TYPE))
  }

  /** createRecord: encode the converted record, then POST it to the zone's record collection. */
  function CreatePlan(zoneInfo: Zone, record: Record, lib: Library): (p: Plan)
    ensures var encoded := lib.encodeRecord(lib.toWire(record));
            var url := Url(RecordsPath(zoneInfo.id), map[]);
            && (encoded.Failure? ==> p == Abort(EncodeError(encoded.error)))
            && (encoded.Success? && lib.parseUrl(url).Some? ==> p == Abort(RequestError(lib.parseUrl(url).value)))
            && (p.Send? <==> encoded.Success? && lib.parseUrl(url).None?)
            && (p.Send? ==> p.request == Request(Post, url, map[CONTENT_TYPE := JSON_MEDIA_TYPE], Some(encoded.value)))
  {
    match lib.encodeRecord(lib.toWire(record))
    case Failure(complaint) => Abort(EncodeError(complaint))
    case Success(body) => JsonPlan(Post, Url(RecordsPath(zoneInfo.id), map[]), body, lib)
  }

  /**
   * updateRecord: PATCH the record named by the old record's zone ID and ID
   * with the encoding of the new record.
   */
  function UpdatePlan(oldRec: WireRecord, newRec: WireRecord, lib: Library): (p: Plan)
    ensures var encoded := lib.encodeRecord(newRec);
            var url := Url(RecordPath(oldRec.dnsZoneId, oldRec.id), map[]);
            && (encoded.Failure? ==> p == Abort(EncodeError(encoded.error)))
            && (encoded.Success? && lib.parseUrl(url).Some? ==> p == Abort(RequestError(lib.parseUrl(url).value)))
            && (p.Send? <==> encoded.Success? && lib.parseUrl(url).None?)
            && (p.Send? ==> p.request == Request(Patch, url, map[CONTENT_TYPE := JSON_MEDIA_TYPE], Some(encoded.value)))
  {
    var url := Url(RecordPath(oldRec.dnsZoneId, oldRec.id), map[]);
    match lib.encodeRecord(newRec)
    case Failure(complaint) => Abort(EncodeError(complaint))
    case Success(body) => JsonPlan(Patch, url, body, lib)
  }

  /** getDNSRecords: GET the zone's record collection with the filter, no body. */
  function ListPlan(zoneInfo: Zone, rec: Record, matchContent: bool, lib: Library): (p: Plan)
    ensures var url := Url(ListPath(zoneInfo.id), ListQuery(zoneInfo, rec, matchContent, lib));
            && (p.Send? <==> lib.parseUrl(url).None?)
            && (p.Abort? ==> p.error == RequestError(lib.parseUrl(url).value))
            && (p.Send? ==> p.request == Request(Get, url, map[], None))
  {
    match NewRequest(Get, Url(ListPath(zoneInfo.id), ListQuery(zoneInfo, rec, matchContent, lib)), None, lib.parseUrl)
    case Failure(e) => Abort(e)
    case Success(req) => Send(req)
  }

  /** Setting matchContent adds the content filter and changes nothing else. */
  lemma ListQueryContentOnly(zoneInfo: Zone, rec: Record, lib: Library)
    ensures ListQuery(zoneInfo, rec, true, lib) == ListQuery(zoneInfo, rec, false, lib)["content" := rec.value]
    ensures ListQuery(zoneInfo, rec, false, lib) == ListQuery(zoneInfo, rec, true, lib) - {"content"}
  {
  }

  /** A zone ID without '/' cannot be mistaken for a longer or shorter one inside a record path. */
  lemma RecordPathInjective(zone1: string, id1: string, zone2: string, id2: string)
    requires '/' !in zone1 && '/' !in zone2
    ensures RecordPath(zone1, id1) == RecordPath(zone2, id2) <==> zone1 == zone2 && id1 == id2
  {
    if RecordPath(zone1, id1) == RecordPath(zone2, id2) {
      var prefix := BASE_URL + "/dns_zones/";
      var p1, p2 := RecordPath(zone1, id1), RecordPath(zone2, id2);
      assert p1 == prefix + (zone1 + ("/dns_records/" + id1));
      assert p2 == prefix + (zone2 + ("/dns_records/" + id2));
      var rest1, rest2 := zone1 + ("/dns_records/" + id1), zone2 + ("/dns_records/" + id2);
      assert rest1 == p1[|prefix|..] == rest2;
      SeparatedPrefix(zone1, "/dns_records/" + id1, zone2, "/dns_records/" + id2);
      assert zone1 == zone2;
      assert "/dns_records/" + id1 == rest1[|zone1|..] == "/dns_records/" + id2;
      assert id1 == ("/dns_records/" + id1)[13..] == ("/dns_records/" + id2)[13..] == id2;
    }
  }

  /** Two splittings of one string at the first '/' agree on the part before it. */
  lemma SeparatedPrefix(a1: string, b1: string, a2: string, b2: string)
    requires '/' !in a1 && '/' !in a2
    requires |b1| > 0 && b1[0] == '/' && |b2| > 0 && b2[0] == '/'
    requires a1 + b1 == a2 + b2
    ensures a1 == a2
  {
    FirstSlash(a1, b1);
    FirstSlash(a2, b2);
    assert a1 == (a1 + b1)[..|a1|];
  }

  /** In a + b with no '/' in a and b starting with one, the first '/' is at |a|. */
  lemma FirstSlash(a: string, b: string)
    requires '/' !in a
    requires |b| > 0 && b[0] == '/'
    ensures (a + b)[|a|] == '/'
    ensures forall i :: 0 <= i < |a| ==> (a + b)[i] != '/'
  {
  }

  /**
   * updateRecord addresses its request by the old record alone: two updates
   * go to the same URL exactly when their old records have the same zone ID
   * and ID, whatever the new records hold.
   */
  lemma UpdateTargetsOldRecord(old1: WireRecord, new1: WireRecord, old2: WireRecord, new2: WireRecord, lib: Library)
    requires '/' !in old1.dnsZoneId && '/' !in old2.dnsZoneId
    requires UpdatePlan(old1, new1, lib).Send? && UpdatePlan(old2, new2, lib).Send?
    ensures UpdatePlan(old1, new1, lib).request.url == UpdatePlan(old2, new2, lib).request.url
            <==> old1.dnsZoneId == old2.dnsZoneId && old1.id == old2.id
  {
    RecordPathInjective(old1.dnsZoneId, old1.id, old2.dnsZoneId, old2.id);
  }
}
