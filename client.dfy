/**
 * The provider (Provider in client.go): the access token, the zone cache it
 * updates in place, and the operations that go through the transport.
 */
module Client {
  import opened Wrappers
  import opened Http
  import opened Dns
  import opened Names
  import opened Records
  import opened Zones

  class Provider {
    /** PersonnalAccessToken. */
    const token: string
    /** The zones map: nil until the first resolution. */
    var zones: Option<map<string, Zone>>

    constructor (token: string)
      ensures this.token == token && zones == None
      ensures Valid()
    {
      this.token := token;
      zones := None;
    }

    /** The cache as lookups see it: a nil map reads as empty. */
    function Cache(): map<string, Zone>
      reads this
    {
      match zones
      case None => map[]
      case Some(m) => m
    }

    /** The cache only ever holds names without a trailing dot. */
    ghost predicate Valid()
      reads this
    {
      TrimmedKeys(Cache())
    }

    /**
     * doAPIRequest: attach the bearer token, make exactly one round trip, and
     * classify the reply.
     */
    method DoAPIRequest(req: Request, t: Transport) returns (res: Result<Bytes, Error>)
      modifies t
      ensures Appended(old(t.log), t.log, Some(Authorize(req, token)))
      ensures res == Classify(t.log[|t.log| - 1].reply)
    {
      var authorized := Authorize(req, token);
      var reply := t.Do(authorized);
      res := Classify(reply);
    }

    /** createRecord: POST the encoded record; every failure gives the zero record. */
    method CreateRecord(zoneInfo: Zone, record: Record, t: Transport, lib: Library) returns (result: WireRecord, err: Option<Error>)
      modifies t
      ensures Appended(old(t.log), t.log, Sent(CreatePlan(zoneInfo, record, lib), token))
      ensures Returns(result, err, Outcome(CreatePlan(zoneInfo, record, lib), Answer(old(t.log), t.log), lib.decodeRecord), ZERO_RECORD)
    {
      var encoded := lib.encodeRecord(lib.toWire(record));
      if encoded.Failure? {
        return ZERO_RECORD, Some(EncodeError(encoded.error));
      }
      var url := Url(RecordsPath(zoneInfo.id), map[]);
      var made := NewRequest(Post, url, Some(encoded.value), lib.parseUrl);
      if made.Failure? {
        return ZERO_RECORD, Some(made.error);
      }
      var req := WithHeader(made.value, CONTENT_TYPE, JSON_MEDIA_TYPE);
      var res := DoAPIRequest(req, t);
      if res.Failure? {
        return ZERO_RECORD, Some(res.error);
      }
      var decoded := lib.decodeRecord(res.value);
      if decoded.Failure? {
        return ZERO_RECORD, Some(DecodeError(decoded.error));
      }
      return decoded.value, None;
    }

    /**
     * updateRecord: PATCH the record the old record names with the encoding
     * of the new one; every failure gives the zero record.
     */
    method UpdateRecord(oldRec: WireRecord, newRec: WireRecord, t: Transport, lib: Library) returns (result: WireRecord, err: Option<Error>)
      modifies t
      ensures Appended(old(t.log), t.log, Sent(UpdatePlan(oldRec, newRec, lib), token))
      ensures Returns(result, err, Outcome(UpdatePlan(oldRec, newRec, lib), Answer(old(t.log), t.log), lib.decodeRecord), ZERO_RECORD)
    {
      var url := Url(RecordPath(oldRec.dnsZoneId, oldRec.id), map[]);
      var encoded := lib.encodeRecord(newRec);
      if encoded.Failure? {
        return ZERO_RECORD, Some(EncodeError(encoded.error));
      }
      var made := NewRequest(Patch, url, Some(encoded.value), lib.parseUrl);
      if made.Failure? {
        return ZERO_RECORD, Some(made.error);
      }
      var req := WithHeader(made.value, CONTENT_TYPE, JSON_MEDIA_TYPE);
      var res := DoAPIRequest(req, t);
      if res.Failure? {
        return ZERO_RECORD, Some(res.error);
      }
      var decoded := lib.decodeRecord(res.value);
      if decoded.Failure? {
        return ZERO_RECORD, Some(DecodeError(decoded.error));
      }
      return decoded.value, None;
    }

    /** getDNSRecords: GET the matching records; every failure gives the empty (nil) list. */
    method GetDNSRecords(zoneInfo: Zone, rec: Record, matchContent: bool, t: Transport, lib: Library)
      returns (results: seq<WireRecord>, err: Option<Error>)
      modifies t
      ensures Appended(old(t.log), t.log, Sent(ListPlan(zoneInfo, rec, matchContent, lib), token))
      ensures Returns(results, err, Outcome(ListPlan(zoneInfo, rec, matchContent, lib), Answer(old(t.log), t.log), lib.decodeRecords), [])
    {
      var qs: map<string, string> := map[];
      qs := qs["type" := rec.rrType];
      qs := qs["name" := lib.absoluteName(rec.name, zoneInfo.name)];
      if matchContent {
        qs := qs["content" := rec.value];
      }
      var made := NewRequest(Get, Url(ListPath(zoneInfo.id), qs), None, lib.parseUrl);
      if made.Failure? {
        return [], Some(made.error);
      }
      var res := DoAPIRequest(made.value, t);
      if res.Failure? {
        return [], Some(res.error);
      }
      var decoded := lib.decodeRecords(res.value);
      if decoded.Failure? {
        return [], Some(DecodeError(decoded.error));
      }
      return decoded.value, None;
    }

    /**
     * getZoneInfo: serve the name from the cache when it is there exactly as
     * given; otherwise query for the trimmed name and cache the one zone
     * found under it. The map is allocated first, whatever happens next.
     */
    method GetZoneInfo(zoneName: string, t: Transport, lib: Library) returns (zone: Zone, err: Option<Error>)
      modifies this, t
      ensures zones.Some?
      ensures Appended(old(t.log), t.log, ZoneSent(old(Cache()), zoneName, token, lib))
      ensures Resolution(zone, err, Cache()) == Resolve(old(Cache()), zoneName, lib, Answer(old(t.log), t.log))
      ensures old(Valid()) ==> Valid()
    {
      if zones.None? {
        zones := Some(map[]);
      }
      if zoneName in zones.value {
        return zones.value[zoneName], None;
      }
      var name := TrimRightDots(zoneName);
      var made := NewRequest(Get, ZoneUrl(zoneName), None, lib.parseUrl);
      if made.Failure? {
        return ZERO_ZONE, Some(made.error);
      }
      var resp := DoAPIRequest(made.value, t);
      if resp.Failure? {
        return ZERO_ZONE, Some(resp.error);
      }
      var decoded := lib.decodeZones(resp.value);
      if decoded.Failure? {
        return ZERO_ZONE, Some(DecodeError(decoded.error));
      }
      var found := decoded.value;
      if |found| != 1 {
        return ZERO_ZONE, Some(ZoneCountError(|found|, name));
      }
      zones := Some(zones.value[name := found[0]]);
      return found[0], None;
    }
  }
}
