/** The server as it runs: the store's state and the usage meter as mutable
    fields, and the message handler and hourly sweep as methods that change
    them step by step, each proved to have the effect `Handle` or `Sweep`
    gives. */
module Server {
  import opened Strings
  import opened Documents
  import opened Keys
  import Usage
  import opened Router
  import opened Handler

  class Server {
    var companies: map<string, Doc>
    var docs: map<seq<string>, Doc>
    var logs: seq<LogEntry>
    var reminders: seq<Doc>
    const meter: Usage.UsageMeter

    ghost function Snapshot(): World
      reads this, meter
    {
      World(companies, docs, logs, reminders, meter.State())
    }

    ghost predicate Valid()
      reads this, meter
    {
      meter.Valid()
    }

    /** A server over an existing tenant directory, sensor records and
        reminders, with no logs yet and an empty usage buffer. */
    constructor (companies: map<string, Doc>, docs: map<seq<string>, Doc>, reminders: seq<Doc>)
      ensures Valid() && fresh(meter)
      ensures Snapshot() == World(companies, docs, [], reminders, Usage.Meter(map[], [], []))
    {
      this.companies := companies;
      this.docs := docs;
      this.logs := [];
      this.reminders := reminders;
      this.meter := new Usage.UsageMeter();
    }

    /** The transport's "message" handler (index.js:84-233): the message's
        whole effect on the store and the meter is `Handle`, and the status
        is the one `Plan` decides. */
    method OnMessage(topic: string, data: string, policy: Policy, now: int) returns (status: Status)
      requires Valid()
      modifies this, meter
      ensures Valid()
      ensures Snapshot() == Handle(old(Snapshot()), topic, data, policy, now)
      ensures status == Plan(old(Snapshot()), topic, data, policy, now).status
    {
      ghost var w0 := Snapshot();
      HandleKeepsInvariants(w0, topic, data, policy, now);
      var parts := Split(topic, '/');
      var prefix := Field(parts, 0);
      if prefix != Str("sensor") && prefix != Str("config") {
        return Ignored;
      }
      var company := Field(parts, 1);
      if !ValidSegment(company) {
        return Failed;
      }
      var tenant := TenantOf(companies, company.s);
      if tenant != Active {
        return Ignored;
      }
      if prefix == Str("config") {
        return Failed;
      }
      status := HandleSensor(company.s, parts, data, policy, now);
    }

    /** The sensor branch once the tenant is known to be active. */
    method HandleSensor(company: string, parts: seq<string>, data: string, policy: Policy, now: int)
      returns (status: Status)
      requires |parts| >= 2 && company == parts[1]
      modifies this, meter
      ensures var r := SensorRoute(company, parts, data, PreviousOf(old(docs), parts), MatchedOf(old(reminders), parts),
                                   policy, now);
              Snapshot() == ApplyAll(old(Snapshot()), r.effects, now) && status == r.status
    {
      ghost var w0 := Snapshot();
      ghost var r := SensorRoute(company, parts, data, PreviousOf(docs, parts), MatchedOf(reminders, parts), policy, now);
      var gedung := Field(parts, 2);
      var gender := Field(parts, 4);
      if !ValidSegment(gender) || !ValidSegment(gedung) {
        assert r == Outcome([], Failed);
        return Failed;
      }
      if |parts| >= 7 {
        assert r == DeviceRoute(company, parts[2], parts[3], parts[4], parts[5], parts[6], data,
                                Lookup(docs, DevicePath(company, parts[2], parts[3], parts[4], parts[5], parts[6])),
                                CountMatching(reminders, parts[2], parts[3], parts[4]), policy, now);
        status := HandleDevice(company, parts[2], parts[3], parts[4], parts[5], parts[6], data, policy, now);
      } else {
        assert r == AggregateRoute(company, parts[2], parts[3], parts[4], Field(parts, 5), data, now);
        status := HandleAggregate(company, parts[2], parts[3], parts[4], Field(parts, 5), data, now);
      }
    }

    /** A per-device message: look up the previous record, merge the new
        fields into it, then log and clear reminders as the type's rules
        say. */
    method HandleDevice(company: string, gedung: string, lokasi: string, gender: string, sensorType: string,
                        nomor: string, data: string, policy: Policy, now: int) returns (status: Status)
      modifies this, meter
      ensures var r := DeviceRoute(company, gedung, lokasi, gender, sensorType, nomor, data,
                                   Lookup(old(docs), DevicePath(company, gedung, lokasi, gender, sensorType, nomor)),
                                   CountMatching(old(reminders), gedung, lokasi, gender), policy, now);
              Snapshot() == ApplyAll(old(Snapshot()), r.effects, now) && status == r.status
    {
      if sensorType == "" {
        return Failed;
      }
      ghost var w0 := Snapshot();
      ghost var matched := CountMatching(reminders, gedung, lokasi, gender);
      var path := DevicePath(company, gedung, lokasi, gender, sensorType, nomor);
      var previous := Lookup(docs, path);
      var lookup := [Metered(company, Usage.Reads, if previous.Some? then 1 else 0)];
      MeterUsage(company, Usage.Reads, if previous.Some? then 1 else 0, now);
      ApplyOne(w0, lookup[0], now);
      ghost var w1 := Snapshot();
      var sent := Write(policy, RecordFields(sensorType, lokasi, data, now));
      if sent.None? {
        return Failed;
      }
      var stored := MeteredWrite(company, Upsert(path, sent.value));
      StoreMetered(company, path, sent.value, now);
      ghost var w2 := Snapshot();
      var prev := PreviousStatus(previous);
      ghost var logged := LogSteps(company, gedung, lokasi, gender, sensorType, nomor, data, prev, now);
      LogMessage(company, gedung, lokasi, gender, sensorType, nomor, data, prev, now);
      ghost var w3 := Snapshot();
      ghost var cleared := VacancySteps(company, gedung, lokasi, gender, sensorType, data, matched);
      ClearReminders(company, gedung, lokasi, gender, sensorType, data, now);
      ApplyAllAppend(w0, lookup, stored, now);
      ApplyAllAppend(w0, lookup + stored, logged, now);
      ApplyAllAppend(w0, lookup + stored + logged, cleared, now);
      status := Done;
    }

    /** The log append of a per-device message and its metered write, when
        the type's rule holds for the previous status. */
    method LogMessage(company: string, gedung: string, lokasi: string, gender: string, sensorType: string,
                      nomor: string, data: string, prev: Value, now: int)
      modifies this, meter
      ensures Snapshot() == ApplyAll(old(Snapshot()), LogSteps(company, gedung, lokasi, gender, sensorType, nomor, data, prev, now), now)
      ensures reminders == old(reminders)
    {
      if sensorType == "okupansi" || sensorType == "bau" {
        if sensorType == "okupansi" || (prev == Str("bad") && data == "good") {
          var entry := map["type" := Str(sensorType), "gedung" := Str(gedung), "lokasi" := Str(lokasi),
                           "gender" := Str(gender), "nomor" := Str(nomor), "status" := Str(data), "timestamp" := Time(now)];
          LogMetered(company, sensorType, entry, now);
        }
      } else {
        var status := Field(Split(data, ';'), 0);
        if (sensorType == "sabun" || sensorType == "tisu") && prev == Str("bad") && status == Str("good") {
          var entry := map["gedung" := Str(gedung), "lokasi" := Str(lokasi), "gender" := Str(gender),
                           "nomor" := Str(nomor), "status" := status, "timestamp" := Time(now)];
          LogMetered(company, sensorType, entry, now);
        }
      }
    }

    /** A `vacant` occupancy message: run the reminder query, meter its
        size as reads, and delete every document it found. */
    method ClearReminders(company: string, gedung: string, lokasi: string, gender: string, sensorType: string,
                          data: string, now: int)
      modifies this, meter
      ensures Snapshot() == ApplyAll(old(Snapshot()),
                                     VacancySteps(company, gedung, lokasi, gender, sensorType, data,
                                                  CountMatching(old(reminders), gedung, lokasi, gender)), now)
    {
      if sensorType == "okupansi" && data == "vacant" {
        ghost var w0 := Snapshot();
        var kept, size := DeleteMatching(reminders, gedung, lokasi, gender);
        MeterUsage(company, Usage.Reads, size, now);
        ghost var w1 := Snapshot();
        reminders := kept;
        assert Snapshot() == Apply(w1, DeleteReminders(gedung, lokasi, gender), now);
        ApplyPair(w0, Metered(company, Usage.Reads, size), DeleteReminders(gedung, lokasi, gender), now);
      }
    }

    /** A message without a 7th topic segment: create the building
        container, upsert the location's aggregate record and log the
        message, each write metered. */
    method HandleAggregate(company: string, gedung: string, lokasi: string, gender: string, sensorType: Value,
                           data: string, now: int) returns (status: Status)
      modifies this, meter
      ensures var r := AggregateRoute(company, gedung, lokasi, gender, sensorType, data, now);
              Snapshot() == ApplyAll(old(Snapshot()), r.effects, now) && status == r.status
    {
      ghost var w0 := Snapshot();
      var building := BuildingPath(company, gedung, gender);
      var made := MeteredWrite(company, Upsert(building, map[]));
      StoreMetered(company, building, map[], now);
      if !ValidSegment(sensorType) {
        return Failed;
      }
      ghost var w1 := Snapshot();
      var path := building + [sensorType.s, AggregateDocId(lokasi, gender)];
      var fields := map["lokasi" := Str(lokasi), "status" := Str(data), "last_updated" := Time(now)];
      var stored := MeteredWrite(company, Upsert(path, fields));
      StoreMetered(company, path, fields, now);
      ghost var w2 := Snapshot();
      var entry := map["lokasi" := Str(lokasi), "gender" := Str(gender), "status" := Str(data), "timestamp" := Time(now)];
      var logged := MeteredWrite(company, AppendLog(company, sensorType.s, entry));
      LogMetered(company, sensorType.s, entry, now);
      ApplyAllAppend(w0, made, stored, now);
      ApplyAllAppend(w0, made + stored, logged, now);
      status := Done;
    }

    /** A merge write of `fields` at `path`, metered as one write. */
    method StoreMetered(company: string, path: seq<string>, fields: Doc, now: int)
      modifies this, meter
      ensures Snapshot() == ApplyAll(old(Snapshot()), MeteredWrite(company, Upsert(path, fields)), now)
      ensures reminders == old(reminders)
    {
      ghost var w0 := Snapshot();
      docs := docs[path := Merge(Lookup(docs, path), fields)];
      assert Snapshot() == Apply(w0, Upsert(path, fields), now);
      MeterUsage(company, Usage.Writes, 1, now);
      ApplyPair(w0, Upsert(path, fields), Metered(company, Usage.Writes, 1), now);
    }

    /** A log append, metered as one write. */
    method LogMetered(company: string, sensorType: string, entry: Doc, now: int)
      modifies this, meter
      ensures Snapshot() == ApplyAll(old(Snapshot()), MeteredWrite(company, AppendLog(company, sensorType, entry)), now)
      ensures reminders == old(reminders)
    {
      ghost var w0 := Snapshot();
      logs := logs + [LogEntry(company, sensorType, entry)];
      assert Snapshot() == Apply(w0, AppendLog(company, sensorType, entry), now);
      MeterUsage(company, Usage.Writes, 1, now);
      ApplyPair(w0, AppendLog(company, sensorType, entry), Metered(company, Usage.Writes, 1), now);
    }

    /** `updateUsageCount` on the server's meter. */
    method MeterUsage(company: string, kind: Usage.Kind, count: int, now: int)
      modifies meter
      ensures Snapshot() == Apply(old(Snapshot()), Metered(company, kind, count), now)
    {
      meter.UpdateUsageCount(company, kind, count, now);
    }

    /** The hourly sweep (index.js:66-77): only the meter changes, as `Sweep`
        says. */
    method HourlySweep(now: int)
      requires Valid()
      modifies meter
      ensures Valid()
      ensures Snapshot() == old(Snapshot()).(meter := Usage.Sweep(old(Snapshot()).meter, now))
    {
      meter.PeriodicFlush(now);
    }
  }
}
