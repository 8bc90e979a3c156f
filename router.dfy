/** The sensor branch of the transport's "message" handler, as the sequence
    of store and meter operations one message causes. `Route` decides that
    sequence from the topic, the payload and what the handler reads from the
    store; `Apply` gives each operation's effect on the world, so a message's
    whole effect is `Handle`. */
module Router {
  import opened Strings
  import opened Documents
  import opened Keys
  import Usage

  /** What the tenant lookup finds. */
  datatype Tenant = Unknown | Deactivated | Active

  /** One operation the handler performs, in the order it performs them. */
  datatype Effect =
    | Upsert(path: seq<string>, fields: Doc)
    | AppendLog(company: string, sensorType: string, entry: Doc)
    | DeleteReminders(gedung: string, lokasi: string, gender: string)
    | Metered(company: string, kind: Usage.Kind, count: int)

  /** `Ignored`: a gate returned early; `Done`: every step ran; `Failed`: a
      step threw and the rest of the message was abandoned. */
  datatype Status = Ignored | Done | Failed

  datatype Outcome = Outcome(effects: seq<Effect>, status: Status)

  /** The effect touches only `company`'s data. The reminder collection is
      shared by all tenants, so a reminder deletion belongs to none. */
  predicate BelongsTo(e: Effect, company: string)
  {
    match e
    case Upsert(path, _) => |path| >= 2 && path[1] == company
    case AppendLog(c, _, _) => c == company
    case Metered(c, _, _) => c == company
    case DeleteReminders(_, _, _) => false
  }

  /** The effect is `company`'s and meters no negative amount. */
  predicate Owned(e: Effect, company: string)
  {
    match e
    case Metered(c, _, n) => c == company && n >= 0
    case _ => BelongsTo(e, company)
  }

  /** What any operation of a per-device message may be: the tenant's own,
      or the deletion of the device location's reminders by a `vacant`
      occupancy message. */
  predicate DeviceStep(e: Effect, company: string, gedung: string, lokasi: string, gender: string, sensorType: string,
                       data: string)
  {
    if e.DeleteReminders? then
      sensorType == "okupansi" && data == "vacant" && e == DeleteReminders(gedung, lokasi, gender)
    else Owned(e, company)
  }

  /** What any operation of a message on topic segments `parts` may be. */
  predicate Step(e: Effect, company: string, parts: seq<string>, data: string)
  {
    if e.DeleteReminders? then
      |parts| >= 7 && parts[5] == "okupansi" && data == "vacant" && e == DeleteReminders(parts[2], parts[3], parts[4])
    else Owned(e, company)
  }

  /** `previousState`: the stored status, or `null` when there is no record. */
  function PreviousStatus(previous: Option<Doc>): Value
  {
    match previous
    case None => Null
    case Some(d) => if "status" in d then d["status"] else Undefined
  }

  /** Store path of a per-device record: collection `sensor`, document
      `company`, collection `gender`, document `gedung`, collection `type`,
      document `gedung_lokasi_gender_nomor`. */
  function DevicePath(company: string, gedung: string, lokasi: string, gender: string, sensorType: string, nomor: string): seq<string>
  {
    ["sensor", company, gender, gedung, sensorType, DeviceDocId(gedung, lokasi, gender, nomor)]
  }

  /** Store path of the building container `sensor/company/gender/gedung`. */
  function BuildingPath(company: string, gedung: string, gender: string): seq<string>
  {
    ["sensor", company, gender, gedung]
  }

  /** The handler for a message on topic segments `parts` with payload
      `data`, given what its lookups find: the tenant, the previous record of
      a per-device message, and the number of matching reminders. */
  function Route(parts: seq<string>, data: string, tenant: Tenant, previous: Option<Doc>, matched: nat,
                 policy: Policy, now: int): (r: Outcome)
    ensures Field(parts, 0) != Str("sensor") && Field(parts, 0) != Str("config") ==> r == Outcome([], Ignored)
    ensures tenant != Active ==> r.effects == []
    ensures Field(parts, 0) == Str("config") ==> r.effects == []
    ensures r.effects != [] ==> Field(parts, 1).Str?
  {
    var prefix := Field(parts, 0);
    if prefix != Str("sensor") && prefix != Str("config") then Outcome([], Ignored)
    else
      var company := Field(parts, 1);
      // `doc(company)` throws on a missing or empty id, outside the try block
      if !ValidSegment(company) then Outcome([], Failed)
      else if tenant != Active then Outcome([], Ignored)
      // the config branch reads `gedung` before its block-scoped declaration
      else if prefix == Str("config") then Outcome([], Failed)
      else SensorRoute(company.s, parts, data, previous, matched, policy, now)
  }

  function SensorRoute(company: string, parts: seq<string>, data: string, previous: Option<Doc>, matched: nat,
                       policy: Policy, now: int): Outcome
  {
    var gedung := Field(parts, 2);
    var gender := Field(parts, 4);
    // building the building reference throws on a missing or empty segment
    if !ValidSegment(gender) || !ValidSegment(gedung) then Outcome([], Failed)
    else if |parts| >= 7 then
      DeviceRoute(company, parts[2], parts[3], parts[4], parts[5], parts[6], data, previous, matched, policy, now)
    else
      AggregateRoute(company, parts[2], parts[3], parts[4], Field(parts, 5), data, now)
  }

  /** A message with a 7th topic segment updates one device's record. */
  function DeviceRoute(company: string, gedung: string, lokasi: string, gender: string, sensorType: string, nomor: string,
                       data: string, previous: Option<Doc>, matched: nat, policy: Policy, now: int): Outcome
  {
    // `collection(type)` throws on an empty type
    if sensorType == "" then Outcome([], Failed)
    else
      var lookup := Metered(company, Usage.Reads, if previous.Some? then 1 else 0);
      match Write(policy, RecordFields(sensorType, lokasi, data, now))
      case None => Outcome([lookup], Failed)
      case Some(sent) =>
        var path := DevicePath(company, gedung, lokasi, gender, sensorType, nomor);
        var stored := [lookup] + MeteredWrite(company, Upsert(path, sent));
        var logged := LogSteps(company, gedung, lokasi, gender, sensorType, nomor, data, PreviousStatus(previous), now);
        var cleared := VacancySteps(company, gedung, lokasi, gender, sensorType, data, matched);
        Outcome(stored + logged + cleared, Done)
  }

  /** The fields the per-device upsert sets. `okupansi` and `bau` payloads are
      `status;nomor`, every other type's `status;amount;nomor`; missing
      fields are `undefined`. */
  function RecordFields(sensorType: string, lokasi: string, data: string, now: int): Doc
  {
    var msg := Split(data, ';');
    if sensorType == "okupansi" || sensorType == "bau" then
      map["lokasi" := Str(lokasi), "nomor" := Field(msg, 1), "status" := Field(msg, 0), "last_updated" := Time(now)]
    else
      map["lokasi" := Str(lokasi), "nomor" := Field(msg, 2), "status" := Field(msg, 0), "amount" := Field(msg, 1),
          "last_updated" := Time(now)]
  }

  /** The log append of a per-device message and its metered write: one of
      each exactly when the type's rule holds. */
  function LogSteps(company: string, gedung: string, lokasi: string, gender: string, sensorType: string, nomor: string,
                    data: string, prev: Value, now: int): seq<Effect>
  {
    if sensorType == "okupansi" || sensorType == "bau" then
      if sensorType == "okupansi" || (prev == Str("bad") && data == "good") then
        var entry := map["type" := Str(sensorType), "gedung" := Str(gedung), "lokasi" := Str(lokasi),
                         "gender" := Str(gender), "nomor" := Str(nomor), "status" := Str(data), "timestamp" := Time(now)];
        MeteredWrite(company, AppendLog(company, sensorType, entry))
      else []
    else
      var status := Field(Split(data, ';'), 0);
      if (sensorType == "sabun" || sensorType == "tisu") && prev == Str("bad") && status == Str("good") then
        var entry := map["gedung" := Str(gedung), "lokasi" := Str(lokasi), "gender" := Str(gender),
                         "nomor" := Str(nomor), "status" := status, "timestamp" := Time(now)];
        MeteredWrite(company, AppendLog(company, sensorType, entry))
      else []
  }

  /** The reminder query's metered read and the deletion of its result, for
      an occupancy message whose whole payload is `vacant`. */
  function VacancySteps(company: string, gedung: string, lokasi: string, gender: string, sensorType: string,
                        data: string, matched: nat): (r: seq<Effect>)
  {
    if sensorType == "okupansi" && data == "vacant" then
      var query := Metered(company, Usage.Reads, matched);
      var delete := DeleteReminders(gedung, lokasi, gender);
      [query, delete]
    else []
  }

  /** A store write followed by the one metered write it costs. */
  function MeteredWrite(company: string, write: Effect): (r: seq<Effect>)
    requires write.Upsert? || write.AppendLog?
  {
    var meter := Metered(company, Usage.Writes, 1);
    [write, meter]
  }

  /** A message without a 7th topic segment updates the location's aggregate
      record, unconditionally. */
  function AggregateRoute(company: string, gedung: string, lokasi: string, gender: string, sensorType: Value,
                          data: string, now: int): (r: Outcome)
  {
    var made := MeteredWrite(company, Upsert(BuildingPath(company, gedung, gender), map[]));
    // `collection(type)` throws on a missing or empty type
    if !ValidSegment(sensorType) then Outcome(made, Failed)
    else
      var path := BuildingPath(company, gedung, gender) + [sensorType.s, AggregateDocId(lokasi, gender)];
      var fields := map["lokasi" := Str(lokasi), "status" := Str(data), "last_updated" := Time(now)];
      var entry := map["lokasi" := Str(lokasi), "gender" := Str(gender), "status" := Str(data), "timestamp" := Time(now)];
      Outcome(made + MeteredWrite(company, Upsert(path, fields)) + MeteredWrite(company, AppendLog(company, sensorType.s, entry)),
              Done)
  }

  /** A per-device message is its lookup, then either nothing more, or its
      record's upsert and metered write followed by the log and vacancy
      steps. */
  lemma DeviceShape(company: string, gedung: string, lokasi: string, gender: string, sensorType: string, nomor: string,
                    data: string, previous: Option<Doc>, matched: nat, policy: Policy, now: int)
    requires sensorType != ""
    ensures var r := DeviceRoute(company, gedung, lokasi, gender, sensorType, nomor, data, previous, matched, policy, now);
            var sent := Write(policy, RecordFields(sensorType, lokasi, data, now));
            var lookup := Metered(company, Usage.Reads, if previous.Some? then 1 else 0);
            (r.status == Done <==> sent.Some?) &&
            (sent.None? ==> r.effects == [lookup]) &&
            (sent.Some? ==>
               r.effects == [lookup, Upsert(DevicePath(company, gedung, lokasi, gender, sensorType, nomor), sent.value),
                             Metered(company, Usage.Writes, 1)] +
                            (LogSteps(company, gedung, lokasi, gender, sensorType, nomor, data, PreviousStatus(previous), now) +
                             VacancySteps(company, gedung, lokasi, gender, sensorType, data, matched)))
  {
    var r := DeviceRoute(company, gedung, lokasi, gender, sensorType, nomor, data, previous, matched, policy, now);
    var sent := Write(policy, RecordFields(sensorType, lokasi, data, now));
    if sent.Some? {
      var lookup := Metered(company, Usage.Reads, if previous.Some? then 1 else 0);
      var head := [lookup] + MeteredWrite(company, Upsert(DevicePath(company, gedung, lokasi, gender, sensorType, nomor), sent.value));
      var logs := LogSteps(company, gedung, lokasi, gender, sensorType, nomor, data, PreviousStatus(previous), now);
      var vacancy := VacancySteps(company, gedung, lokasi, gender, sensorType, data, matched);
      assert r.effects == head + logs + vacancy;
      assert head + logs + vacancy == head + (logs + vacancy);
    }
  }

  /** The log steps append and meter for the tenant alone. */
  lemma LogStepsOwned(company: string, gedung: string, lokasi: string, gender: string, sensorType: string, nomor: string,
                      data: string, prev: Value, now: int)
    ensures forall e :: e in LogSteps(company, gedung, lokasi, gender, sensorType, nomor, data, prev, now) ==>
                          (e.AppendLog? || e.Metered?) && Owned(e, company)
  {
  }

  /** The vacancy steps are the reminder query's metered read and the
      location's reminder deletion, and they happen exactly for a `vacant`
      occupancy message. */
  lemma VacancyStepsShape(company: string, gedung: string, lokasi: string, gender: string, sensorType: string,
                          data: string, matched: nat)
    ensures var r := VacancySteps(company, gedung, lokasi, gender, sensorType, data, matched);
            (forall e :: e in r ==> e == Metered(company, Usage.Reads, matched) || e == DeleteReminders(gedung, lokasi, gender)) &&
            (r != [] <==> sensorType == "okupansi" && data == "vacant")
  {
  }

  /** Every operation of a per-device message is the tenant's own, or the
      deletion of its location's reminders by a `vacant` occupancy message. */
  lemma DeviceSteps(company: string, gedung: string, lokasi: string, gender: string, sensorType: string, nomor: string,
                    data: string, previous: Option<Doc>, matched: nat, policy: Policy, now: int)
    ensures var r := DeviceRoute(company, gedung, lokasi, gender, sensorType, nomor, data, previous, matched, policy, now);
            forall e :: e in r.effects ==> DeviceStep(e, company, gedung, lokasi, gender, sensorType, data)
  {
    if sensorType != "" {
      DeviceShape(company, gedung, lokasi, gender, sensorType, nomor, data, previous, matched, policy, now);
      var sent := Write(policy, RecordFields(sensorType, lokasi, data, now));
      if sent.Some? {
        DoneSteps(company, gedung, lokasi, gender, sensorType, nomor, data, previous, matched, sent.value, now);
      }
    }
  }

  lemma DoneSteps(company: string, gedung: string, lokasi: string, gender: string, sensorType: string, nomor: string,
                  data: string, previous: Option<Doc>, matched: nat, sent: Doc, now: int)
    ensures forall e :: e in [Metered(company, Usage.Reads, if previous.Some? then 1 else 0),
                              Upsert(DevicePath(company, gedung, lokasi, gender, sensorType, nomor), sent),
                              Metered(company, Usage.Writes, 1)] +
                             (LogSteps(company, gedung, lokasi, gender, sensorType, nomor, data, PreviousStatus(previous), now) +
                              VacancySteps(company, gedung, lokasi, gender, sensorType, data, matched)) ==>
                          DeviceStep(e, company, gedung, lokasi, gender, sensorType, data)
  {
    var logs := LogSteps(company, gedung, lokasi, gender, sensorType, nomor, data, PreviousStatus(previous), now);
    var vacancy := VacancySteps(company, gedung, lokasi, gender, sensorType, data, matched);
    LogStepsOwned(company, gedung, lokasi, gender, sensorType, nomor, data, PreviousStatus(previous), now);
    VacancyStepsShape(company, gedung, lokasi, gender, sensorType, data, matched);
    assert forall e :: e in logs + vacancy ==> DeviceStep(e, company, gedung, lokasi, gender, sensorType, data);
  }

  /** Every operation of an aggregate message is the tenant's own, and none
      deletes reminders. */
  lemma AggregateSteps(company: string, gedung: string, lokasi: string, gender: string, sensorType: Value,
                       data: string, now: int)
    ensures forall e :: e in AggregateRoute(company, gedung, lokasi, gender, sensorType, data, now).effects ==>
                          !e.DeleteReminders? && Owned(e, company)
  {
  }

  /** Tenant isolation: every operation of a message belongs to the tenant its
      topic names and meters no negative amount, except the deletion of the
      topic location's reminders by a `vacant` per-device occupancy message. */
  lemma RouteSteps(parts: seq<string>, data: string, tenant: Tenant, previous: Option<Doc>, matched: nat,
                   policy: Policy, now: int)
    ensures forall e :: e in Route(parts, data, tenant, previous, matched, policy, now).effects ==>
                          Step(e, Field(parts, 1).s, parts, data)
  {
    var r := Route(parts, data, tenant, previous, matched, policy, now);
    if r.effects != [] {
      var company := parts[1];
      if |parts| >= 7 {
        assert r == DeviceRoute(company, parts[2], parts[3], parts[4], parts[5], parts[6], data, previous, matched, policy, now);
        DeviceSteps(company, parts[2], parts[3], parts[4], parts[5], parts[6], data, previous, matched, policy, now);
      } else {
        assert r == AggregateRoute(company, parts[2], parts[3], parts[4], Field(parts, 5), data, now);
        AggregateSteps(company, parts[2], parts[3], parts[4], Field(parts, 5), data, now);
      }
    }
  }

  /** Only a completed `vacant` per-device occupancy message deletes
      reminders. */
  lemma RouteDeletes(parts: seq<string>, data: string, tenant: Tenant, previous: Option<Doc>, matched: nat,
                     policy: Policy, now: int)
    ensures var r := Route(parts, data, tenant, previous, matched, policy, now);
            (forall e :: e in r.effects ==> !e.DeleteReminders?) ||
            (r.status == Done && |parts| >= 7 && parts[5] == "okupansi" && data == "vacant")
  {
    var r := Route(parts, data, tenant, previous, matched, policy, now);
    RouteSteps(parts, data, tenant, previous, matched, policy, now);
    if r.effects != [] && |parts| >= 7 && parts[5] == "okupansi" {
      assert r == DeviceRoute(parts[1], parts[2], parts[3], parts[4], parts[5], parts[6], data, previous, matched, policy, now);
      DeviceShape(parts[1], parts[2], parts[3], parts[4], parts[5], parts[6], data, previous, matched, policy, now);
    }
  }

  // ---------------------------------------------------------------------
  // Counting what a message stores and meters

  /** What can be counted in a sequence of operations: record upserts, log
      appends, reminder deletions, and the amounts metered as reads and as
      writes. */
  datatype Measure = Upserts | Logs | Deletes | MeteredReads | MeteredWrites

  function Weight(e: Effect, m: Measure): int
  {
    match m
    case Upserts => if e.Upsert? then 1 else 0
    case Logs => if e.AppendLog? then 1 else 0
    case Deletes => if e.DeleteReminders? then 1 else 0
    case MeteredReads => if e.Metered? && e.kind == Usage.Reads then e.count else 0
    case MeteredWrites => if e.Metered? && e.kind == Usage.Writes then e.count else 0
  }

  function Count(es: seq<Effect>, m: Measure): int
    decreases |es|
  {
    if es == [] then 0 else Weight(es[0], m) + Count(es[1..], m)
  }

  /** Counting distributes over concatenation. */
  lemma {:induction false} CountAppend(a: seq<Effect>, b: seq<Effect>, m: Measure)
    ensures Count(a + b, m) == Count(a, m) + Count(b, m)
    decreases |a|
  {
    if a == [] {
      assert a + b == b;
    } else {
      assert (a + b)[0] == a[0];
      assert (a + b)[1..] == a[1..] + b;
      CountAppend(a[1..], b, m);
    }
  }

  lemma CountTriple(x: Effect, y: Effect, z: Effect, m: Measure)
    ensures Count([x, y, z], m) == Weight(x, m) + Weight(y, m) + Weight(z, m)
  {
    assert [x, y, z][1..] == [y, z];
    CountPair(y, z, m);
  }

  lemma CountSplit(x: Effect, y: Effect, z: Effect, a: seq<Effect>, b: seq<Effect>, m: Measure)
    ensures Count([x, y, z] + (a + b), m) == Weight(x, m) + Weight(y, m) + Weight(z, m) + Count(a, m) + Count(b, m)
  {
    CountAppend([x, y, z], a + b, m);
    CountAppend(a, b, m);
    CountTriple(x, y, z, m);
  }

  lemma CountPair(x: Effect, y: Effect, m: Measure)
    ensures Count([x, y], m) == Weight(x, m) + Weight(y, m)
  {
    assert [x, y][1..] == [y];
    assert [y][1..] == [];
    assert Count([y], m) == Weight(y, m) + Count([], m);
  }

  /** Operations whose count of log appends is zero hold no log append. */
  lemma {:induction false} NoLogsAppended(es: seq<Effect>)
    requires Count(es, Logs) == 0
    ensures forall e :: e in es ==> !e.AppendLog?
    decreases |es|
  {
    if es != [] {
      LogsNonNegative(es[1..]);
      NoLogsAppended(es[1..]);
      assert es == [es[0]] + es[1..];
    }
  }

  lemma {:induction false} LogsNonNegative(es: seq<Effect>)
    ensures Count(es, Logs) >= 0
    decreases |es|
  {
    if es != [] {
      LogsNonNegative(es[1..]);
    }
  }

  /** A metered write counts as its store write plus one metered write. */
  lemma MeteredWriteCount(company: string, write: Effect, m: Measure)
    requires write.Upsert? || write.AppendLog?
    ensures Count(MeteredWrite(company, write), m) == Weight(write, m) + (if m == MeteredWrites then 1 else 0)
  {
    CountPair(write, Metered(company, Usage.Writes, 1), m);
  }

  /** The log rule: a per-device message's log steps append one entry and
      meter one write exactly when the type's rule holds, and nothing else. */
  lemma LogStepsCount(company: string, gedung: string, lokasi: string, gender: string, sensorType: string, nomor: string,
                      data: string, prev: Value, now: int, m: Measure)
    ensures Count(LogSteps(company, gedung, lokasi, gender, sensorType, nomor, data, prev, now), m) ==
            if LogRule(sensorType, prev, data) && (m == Logs || m == MeteredWrites) then 1 else 0
  {
    if sensorType == "okupansi" || sensorType == "bau" {
      var entry := map["type" := Str(sensorType), "gedung" := Str(gedung), "lokasi" := Str(lokasi),
                       "gender" := Str(gender), "nomor" := Str(nomor), "status" := Str(data), "timestamp" := Time(now)];
      MeteredWriteCount(company, AppendLog(company, sensorType, entry), m);
    } else {
      var status := Field(Split(data, ';'), 0);
      assert status == Str(FirstField(data));
      var entry := map["gedung" := Str(gedung), "lokasi" := Str(lokasi), "gender" := Str(gender),
                       "nomor" := Str(nomor), "status" := status, "timestamp" := Time(now)];
      MeteredWriteCount(company, AppendLog(company, sensorType, entry), m);
    }
  }

  /** The vacancy steps delete once and meter the matching reminders as
      reads, for a `vacant` occupancy message only. */
  lemma VacancyStepsCount(company: string, gedung: string, lokasi: string, gender: string, sensorType: string,
                          data: string, matched: nat, m: Measure)
    ensures Count(VacancySteps(company, gedung, lokasi, gender, sensorType, data, matched), m) ==
            if !(sensorType == "okupansi" && data == "vacant") then 0
            else if m == Deletes then 1
            else if m == MeteredReads then matched
            else 0
  {
    if sensorType == "okupansi" && data == "vacant" {
      CountPair(Metered(company, Usage.Reads, matched), DeleteReminders(gedung, lokasi, gender), m);
    }
  }

  // ---------------------------------------------------------------------
  // The per-type rules, stated against independent definitions

  /** The topic passes the prefix and tenant gates and names a gender and a
      building the store accepts. */
  predicate PassesGates(parts: seq<string>, tenant: Tenant)
  {
    |parts| >= 5 && parts[0] == "sensor" && parts[1] != "" && tenant == Active && parts[2] != "" && parts[4] != ""
  }

  /** The payload's first `;`-field, the stored `status`. */
  function FirstField(data: string): string
  {
    Split(data, ';')[0]
  }

  /** The payload has fewer `;`-fields than the type's record lists:
      `status;nomor` for `okupansi` and `bau`, `status;amount;nomor` otherwise. */
  predicate PayloadShort(sensorType: string, data: string)
  {
    |Split(data, ';')| < if sensorType == "okupansi" || sensorType == "bau" then 2 else 3
  }

  /** Which per-device messages are logged, as a table by type. */
  predicate LogRule(sensorType: string, prev: Value, data: string)
  {
    match sensorType
    case "okupansi" => true
    case "bau" => prev == Str("bad") && data == "good"
    case "sabun" => prev == Str("bad") && FirstField(data) == "good"
    case "tisu" => prev == Str("bad") && FirstField(data) == "good"
    case _ => false
  }

  /** The per-device upsert holds an `undefined` field exactly when the
      payload is short of the type's fields. */
  lemma RecordFieldsUndefined(sensorType: string, lokasi: string, data: string, now: int)
    ensures HasUndefined(RecordFields(sensorType, lokasi, data, now)) <==> PayloadShort(sensorType, data)
  {
    var fields := RecordFields(sensorType, lokasi, data, now);
    if PayloadShort(sensorType, data) {
      assert fields["nomor"] == Undefined;
    } else {
      forall k | k in fields ensures fields[k] != Undefined {
      }
    }
  }

  /** The per-device upsert always sets the location and, as `status`, the
      payload's first field. */
  lemma RecordFieldsStatus(sensorType: string, lokasi: string, data: string, now: int)
    ensures var fields := RecordFields(sensorType, lokasi, data, now);
            "lokasi" in fields && fields["lokasi"] == Str(lokasi) &&
            "status" in fields && fields["status"] == Str(FirstField(data))
  {
  }

  /** A gated message with a 7th topic segment takes the per-device path. */
  lemma RouteDevice(parts: seq<string>, data: string, previous: Option<Doc>, matched: nat, policy: Policy, now: int)
    requires PassesGates(parts, Active) && |parts| >= 7
    ensures Route(parts, data, Active, previous, matched, policy, now) ==
            DeviceRoute(parts[1], parts[2], parts[3], parts[4], parts[5], parts[6], data, previous, matched, policy, now)
  {
  }

  /** A per-device message: the lookup is metered first, as one read if the
      record exists and none if not; with the default store a payload short
      of the type's fields makes the upsert throw, after which nothing else
      happens; otherwise the record is upserted at its device key with the
      payload's first field as its status, and the message completes. */
  lemma DeviceMessage(parts: seq<string>, data: string, previous: Option<Doc>, matched: nat, policy: Policy, now: int)
    requires PassesGates(parts, Active) && |parts| >= 7 && parts[5] != ""
    ensures var r := Route(parts, data, Active, previous, matched, policy, now);
            |r.effects| >= 1 && r.effects[0] == Metered(parts[1], Usage.Reads, if previous.Some? then 1 else 0) &&
            r.status != Ignored &&
            (r.status == Failed <==> policy == RejectUndefined && PayloadShort(parts[5], data)) &&
            (r.status == Failed ==> |r.effects| == 1) &&
            (r.status == Done ==> |r.effects| >= 3 && r.effects[1].Upsert? &&
                                  r.effects[1].path == DevicePath(parts[1], parts[2], parts[3], parts[4], parts[5], parts[6]) &&
                                  "status" in r.effects[1].fields && r.effects[1].fields["status"] == Str(FirstField(data)))
  {
    RouteDevice(parts, data, previous, matched, policy, now);
    DeviceShape(parts[1], parts[2], parts[3], parts[4], parts[5], parts[6], data, previous, matched, policy, now);
    RecordFieldsUndefined(parts[5], parts[3], data, now);
    RecordFieldsStatus(parts[5], parts[3], data, now);
  }

  /** What a per-device message stores and meters. When it completes: one
      upsert and one metered write for the record; one log append and one
      metered write exactly when the type's log rule holds for the previous
      status; one reminder deletion, with the matching reminders metered as
      reads, exactly for an occupancy message whose whole payload is
      `vacant`. When it fails, only the lookup's read is metered. */
  lemma DeviceCounts(parts: seq<string>, data: string, previous: Option<Doc>, matched: nat, policy: Policy, now: int)
    requires PassesGates(parts, Active) && |parts| >= 7 && parts[5] != ""
    ensures var r := Route(parts, data, Active, previous, matched, policy, now);
            var done := r.status == Done;
            var logged := done && LogRule(parts[5], PreviousStatus(previous), data);
            var vacant := done && parts[5] == "okupansi" && data == "vacant";
            Count(r.effects, Upserts) == (if done then 1 else 0) &&
            Count(r.effects, Logs) == (if logged then 1 else 0) &&
            Count(r.effects, Deletes) == (if vacant then 1 else 0) &&
            Count(r.effects, MeteredReads) == (if previous.Some? then 1 else 0) + (if vacant then matched else 0) &&
            Count(r.effects, MeteredWrites) == (if done then 1 else 0) + (if logged then 1 else 0)
  {
    RouteDevice(parts, data, previous, matched, policy, now);
    forall m: Measure {
      DeviceRouteCount(parts[1], parts[2], parts[3], parts[4], parts[5], parts[6], data, previous, matched, policy, now, m);
    }
  }

  /** The amount of measure `m` in a per-device message that completed or
      not (`done`), whose type's log rule held or not, that was a vacancy or
      not, whose record was found or not, with `matched` reminders. */
  function DeviceTally(done: bool, logRule: bool, vacancy: bool, found: bool, matched: nat, m: Measure): int
  {
    match m
    case Upserts => if done then 1 else 0
    case Logs => if done && logRule then 1 else 0
    case Deletes => if done && vacancy then 1 else 0
    case MeteredReads => (if found then 1 else 0) + (if done && vacancy then matched else 0)
    case MeteredWrites => (if done then 1 else 0) + (if done && logRule then 1 else 0)
  }

  lemma DeviceRouteCount(company: string, gedung: string, lokasi: string, gender: string, sensorType: string, nomor: string,
                         data: string, previous: Option<Doc>, matched: nat, policy: Policy, now: int, m: Measure)
    requires sensorType != ""
    ensures var r := DeviceRoute(company, gedung, lokasi, gender, sensorType, nomor, data, previous, matched, policy, now);
            Count(r.effects, m) ==
            DeviceTally(r.status == Done, LogRule(sensorType, PreviousStatus(previous), data),
                        sensorType == "okupansi" && data == "vacant", previous.Some?, matched, m)
  {
    var lookup := Metered(company, Usage.Reads, if previous.Some? then 1 else 0);
    var sent := Write(policy, RecordFields(sensorType, lokasi, data, now));
    DeviceShape(company, gedung, lokasi, gender, sensorType, nomor, data, previous, matched, policy, now);
    if sent.Some? {
      DoneCount(company, gedung, lokasi, gender, sensorType, nomor, data, previous, matched, sent.value, now, m);
    } else {
      assert [lookup][1..] == [];
    }
  }

  /** The count of a completed per-device message, from its operations. */
  lemma DoneCount(company: string, gedung: string, lokasi: string, gender: string, sensorType: string, nomor: string,
                  data: string, previous: Option<Doc>, matched: nat, sent: Doc, now: int, m: Measure)
    ensures Count([Metered(company, Usage.Reads, if previous.Some? then 1 else 0),
                   Upsert(DevicePath(company, gedung, lokasi, gender, sensorType, nomor), sent),
                   Metered(company, Usage.Writes, 1)] +
                  (LogSteps(company, gedung, lokasi, gender, sensorType, nomor, data, PreviousStatus(previous), now) +
                   VacancySteps(company, gedung, lokasi, gender, sensorType, data, matched)), m) ==
            DeviceTally(true, LogRule(sensorType, PreviousStatus(previous), data),
                        sensorType == "okupansi" && data == "vacant", previous.Some?, matched, m)
  {
    var lookup := Metered(company, Usage.Reads, if previous.Some? then 1 else 0);
    var write := Upsert(DevicePath(company, gedung, lokasi, gender, sensorType, nomor), sent);
    var logs := LogSteps(company, gedung, lokasi, gender, sensorType, nomor, data, PreviousStatus(previous), now);
    var vacancy := VacancySteps(company, gedung, lokasi, gender, sensorType, data, matched);
    CountSplit(lookup, write, Metered(company, Usage.Writes, 1), logs, vacancy, m);
    LogStepsCount(company, gedung, lokasi, gender, sensorType, nomor, data, PreviousStatus(previous), now, m);
    VacancyStepsCount(company, gedung, lokasi, gender, sensorType, data, matched, m);
  }

  /** The aggregate path: without a 7th topic segment the handler writes the
      building container, then, if the type names a collection, the
      location record and a log entry, each metered as one write. It reads
      nothing and deletes nothing. */
  lemma AggregateMessage(parts: seq<string>, data: string, previous: Option<Doc>, matched: nat, policy: Policy, now: int)
    requires PassesGates(parts, Active) && |parts| < 7
    ensures var r := Route(parts, data, Active, previous, matched, policy, now);
            var complete := |parts| == 6 && parts[5] != "";
            |r.effects| >= 2 && r.effects[0] == Upsert(BuildingPath(parts[1], parts[2], parts[4]), map[]) &&
            (r.status == Done <==> complete) && (r.status != Done ==> r.status == Failed) &&
            (complete ==>
               |r.effects| >= 3 &&
               r.effects[2] == Upsert(BuildingPath(parts[1], parts[2], parts[4]) + [parts[5], AggregateDocId(parts[3], parts[4])],
                                      map["lokasi" := Str(parts[3]), "status" := Str(data), "last_updated" := Time(now)]))
  {
    assert Route(parts, data, Active, previous, matched, policy, now) ==
           AggregateRoute(parts[1], parts[2], parts[3], parts[4], Field(parts, 5), data, now);
  }

  /** What the aggregate path stores and meters: a completed message makes
      three store writes (two upserts and a log append) metered as three
      writes, a failed one the container's upsert and its metered write. */
  lemma AggregateCounts(parts: seq<string>, data: string, previous: Option<Doc>, matched: nat, policy: Policy, now: int)
    requires PassesGates(parts, Active) && |parts| < 7
    ensures var r := Route(parts, data, Active, previous, matched, policy, now);
            var complete := |parts| == 6 && parts[5] != "";
            Count(r.effects, Upserts) == (if complete then 2 else 1) &&
            Count(r.effects, Logs) == (if complete then 1 else 0) &&
            Count(r.effects, Deletes) == 0 && Count(r.effects, MeteredReads) == 0 &&
            Count(r.effects, MeteredWrites) == (if complete then 3 else 1)
  {
    assert Route(parts, data, Active, previous, matched, policy, now) ==
           AggregateRoute(parts[1], parts[2], parts[3], parts[4], Field(parts, 5), data, now);
    AggregateRouteCounts(parts[1], parts[2], parts[3], parts[4], Field(parts, 5), data, now);
  }

  lemma AggregateRouteCounts(company: string, gedung: string, lokasi: string, gender: string, sensorType: Value,
                             data: string, now: int)
    ensures var r := AggregateRoute(company, gedung, lokasi, gender, sensorType, data, now);
            var complete := ValidSegment(sensorType);
            Count(r.effects, Upserts) == (if complete then 2 else 1) &&
            Count(r.effects, Logs) == (if complete then 1 else 0) &&
            Count(r.effects, Deletes) == 0 && Count(r.effects, MeteredReads) == 0 &&
            Count(r.effects, MeteredWrites) == (if complete then 3 else 1)
  {
    var r := AggregateRoute(company, gedung, lokasi, gender, sensorType, data, now);
    var container := Upsert(BuildingPath(company, gedung, gender), map[]);
    var made := MeteredWrite(company, container);
    forall m: Measure {
      MeteredWriteCount(company, container, m);
    }
    if ValidSegment(sensorType) {
      var path := BuildingPath(company, gedung, gender) + [sensorType.s, AggregateDocId(lokasi, gender)];
      var fields := map["lokasi" := Str(lokasi), "status" := Str(data), "last_updated" := Time(now)];
      var entry := map["lokasi" := Str(lokasi), "gender" := Str(gender), "status" := Str(data), "timestamp" := Time(now)];
      var record := MeteredWrite(company, Upsert(path, fields));
      var log := MeteredWrite(company, AppendLog(company, sensorType.s, entry));
      assert r.effects == made + record + log;
      forall m: Measure
        ensures Count(r.effects, m) == Count(made, m) + Count(record, m) + Count(log, m)
      {
        CountAppend(made, record, m);
        CountAppend(made + record, log, m);
        MeteredWriteCount(company, Upsert(path, fields), m);
        MeteredWriteCount(company, AppendLog(company, sensorType.s, entry), m);
      }
    }
  }

  /** The aggregate path depends neither on what the lookups would find nor
      on the store's treatment of `undefined`. */
  lemma AggregateIndependent(parts: seq<string>, data: string, p1: Option<Doc>, m1: nat, policy1: Policy,
                             p2: Option<Doc>, m2: nat, policy2: Policy, now: int)
    requires |parts| < 7
    ensures Route(parts, data, Active, p1, m1, policy1, now) == Route(parts, data, Active, p2, m2, policy2, now)
  {
  }

  /** Every store write of a message is metered as exactly one write, and a
      message that does not pass the gates does nothing at all. */
  lemma EveryWriteMetered(parts: seq<string>, data: string, tenant: Tenant, previous: Option<Doc>, matched: nat,
                          policy: Policy, now: int)
    ensures var r := Route(parts, data, tenant, previous, matched, policy, now);
            Count(r.effects, MeteredWrites) == Count(r.effects, Upserts) + Count(r.effects, Logs) &&
            (!PassesGates(parts, tenant) ==> r.effects == [])
  {
    if PassesGates(parts, tenant) {
      if |parts| >= 7 {
        if parts[5] != "" {
          DeviceCounts(parts, data, previous, matched, policy, now);
        } else {
          RouteDevice(parts, data, previous, matched, policy, now);
        }
      } else {
        AggregateCounts(parts, data, previous, matched, policy, now);
      }
    }
  }

  /** The worked example: the segments of topic
      `sensor/acme/b1/l2/pria/okupansi/7` name device `b1_l2_pria_7` of
      building `b1`, and a completed message upserts its record there. */
  lemma ExampleDeviceTopic(data: string, previous: Option<Doc>, matched: nat, policy: Policy, now: int)
    ensures var r := Route(["sensor", "acme", "b1", "l2", "pria", "okupansi", "7"], data, Active, previous, matched, policy, now);
            r.status == Done ==> r.effects[1].Upsert? && r.effects[1].path == ["sensor", "acme", "pria", "b1", "okupansi", "b1_l2_pria_7"]
  {
    var parts := ["sensor", "acme", "b1", "l2", "pria", "okupansi", "7"];
    assert |parts| == 7 && parts[1] == "acme" && parts[2] == "b1" && parts[3] == "l2" && parts[4] == "pria" &&
           parts[5] == "okupansi" && parts[6] == "7";
    assert PassesGates(parts, Active);
    DeviceMessage(parts, data, previous, matched, policy, now);
    assert DeviceDocId("b1", "l2", "pria", "7") == "b1_l2_pria_7";
    assert DevicePath("acme", "b1", "l2", "pria", "okupansi", "7") == ["sensor", "acme", "pria", "b1", "okupansi", "b1_l2_pria_7"];
  }

  /** The id template does not separate its segments: a location or number
      holding `_pria_` lets two different devices of one building and gender
      share one record, so `DeviceDocIdInjective` needs underscore-free
      segments. */
  lemma SharedDeviceRecord()
    ensures ("l2_pria_3", "7") != ("l2", "3_pria_7")
    ensures DeviceDocId("b1", "l2_pria_3", "pria", "7") == DeviceDocId("b1", "l2", "pria", "3_pria_7") == "b1_l2_pria_3_pria_7"
    ensures DevicePath("acme", "b1", "l2_pria_3", "pria", "okupansi", "7") == DevicePath("acme", "b1", "l2", "pria", "okupansi", "3_pria_7")
  {
  }
}
