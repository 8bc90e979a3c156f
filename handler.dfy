/** The message handler against the world it changes: the tenant directory,
    the sensor records, the logs, the reminders and the usage meter. `Plan`
    reads what the handler's lookups would find and decides the message's
    operations; `Handle` applies them in order. */
module Handler {
  import opened Strings
  import opened Documents
  import opened Keys
  import Usage
  import opened Router

  /** One appended log document, under `logs/company/type`. */
  datatype LogEntry = LogEntry(company: string, sensorType: string, entry: Doc)

  /** Everything a message can read or change. Documents are addressed by
      their path of collection and document ids. */
  datatype World = World(companies: map<string, Doc>, docs: map<seq<string>, Doc>, logs: seq<LogEntry>,
                         reminders: seq<Doc>, meter: Usage.Meter)

  function Lookup(docs: map<seq<string>, Doc>, path: seq<string>): (r: Option<Doc>)
    ensures r.Some? <==> path in docs
    ensures r.Some? ==> r.value == docs[path]
  {
    if path in docs then Some(docs[path]) else None
  }

  /** The effect of one operation. */
  function Apply(w: World, e: Effect, now: int): World
  {
    match e
    case Upsert(path, fields) => w.(docs := w.docs[path := Merge(Lookup(w.docs, path), fields)])
    case AppendLog(c, t, entry) => w.(logs := w.logs + [LogEntry(c, t, entry)])
    case DeleteReminders(g, l, gd) => w.(reminders := RemoveMatching(w.reminders, g, l, gd))
    case Metered(c, kind, n) => w.(meter := Usage.Record(w.meter, c, kind, n, now))
  }

  /** The log entries a sequence of operations appends, in order. */
  function Appended(es: seq<Effect>): (r: seq<LogEntry>)
    ensures |r| == 0 <==> forall e :: e in es ==> !e.AppendLog?
    decreases |es|
  {
    if es == [] then []
    else
      var init := es[..|es| - 1];
      var e := es[|es| - 1];
      assert es == init + [e];
      if e.AppendLog? then Appended(init) + [LogEntry(e.company, e.sensorType, e.entry)] else Appended(init)
  }

  /** The operations applied one after the other. The tenant directory is
      never changed, and the logs grow by the appended entries alone. */
  function ApplyAll(w: World, es: seq<Effect>, now: int): (r: World)
    ensures r.companies == w.companies
    ensures r.logs == w.logs + Appended(es)
    decreases |es|
  {
    if es == [] then w
    else
      var init := es[..|es| - 1];
      assert es == init + [es[|es| - 1]];
      Apply(ApplyAll(w, init, now), es[|es| - 1], now)
  }

  /** Only upserts change the documents. */
  lemma {:induction false} DocsFrame(w: World, es: seq<Effect>, now: int)
    requires forall e :: e in es ==> !e.Upsert?
    ensures ApplyAll(w, es, now).docs == w.docs
    decreases |es|
  {
    if es != [] {
      var init := es[..|es| - 1];
      assert es == init + [es[|es| - 1]];
      assert es[|es| - 1] in es && forall x :: x in init ==> x in es;
      DocsFrame(w, init, now);
    }
  }

  /** Only reminder deletions change the reminders. */
  lemma {:induction false} RemindersFrame(w: World, es: seq<Effect>, now: int)
    requires forall e :: e in es ==> !e.DeleteReminders?
    ensures ApplyAll(w, es, now).reminders == w.reminders
    decreases |es|
  {
    if es != [] {
      var init := es[..|es| - 1];
      assert es == init + [es[|es| - 1]];
      assert es[|es| - 1] in es && forall x :: x in init ==> x in es;
      RemindersFrame(w, init, now);
    }
  }

  /** Only meterings change the usage meter. */
  lemma {:induction false} MeterFrame(w: World, es: seq<Effect>, now: int)
    requires forall e :: e in es ==> !e.Metered?
    ensures ApplyAll(w, es, now).meter == w.meter
    decreases |es|
  {
    if es != [] {
      var init := es[..|es| - 1];
      assert es == init + [es[|es| - 1]];
      assert es[|es| - 1] in es && forall x :: x in init ==> x in es;
      MeterFrame(w, init, now);
    }
  }

  /** Metering non-negative amounts keeps the meter well formed and every
      tenant below the threshold. */
  lemma {:induction false} ApplyAllKeepsMeter(w: World, es: seq<Effect>, now: int)
    ensures Usage.WellFormed(w.meter) ==> Usage.WellFormed(ApplyAll(w, es, now).meter)
    ensures Usage.Bounded(w.meter) && (forall e :: e in es && e.Metered? ==> e.count >= 0) ==>
            Usage.Bounded(ApplyAll(w, es, now).meter)
    decreases |es|
  {
    if es != [] {
      var init := es[..|es| - 1];
      assert es == init + [es[|es| - 1]];
      ApplyAllKeepsMeter(w, init, now);
      var e := es[|es| - 1];
      if e.Metered? {
        Usage.RecordKeepsInvariants(ApplyAll(w, init, now).meter, e.company, e.kind, e.count, now);
      }
    }
  }

  /** Applying a concatenation applies its parts in turn. */
  lemma {:induction false} ApplyAllAppend(w: World, a: seq<Effect>, b: seq<Effect>, now: int)
    ensures ApplyAll(w, a + b, now) == ApplyAll(ApplyAll(w, a, now), b, now)
    decreases |b|
  {
    if b == [] {
      assert a + b == a;
    } else {
      var init := b[..|b| - 1];
      assert (a + b)[..|a + b| - 1] == a + init;
      assert (a + b)[|a + b| - 1] == b[|b| - 1];
      ApplyAllAppend(w, a, init, now);
    }
  }

  /** Applying one more operation is applying it to the result so far. */
  lemma ApplyAllSnoc(w: World, es: seq<Effect>, e: Effect, now: int)
    ensures ApplyAll(w, es + [e], now) == Apply(ApplyAll(w, es, now), e, now)
  {
    assert (es + [e])[..|es|] == es;
  }

  /** One operation applied on its own. */
  lemma ApplyOne(w: World, e: Effect, now: int)
    ensures ApplyAll(w, [e], now) == Apply(w, e, now)
  {
    ApplyAllSnoc(w, [], e, now);
    assert [] + [e] == [e];
  }

  /** Two operations applied one after the other. */
  lemma ApplyPair(w: World, a: Effect, b: Effect, now: int)
    ensures ApplyAll(w, [a, b], now) == Apply(Apply(w, a, now), b, now)
  {
    ApplyOne(w, a, now);
    ApplyAllSnoc(w, [a], b, now);
    assert [a] + [b] == [a, b];
  }

  // ---------------------------------------------------------------------
  // What the lookups find

  /** The tenant lookup `company/{company}`: unknown without a document,
      deactivated when its `is_deactivated` field is exactly `true`. */
  function TenantOf(companies: map<string, Doc>, company: string): (t: Tenant)
    ensures t == Active <==> company in companies &&
                             !("is_deactivated" in companies[company] && companies[company]["is_deactivated"] == Bool(true))
  {
    if company !in companies then Unknown
    else if "is_deactivated" in companies[company] && companies[company]["is_deactivated"] == Bool(true) then Deactivated
    else Active
  }

  /** The previous record of a per-device message's device. */
  function PreviousOf(docs: map<seq<string>, Doc>, parts: seq<string>): Option<Doc>
  {
    if |parts| >= 7 then Lookup(docs, DevicePath(parts[1], parts[2], parts[3], parts[4], parts[5], parts[6])) else None
  }

  /** The size of the reminder query for a per-device message's location. */
  function MatchedOf(reminders: seq<Doc>, parts: seq<string>): nat
  {
    if |parts| >= 7 then CountMatching(reminders, parts[2], parts[3], parts[4]) else 0
  }

  function Company(parts: seq<string>): string
  {
    if |parts| >= 2 then parts[1] else ""
  }

  /** The operations a message causes in world `w`. Every lookup reads the
      world as the message found it: the operations before the reminder
      query touch neither reminders nor the tenant directory, and the
      previous record is read before anything is written. */
  function Plan(w: World, topic: string, data: string, policy: Policy, now: int): Outcome
  {
    var parts := Split(topic, '/');
    Route(parts, data, TenantOf(w.companies, Company(parts)), PreviousOf(w.docs, parts), MatchedOf(w.reminders, parts),
          policy, now)
  }

  /** The world after a message. */
  function Handle(w: World, topic: string, data: string, policy: Policy, now: int): World
  {
    ApplyAll(w, Plan(w, topic, data, policy, now).effects, now)
  }

  // ---------------------------------------------------------------------
  // Properties of a handled message

  /** The handler never changes the tenant directory, and keeps the meter
      well formed and every tenant's buffered usage below the threshold. */
  lemma HandleKeepsInvariants(w: World, topic: string, data: string, policy: Policy, now: int)
    requires Usage.WellFormed(w.meter) && Usage.Bounded(w.meter)
    ensures var w2 := Handle(w, topic, data, policy, now);
            w2.companies == w.companies && Usage.WellFormed(w2.meter) && Usage.Bounded(w2.meter)
  {
    var parts := Split(topic, '/');
    var r := Plan(w, topic, data, policy, now);
    RouteSteps(parts, data, TenantOf(w.companies, Company(parts)), PreviousOf(w.docs, parts), MatchedOf(w.reminders, parts),
               policy, now);
    forall e | e in r.effects && e.Metered?
      ensures e.count >= 0
    {
      assert Step(e, Field(parts, 1).s, parts, data);
    }
    ApplyAllKeepsMeter(w, r.effects, now);
  }

  /** A message that fails the prefix, tenant, gender or building gate
      changes nothing. */
  lemma GatedOut(w: World, topic: string, data: string, policy: Policy, now: int)
    requires !PassesGates(Split(topic, '/'), TenantOf(w.companies, Company(Split(topic, '/'))))
    ensures Handle(w, topic, data, policy, now) == w
  {
    var parts := Split(topic, '/');
    EveryWriteMetered(parts, data, TenantOf(w.companies, Company(parts)), PreviousOf(w.docs, parts),
                      MatchedOf(w.reminders, parts), policy, now);
  }

  /** Operations that start with one upsert between two meterings and then
      upsert nothing leave the documents changed by that upsert alone. */
  lemma ApplyOneUpsert(w: World, a: Effect, u: Effect, b: Effect, tail: seq<Effect>, now: int)
    requires a.Metered? && u.Upsert? && b.Metered?
    requires forall e :: e in tail ==> !e.Upsert?
    ensures ApplyAll(w, [a, u, b] + tail, now).docs == w.docs[u.path := Merge(Lookup(w.docs, u.path), u.fields)]
  {
    var head := [a, u, b];
    ApplyAllAppend(w, head, tail, now);
    ApplyPair(w, a, u, now);
    assert [a, u] + [b] == head;
    ApplyAllSnoc(w, [a, u], b, now);
    var w3 := ApplyAll(w, head, now);
    assert w3.docs == w.docs[u.path := Merge(Lookup(w.docs, u.path), u.fields)];
    DocsFrame(w3, tail, now);
  }

  /** Operations that delete nothing and then meter and delete once change
      the reminders by that deletion alone. */
  lemma ApplyOneDelete(w: World, front: seq<Effect>, q: Effect, d: Effect, now: int)
    requires forall e :: e in front ==> !e.DeleteReminders?
    requires q.Metered? && d.DeleteReminders?
    ensures ApplyAll(w, front + [q, d], now).reminders == RemoveMatching(w.reminders, d.gedung, d.lokasi, d.gender)
  {
    ApplyAllAppend(w, front, [q, d], now);
    RemindersFrame(w, front, now);
    var w1 := ApplyAll(w, front, now);
    ApplyPair(w1, q, d, now);
    assert Apply(w1, q, now).reminders == w.reminders;
  }

  /** A completed per-device message changes the documents by merging the
      record's sent fields into the device's document, and nothing else. */
  lemma DeviceDocs(w: World, topic: string, data: string, policy: Policy, now: int)
    requires var parts := Split(topic, '/');
             PassesGates(parts, TenantOf(w.companies, Company(parts))) && |parts| >= 7 && parts[5] != ""
    requires Plan(w, topic, data, policy, now).status == Done
    ensures var parts := Split(topic, '/');
            var path := DevicePath(parts[1], parts[2], parts[3], parts[4], parts[5], parts[6]);
            var sent := Write(policy, RecordFields(parts[5], parts[3], data, now));
            sent.Some? &&
            Handle(w, topic, data, policy, now).docs == w.docs[path := Merge(Lookup(w.docs, path), sent.value)]
  {
    var parts := Split(topic, '/');
    var company := parts[1];
    var path := DevicePath(company, parts[2], parts[3], parts[4], parts[5], parts[6]);
    var previous := PreviousOf(w.docs, parts);
    var matched := MatchedOf(w.reminders, parts);
    var r := Plan(w, topic, data, policy, now);
    RouteDevice(parts, data, previous, matched, policy, now);
    DeviceShape(company, parts[2], parts[3], parts[4], parts[5], parts[6], data, previous, matched, policy, now);
    var sent := Write(policy, RecordFields(parts[5], parts[3], data, now)).value;
    var tail := LogSteps(company, parts[2], parts[3], parts[4], parts[5], parts[6], data, PreviousStatus(previous), now) +
                VacancySteps(company, parts[2], parts[3], parts[4], parts[5], data, matched);
    LogStepsOwned(company, parts[2], parts[3], parts[4], parts[5], parts[6], data, PreviousStatus(previous), now);
    VacancyStepsShape(company, parts[2], parts[3], parts[4], parts[5], data, matched);
    ApplyOneUpsert(w, Metered(company, Usage.Reads, if previous.Some? then 1 else 0), Upsert(path, sent),
                   Metered(company, Usage.Writes, 1), tail, now);
  }

  /** The stored record: after a completed per-device message the device's
      record holds the payload's location and first field as `status`;
      every field of the previous record that the message leaves undefined
      or does not list is kept, as a merge write does. */
  lemma StoredRecord(w: World, topic: string, data: string, policy: Policy, now: int)
    requires var parts := Split(topic, '/');
             PassesGates(parts, TenantOf(w.companies, Company(parts))) && |parts| >= 7 && parts[5] != ""
    requires Plan(w, topic, data, policy, now).status == Done
    ensures var parts := Split(topic, '/');
            var path := DevicePath(parts[1], parts[2], parts[3], parts[4], parts[5], parts[6]);
            var fields := RecordFields(parts[5], parts[3], data, now);
            var w2 := Handle(w, topic, data, policy, now);
            path in w2.docs &&
            "status" in w2.docs[path] && w2.docs[path]["status"] == Str(FirstField(data)) &&
            "lokasi" in w2.docs[path] && w2.docs[path]["lokasi"] == Str(parts[3]) &&
            (forall k :: k in fields && fields[k] != Undefined ==> k in w2.docs[path] && w2.docs[path][k] == fields[k]) &&
            (path in w.docs ==>
               forall k :: k in w.docs[path] && (k !in fields || fields[k] == Undefined) ==>
                 k in w2.docs[path] && w2.docs[path][k] == w.docs[path][k])
  {
    var parts := Split(topic, '/');
    var path := DevicePath(parts[1], parts[2], parts[3], parts[4], parts[5], parts[6]);
    var fields := RecordFields(parts[5], parts[3], data, now);
    DeviceDocs(w, topic, data, policy, now);
    var docs := Handle(w, topic, data, policy, now).docs;
    var sent := Write(policy, fields).value;
    assert docs[path] == Merge(Lookup(w.docs, path), sent);
    RecordFieldsStatus(parts[5], parts[3], data, now);
  }

  /** No repeated log: handling the same per-device `bau`, `sabun` or `tisu`
      message (or one of any type but `okupansi`) twice in a row appends a
      log entry at most the first time. The first message stores the
      payload's first field as the status, and none of these rules logs a
      message whose previous status is its own. */
  lemma NoRepeatedLog(w: World, topic: string, data: string, policy: Policy, now: int, later: int)
    requires var parts := Split(topic, '/');
             |parts| >= 7 && parts[5] != "okupansi"
    ensures var w1 := Handle(w, topic, data, policy, now);
            Handle(w1, topic, data, policy, later).logs == w1.logs
  {
    var parts := Split(topic, '/');
    var w1 := Handle(w, topic, data, policy, now);
    var tenant := TenantOf(w1.companies, Company(parts));
    assert tenant == TenantOf(w.companies, Company(parts));
    if PassesGates(parts, tenant) && parts[5] != "" {
      if Plan(w1, topic, data, policy, later).status == Done {
        SameStatus(w, w1, topic, data, policy, now, later);
        StoredRecord(w, topic, data, policy, now);
        assert PreviousStatus(PreviousOf(w1.docs, parts)) == Str(FirstField(data));
        OwnStatusNotLogged(parts[5], data);
      }
      LogsKeptUnlessRule(w1, topic, data, policy, later);
    } else if !PassesGates(parts, tenant) {
      GatedOut(w1, topic, data, policy, later);
    } else {
      RouteDevice(parts, data, PreviousOf(w1.docs, parts), MatchedOf(w1.reminders, parts), policy, later);
    }
  }

  /** Whether a gated per-device message completes depends on its type, its
      payload and the store's policy alone, not on the world it meets. */
  lemma SameStatus(w: World, w1: World, topic: string, data: string, policy: Policy, now: int, later: int)
    requires var parts := Split(topic, '/');
             PassesGates(parts, TenantOf(w.companies, Company(parts))) && |parts| >= 7 && parts[5] != ""
    requires w1.companies == w.companies
    ensures Plan(w1, topic, data, policy, later).status == Done <==> Plan(w, topic, data, policy, now).status == Done
  {
    var parts := Split(topic, '/');
    DeviceMessage(parts, data, PreviousOf(w.docs, parts), MatchedOf(w.reminders, parts), policy, now);
    DeviceMessage(parts, data, PreviousOf(w1.docs, parts), MatchedOf(w1.reminders, parts), policy, later);
  }

  /** A gated per-device message appends no log entry when its type's rule
      does not hold for the previous status (or it does not complete). */
  lemma LogsKeptUnlessRule(w: World, topic: string, data: string, policy: Policy, now: int)
    requires var parts := Split(topic, '/');
             PassesGates(parts, TenantOf(w.companies, Company(parts))) && |parts| >= 7 && parts[5] != ""
    requires var parts := Split(topic, '/');
             Plan(w, topic, data, policy, now).status == Done ==>
               !LogRule(parts[5], PreviousStatus(PreviousOf(w.docs, parts)), data)
    ensures Handle(w, topic, data, policy, now).logs == w.logs
  {
    var parts := Split(topic, '/');
    var r := Plan(w, topic, data, policy, now);
    DeviceCounts(parts, data, PreviousOf(w.docs, parts), MatchedOf(w.reminders, parts), policy, now);
    NoLogsAppended(r.effects);
  }

  /** No rule but occupancy's logs a message whose previous status is its
      own first field. */
  lemma OwnStatusNotLogged(sensorType: string, data: string)
    requires sensorType != "okupansi"
    ensures !LogRule(sensorType, Str(FirstField(data)), data)
  {
    if sensorType == "bau" && data == "good" {
      SplitNoSeparator(data, ';');
    }
  }

  /** Vacancy reminders: a completed `vacant` occupancy message deletes
      exactly the reminders matching its building, location and gender;
      every other message leaves the reminders as they were. */
  lemma VacancyClearsReminders(w: World, topic: string, data: string, policy: Policy, now: int)
    ensures var parts := Split(topic, '/');
            var r := Plan(w, topic, data, policy, now);
            var w2 := Handle(w, topic, data, policy, now);
            if r.status == Done && |parts| >= 7 && parts[5] == "okupansi" && data == "vacant" then
              w2.reminders == RemoveMatching(w.reminders, parts[2], parts[3], parts[4]) &&
              (forall d :: d in w2.reminders ==> !Matches(d, parts[2], parts[3], parts[4])) &&
              (forall d :: d in w.reminders && !Matches(d, parts[2], parts[3], parts[4]) ==> d in w2.reminders)
            else w2.reminders == w.reminders
  {
    var parts := Split(topic, '/');
    var r := Plan(w, topic, data, policy, now);
    if r.status == Done && |parts| >= 7 && parts[5] == "okupansi" && data == "vacant" {
      VacancyTail(w, topic, data, policy, now);
    } else {
      RouteDeletes(parts, data, TenantOf(w.companies, Company(parts)), PreviousOf(w.docs, parts),
                   MatchedOf(w.reminders, parts), policy, now);
      RemindersFrame(w, r.effects, now);
    }
  }

  /** A completed `vacant` occupancy message changes the reminders through
      its one deletion alone. */
  lemma VacancyTail(w: World, topic: string, data: string, policy: Policy, now: int)
    requires var parts := Split(topic, '/');
             Plan(w, topic, data, policy, now).status == Done && |parts| >= 7 && parts[5] == "okupansi" && data == "vacant"
    ensures var parts := Split(topic, '/');
            Handle(w, topic, data, policy, now).reminders == RemoveMatching(w.reminders, parts[2], parts[3], parts[4])
  {
    var parts := Split(topic, '/');
    var company := parts[1];
    var previous := PreviousOf(w.docs, parts);
    var matched := MatchedOf(w.reminders, parts);
    var tenant := TenantOf(w.companies, Company(parts));
    var r := Plan(w, topic, data, policy, now);
    assert r == Route(parts, data, tenant, previous, matched, policy, now);
    EveryWriteMetered(parts, data, tenant, previous, matched, policy, now);
    RouteDevice(parts, data, previous, matched, policy, now);
    DeviceShape(company, parts[2], parts[3], parts[4], parts[5], parts[6], data, previous, matched, policy, now);
    var sent := Write(policy, RecordFields(parts[5], parts[3], data, now)).value;
    var head := [Metered(company, Usage.Reads, if previous.Some? then 1 else 0),
                 Upsert(DevicePath(company, parts[2], parts[3], parts[4], parts[5], parts[6]), sent),
                 Metered(company, Usage.Writes, 1)];
    var logs := LogSteps(company, parts[2], parts[3], parts[4], parts[5], parts[6], data, PreviousStatus(previous), now);
    var query := Metered(company, Usage.Reads, matched);
    var delete := DeleteReminders(parts[2], parts[3], parts[4]);
    assert r.effects == (head + logs) + [query, delete];
    LogStepsOwned(company, parts[2], parts[3], parts[4], parts[5], parts[6], data, PreviousStatus(previous), now);
    ApplyOneDelete(w, head + logs, query, delete, now);
  }

  /** With the store's default treatment of `undefined`, no message ever
      deletes a reminder: `vacant` has no `;`, so its record's `nomor` is
      `undefined`, the upsert throws and the message stops before the
      reminder query. */
  lemma DefaultStoreKeepsReminders(w: World, topic: string, data: string, now: int)
    ensures Handle(w, topic, data, RejectUndefined, now).reminders == w.reminders
  {
    var parts := Split(topic, '/');
    VacancyClearsReminders(w, topic, data, RejectUndefined, now);
    var tenant := TenantOf(w.companies, Company(parts));
    if |parts| >= 7 && parts[5] == "okupansi" && data == "vacant" {
      if PassesGates(parts, tenant) {
        SplitNoSeparator(data, ';');
        DeviceMessage(parts, data, PreviousOf(w.docs, parts), MatchedOf(w.reminders, parts), RejectUndefined, now);
      } else {
        GatedOut(w, topic, data, RejectUndefined, now);
      }
    }
  }

  /** With the store's default treatment of `undefined`, no per-device `bau`
      message is ever logged: the rule needs the whole payload to be `good`,
      which has no `;`, so the upsert throws before the log append. */
  lemma DefaultStoreNeverLogsOdour(w: World, topic: string, data: string, now: int)
    requires var parts := Split(topic, '/');
             |parts| >= 7 && parts[5] == "bau"
    ensures Handle(w, topic, data, RejectUndefined, now).logs == w.logs
  {
    var parts := Split(topic, '/');
    var tenant := TenantOf(w.companies, Company(parts));
    if PassesGates(parts, tenant) {
      if data == "good" {
        SplitNoSeparator(data, ';');
        DeviceMessage(parts, data, PreviousOf(w.docs, parts), MatchedOf(w.reminders, parts), RejectUndefined, now);
      }
      LogsKeptUnlessRule(w, topic, data, RejectUndefined, now);
    } else {
      GatedOut(w, topic, data, RejectUndefined, now);
    }
  }
}
