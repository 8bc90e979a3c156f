/** The usage meter: per-tenant counts of store reads and writes, kept in
    memory and flushed to the persistent usage counter when a tenant's total
    reaches the threshold, or by the hourly sweep of every non-zero tenant.
    The persistent counter itself is not modelled: a flush is recorded as the
    delta it would commit. */
module Usage {

  datatype Kind = Reads | Writes

  /** One tenant's buffered counts; `lastFlushed` is the clock reading given
      when the entry was (re)created. */
  datatype Counts = Counts(readCount: int, writeCount: int, lastFlushed: int)

  /** A delta handed to the persistent counter. */
  datatype Flush = Flush(company: string, readCount: int, writeCount: int)

  /** The meter's whole state: the buffer, the order in which its tenants were
      first inserted (the iteration order of a JavaScript `Map`), and every
      flush so far. */
  datatype Meter = Meter(buffer: map<string, Counts>, order: seq<string>, flushed: seq<Flush>)

  const Threshold: int := 2000

  function Zero(now: int): Counts
  {
    Counts(0, 0, now)
  }

  /** `order` lists each buffered tenant exactly once. */
  ghost predicate WellFormed(m: Meter)
  {
    (forall i, j :: 0 <= i < j < |m.order| ==> m.order[i] != m.order[j]) &&
    (forall c :: c in m.buffer <==> c in m.order)
  }

  /** Every buffered tenant has non-negative counts whose sum is below the
      threshold. */
  ghost predicate Bounded(m: Meter)
  {
    forall c :: c in m.buffer ==>
      0 <= m.buffer[c].readCount && 0 <= m.buffer[c].writeCount &&
      m.buffer[c].readCount + m.buffer[c].writeCount < Threshold
  }

  function Add(c: Counts, kind: Kind, n: int): Counts
  {
    match kind
    case Reads => c.(readCount := c.readCount + n)
    case Writes => c.(writeCount := c.writeCount + n)
  }

  /** `updateUsageCount(company, kind, n)`: raise the tenant's `kind` count by
      `n` (a tenant with no entry starts from zero), then flush and reset it
      if its total has reached the threshold. */
  function Record(m: Meter, company: string, kind: Kind, n: int, now: int): Meter
  {
    var current := Add(if company in m.buffer then m.buffer[company] else Zero(now), kind, n);
    var order := if company in m.buffer then m.order else m.order + [company];
    if current.readCount + current.writeCount >= Threshold then
      Meter(m.buffer[company := Zero(now)], order, m.flushed + [Flush(company, current.readCount, current.writeCount)])
    else
      Meter(m.buffer[company := current], order, m.flushed)
  }

  /** Metering raises only the given count of the given tenant, by `n`,
      starting from zero for a tenant without an entry; when the total then
      reaches the threshold, exactly one flush with the raised counts is
      recorded and the entry restarts from zero. A new tenant goes to the end
      of the iteration order. */
  lemma RecordIncrement(m: Meter, company: string, kind: Kind, n: int, now: int)
    ensures var r := Record(m, company, kind, n, now);
            r.buffer.Keys == m.buffer.Keys + {company} &&
            (forall c :: c in m.buffer && c != company ==> r.buffer[c] == m.buffer[c]) &&
            r.order == (if company in m.buffer then m.order else m.order + [company])
    ensures var r := Record(m, company, kind, n, now);
            var before := if company in m.buffer then m.buffer[company] else Zero(now);
            var readsAfter := before.readCount + (if kind == Reads then n else 0);
            var writesAfter := before.writeCount + (if kind == Writes then n else 0);
            if readsAfter + writesAfter >= Threshold then
              r.buffer[company] == Zero(now) && r.flushed == m.flushed + [Flush(company, readsAfter, writesAfter)]
            else
              r.buffer[company] == Counts(readsAfter, writesAfter, before.lastFlushed) && r.flushed == m.flushed
  {
  }

  /** Metering keeps the order listing each buffered tenant once, and, for
      a non-negative amount, every tenant below the threshold. */
  lemma RecordKeepsInvariants(m: Meter, company: string, kind: Kind, n: int, now: int)
    ensures WellFormed(m) ==> WellFormed(Record(m, company, kind, n, now))
    ensures Bounded(m) && n >= 0 ==> Bounded(Record(m, company, kind, n, now))
  {
    var r := Record(m, company, kind, n, now);
    if WellFormed(m) && company !in m.buffer {
      forall i, j | 0 <= i < j < |r.order| ensures r.order[i] != r.order[j] {
        if j == |m.order| {
          assert r.order[i] == m.order[i] && m.order[i] in m.order;
        }
      }
    }
  }

  /** The sweep's condition `value.reads > 0 || value.writes > 0`. */
  predicate Active(c: Counts)
  {
    c.readCount > 0 || c.writeCount > 0
  }

  /** What the sweep flushes, in the buffer's iteration order: one delta per
      active tenant, carrying its counts. */
  function SweepFlushes(order: seq<string>, buffer: map<string, Counts>): (r: seq<Flush>)
    requires forall c :: c in order ==> c in buffer
    ensures |r| <= |order|
    ensures forall f :: f in r ==> f.company in order && Active(buffer[f.company]) &&
                                   f == Flush(f.company, buffer[f.company].readCount, buffer[f.company].writeCount)
    ensures forall c :: c in order && Active(buffer[c]) ==> Flush(c, buffer[c].readCount, buffer[c].writeCount) in r
    decreases |order|
  {
    if order == [] then []
    else
      var c := order[|order| - 1];
      var front := SweepFlushes(order[..|order| - 1], buffer);
      assert order == order[..|order| - 1] + [c];
      if Active(buffer[c]) then front + [Flush(c, buffer[c].readCount, buffer[c].writeCount)] else front
  }

  /** The buffer once the sweep has visited the tenants of `visited`: each
      visited active tenant is reset, everything else is kept. */
  function SweepBuffer(visited: seq<string>, buffer: map<string, Counts>, now: int): (r: map<string, Counts>)
    ensures r.Keys == buffer.Keys
    ensures forall c :: c in buffer ==> r[c] == if c in visited && Active(buffer[c]) then Zero(now) else buffer[c]
    decreases |visited|
  {
    if visited == [] then buffer
    else
      var c := visited[|visited| - 1];
      var front := SweepBuffer(visited[..|visited| - 1], buffer, now);
      assert visited == visited[..|visited| - 1] + [c];
      if c in buffer && Active(buffer[c]) then front[c := Zero(now)] else front
  }

  /** The periodic sweep: every active tenant is flushed with its counts and
      reset; tenants already at zero are neither flushed nor changed. */
  function Sweep(m: Meter, now: int): (r: Meter)
    requires WellFormed(m)
    ensures r.order == m.order && r.buffer.Keys == m.buffer.Keys
    ensures forall c :: c in m.buffer && !Active(m.buffer[c]) ==> r.buffer[c] == m.buffer[c]
    ensures forall c :: c in m.buffer && Active(m.buffer[c]) ==> r.buffer[c] == Zero(now)
    ensures forall c :: c in r.buffer ==> !Active(r.buffer[c])
    ensures r.flushed == m.flushed + SweepFlushes(m.order, m.buffer)
    ensures WellFormed(r)
    ensures Bounded(m) ==> Bounded(r)
  {
    Meter(SweepBuffer(m.order, m.buffer, now), m.order, m.flushed + SweepFlushes(m.order, m.buffer))
  }

  /** A sweep flushes each tenant at most once. */
  lemma {:induction false} SweepFlushesOncePerTenant(order: seq<string>, buffer: map<string, Counts>, i: int, j: int)
    requires forall c :: c in order ==> c in buffer
    requires forall a, b :: 0 <= a < b < |order| ==> order[a] != order[b]
    requires 0 <= i < j < |SweepFlushes(order, buffer)|
    ensures SweepFlushes(order, buffer)[i].company != SweepFlushes(order, buffer)[j].company
    decreases |order|
  {
    var c := order[|order| - 1];
    var init := order[..|order| - 1];
    var front := SweepFlushes(init, buffer);
    assert order == init + [c];
    if j < |front| {
      SweepFlushesOncePerTenant(init, buffer, i, j);
    } else {
      assert SweepFlushes(order, buffer)[i] == front[i];
      assert front[i] in front;
      assert c !in init;
    }
  }

  /** One `updateUsageCount(company, kind, count)` call, made at clock
      reading `now`. */
  datatype Call = Call(company: string, kind: Kind, count: nat, now: int)

  /** A run of `updateUsageCount` calls, for any tenants and at any clock
      readings, applied in order. */
  function RecordAll(m: Meter, calls: seq<Call>): Meter
    decreases |calls|
  {
    if calls == [] then m
    else
      var c := calls[0];
      RecordAll(Record(m, c.company, c.kind, c.count, c.now), calls[1..])
  }

  /** Repeated metering keeps the iteration order well formed and every
      tenant below the threshold: as long as counts are non-negative, no
      entry ever reaches it without being flushed and reset. */
  lemma {:induction false} RecordAllBounded(m: Meter, calls: seq<Call>)
    requires Bounded(m)
    ensures Bounded(RecordAll(m, calls))
    ensures WellFormed(m) ==> WellFormed(RecordAll(m, calls))
    decreases |calls|
  {
    if calls != [] {
      var c := calls[0];
      RecordKeepsInvariants(m, c.company, c.kind, c.count, c.now);
      RecordAllBounded(Record(m, c.company, c.kind, c.count, c.now), calls[1..]);
    }
  }

  /** The sweep after its first `n` tenants in iteration order. */
  ghost function SweepPrefix(m: Meter, n: nat, now: int): Meter
    requires WellFormed(m) && n <= |m.order|
  {
    Meter(SweepBuffer(m.order[..n], m.buffer, now), m.order, m.flushed + SweepFlushes(m.order[..n], m.buffer))
  }

  /** One step of the sweep visits the next tenant, still holding its counts. */
  lemma SweepStep(m: Meter, i: nat, now: int)
    requires WellFormed(m) && i < |m.order|
    ensures var p := SweepPrefix(m, i, now);
            var c := m.order[i];
            c in p.buffer && p.buffer[c] == m.buffer[c] &&
            p.order == m.order &&
            SweepPrefix(m, i + 1, now) ==
              if Active(m.buffer[c]) then Meter(p.buffer[c := Zero(now)], p.order, p.flushed + [Flush(c, m.buffer[c].readCount, m.buffer[c].writeCount)])
              else p
  {
    var c := m.order[i];
    var visited := m.order[..i + 1];
    assert visited[|visited| - 1] == c;
    assert visited[..|visited| - 1] == m.order[..i];
    assert c !in m.order[..i];
  }

  /** The sweep over every tenant is the whole sweep. */
  lemma SweepPrefixAll(m: Meter, now: int)
    requires WellFormed(m)
    ensures SweepPrefix(m, |m.order|, now) == Sweep(m, now)
  {
    assert m.order[..|m.order|] == m.order;
  }

  /** The in-memory buffer of `updateUsageCount` and its hourly sweep. */
  class UsageMeter {
    var buffer: map<string, Counts>
    var order: seq<string>
    ghost var flushed: seq<Flush>

    ghost function State(): Meter
      reads this
    {
      Meter(buffer, order, flushed)
    }

    ghost predicate Valid()
      reads this
    {
      WellFormed(State()) && Bounded(State())
    }

    constructor ()
      ensures Valid() && State() == Meter(map[], [], [])
    {
      buffer, order, flushed := map[], [], [];
    }

    /** Meters `count` operations of `kind` for `company` (index.js:23-41). */
    method UpdateUsageCount(company: string, kind: Kind, count: int, now: int)
      modifies this
      ensures State() == Record(old(State()), company, kind, count, now)
      ensures old(Valid()) && count >= 0 ==> Valid()
    {
      RecordKeepsInvariants(State(), company, kind, count, now);
      var current := if company in buffer then buffer[company] else Zero(now);
      current := Add(current, kind, count);
      if company !in buffer {
        order := order + [company];
      }
      buffer := buffer[company := current];
      if current.readCount + current.writeCount >= Threshold {
        flushed := flushed + [Flush(company, current.readCount, current.writeCount)];
        buffer := buffer[company := Zero(now)];
      }
    }

    /** The hourly sweep over the buffer in iteration order (index.js:66-77). */
    method PeriodicFlush(now: int)
      requires Valid()
      modifies this
      ensures Valid()
      ensures State() == Sweep(old(State()), now)
    {
      ghost var m0 := State();
      var i := 0;
      while i < |order|
        invariant 0 <= i <= |order| && |order| == |m0.order|
        invariant State() == SweepPrefix(m0, i, now)
      {
        var c := order[i];
        SweepStep(m0, i, now);
        var value := buffer[c];
        if value.readCount > 0 || value.writeCount > 0 {
          flushed := flushed + [Flush(c, value.readCount, value.writeCount)];
          buffer := buffer[c := Zero(now)];
        }
        i := i + 1;
      }
      SweepPrefixAll(m0, now);
    }
  }
}
