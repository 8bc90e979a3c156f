/** The document store as the handler sees it: field values, documents,
    the merge-upsert, how the store treats `undefined`, and the reminder
    collection with its equality query and deletion. */
module Documents {

  datatype Option<T> = None | Some(value: T)

  /** A JavaScript value as it can reach a document field. `Undefined` is what
      destructuring yields past the end of a split; `Null` is the handler's
      "no previous record". */
  datatype Value = Str(s: string) | Bool(b: bool) | Num(n: int) | Time(t: int) | Undefined | Null

  /** A document: field name to value. */
  type Doc = map<string, Value>

  /** Positional destructuring `const [a, b, c] = parts`: element `i`, or
      `undefined` past the end. */
  function Field(parts: seq<string>, i: nat): Value
  {
    if i < |parts| then Str(parts[i]) else Undefined
  }

  /** A collection or document id the store accepts: defined and non-empty.
      Anything else makes `collection(…)` or `doc(…)` throw. */
  predicate ValidSegment(v: Value)
  {
    v.Str? && v.s != ""
  }

  /** How the store treats `undefined` field values: by default a write
      holding one is rejected with an error; with `ignoreUndefinedProperties`
      such fields are dropped. */
  datatype Policy = RejectUndefined | IgnoreUndefined

  predicate HasUndefined(fields: Doc)
  {
    exists k :: k in fields && fields[k] == Undefined
  }

  /** The fields a write actually sends, or `None` when the store rejects it. */
  function Write(policy: Policy, fields: Doc): (r: Option<Doc>)
    ensures r.None? <==> policy == RejectUndefined && HasUndefined(fields)
    ensures r.Some? ==> forall k :: k in r.value <==> k in fields && fields[k] != Undefined
    ensures r.Some? ==> forall k :: k in r.value ==> r.value[k] == fields[k]
  {
    if policy == RejectUndefined && HasUndefined(fields) then None
    else Some(map k | k in fields && fields[k] != Undefined :: fields[k])
  }

  /** `ref.set(fields, { merge: true })` on a document that may not exist:
      listed fields overwrite, every other existing field is kept. */
  function Merge(existing: Option<Doc>, fields: Doc): (r: Doc)
    ensures forall k :: k in r <==> k in fields || (existing.Some? && k in existing.value)
    ensures forall k :: k in fields ==> r[k] == fields[k]
    ensures existing.Some? ==> forall k :: k in existing.value && k !in fields ==> r[k] == existing.value[k]
  {
    if existing.Some? then existing.value + fields else fields
  }

  /** The reminder query `where("gedung", "==", g).where("lokasi", "==", l)
      .where("gender", "==", gd)`. */
  predicate Matches(d: Doc, gedung: string, lokasi: string, gender: string)
  {
    "gedung" in d && d["gedung"] == Str(gedung) &&
    "lokasi" in d && d["lokasi"] == Str(lokasi) &&
    "gender" in d && d["gender"] == Str(gender)
  }

  /** Size of the query's result. */
  function CountMatching(rs: seq<Doc>, gedung: string, lokasi: string, gender: string): (n: nat)
    ensures n <= |rs|
    ensures n == 0 <==> forall i :: 0 <= i < |rs| ==> !Matches(rs[i], gedung, lokasi, gender)
    decreases |rs|
  {
    if rs == [] then 0
    else
      var last := rs[|rs| - 1];
      CountMatching(rs[..|rs| - 1], gedung, lokasi, gender) + (if Matches(last, gedung, lokasi, gender) then 1 else 0)
  }

  /** The reminders left once every match of the query is deleted. */
  function RemoveMatching(rs: seq<Doc>, gedung: string, lokasi: string, gender: string): (kept: seq<Doc>)
    ensures forall d :: d in kept ==> d in rs && !Matches(d, gedung, lokasi, gender)
    ensures forall d :: d in rs && !Matches(d, gedung, lokasi, gender) ==> d in kept
    ensures |kept| + CountMatching(rs, gedung, lokasi, gender) == |rs|
    ensures forall d :: multiset(kept)[d] == if Matches(d, gedung, lokasi, gender) then 0 else multiset(rs)[d]
    decreases |rs|
  {
    if rs == [] then []
    else
      var last := rs[|rs| - 1];
      var front := RemoveMatching(rs[..|rs| - 1], gedung, lokasi, gender);
      assert rs == rs[..|rs| - 1] + [last];
      RemoveMatchingStep(rs[..|rs| - 1], last, front, gedung, lokasi, gender);
      if Matches(last, gedung, lokasi, gender) then front else front + [last]
  }

  /** Removing one more reminder keeps the multiplicities right. */
  lemma RemoveMatchingStep(init: seq<Doc>, last: Doc, front: seq<Doc>, gedung: string, lokasi: string, gender: string)
    requires forall d :: multiset(front)[d] == if Matches(d, gedung, lokasi, gender) then 0 else multiset(init)[d]
    ensures var kept := if Matches(last, gedung, lokasi, gender) then front else front + [last];
            forall d :: multiset(kept)[d] == if Matches(d, gedung, lokasi, gender) then 0 else multiset(init + [last])[d]
  {
    assert multiset(init + [last]) == multiset(init) + multiset{last};
    assert multiset(front + [last]) == multiset(front) + multiset{last};
  }

  /** Runs the reminder query and deletes each document of its result, one
      after the other, giving the remaining reminders and the result's size. */
  method DeleteMatching(rs: seq<Doc>, gedung: string, lokasi: string, gender: string)
    returns (kept: seq<Doc>, deleted: nat)
    ensures kept == RemoveMatching(rs, gedung, lokasi, gender)
    ensures deleted == CountMatching(rs, gedung, lokasi, gender)
  {
    kept, deleted := [], 0;
    var i := 0;
    while i < |rs|
      invariant 0 <= i <= |rs|
      invariant kept == RemoveMatching(rs[..i], gedung, lokasi, gender)
      invariant deleted == CountMatching(rs[..i], gedung, lokasi, gender)
    {
      assert rs[..i + 1][..i] == rs[..i];
      if Matches(rs[i], gedung, lokasi, gender) {
        deleted := deleted + 1;
      } else {
        kept := kept + [rs[i]];
      }
      i := i + 1;
    }
    assert rs[..|rs|] == rs;
  }
}
