/** The configuration listener's publishing rule: every added or modified
    device configuration is republished, retained, on the device's update
    topic; removals publish nothing. */
module Publisher {
  import opened Strings
  import opened Documents
  import opened Keys

  /** The kind of a snapshot change. */
  datatype ChangeKind = Added | Modified | Removed

  datatype Change = Change(kind: ChangeKind, doc: Doc)

  /** A message handed to the transport: the topic and the configuration it
      carries (serialised as JSON, published with QoS 0 and retained). */
  datatype Publication = Publication(topic: string, config: Doc)

  /** Decimal digits of a natural number, most significant first. */
  function NatText(n: nat): (r: string)
    ensures |r| >= 1
    ensures forall i :: 0 <= i < |r| ==> '0' <= r[i] <= '9'
  {
    var digit := ('0' as int + n % 10) as char;
    if n < 10 then [digit] else NatText(n / 10) + [digit]
  }

  /** An integer as a template literal renders it. */
  function IntText(n: int): string
  {
    if n < 0 then "-" + NatText(-n) else NatText(n)
  }

  /** `${v}` for a field value; `None` for a timestamp, whose rendering is
      the store library's. */
  function TemplateText(v: Value): (r: Option<string>)
    ensures r.None? <==> v.Time?
  {
    match v
    case Str(s) => Some(s)
    case Bool(b) => Some(if b then "true" else "false")
    case Num(n) => Some(IntText(n))
    case Undefined => Some("undefined")
    case Null => Some("null")
    case Time(_) => None
  }

  /** `configData.mac_address`, `undefined` when the field is absent. */
  function MacAddress(config: Doc): Value
  {
    if "mac_address" in config then config["mac_address"] else Undefined
  }

  /** `publishConfigUpdate(companyId, configData)`: the configuration on
      `update/{companyId}/{mac_address}`. */
  function PublishConfigUpdate(companyId: string, config: Doc): (r: Option<Publication>)
    ensures r.Some? <==> !MacAddress(config).Time?
    ensures r.Some? ==> r.value.config == config
  {
    match TemplateText(MacAddress(config))
    case None => None
    case Some(mac) => Some(Publication(UpdateTopic(companyId, mac), config))
  }

  /** Whether a change is republished: added or modified, not removed. */
  predicate Republished(c: Change)
  {
    c.kind == Added || c.kind == Modified
  }

  /** What one snapshot's changes publish, in change order. */
  function Publications(companyId: string, changes: seq<Change>): seq<Publication>
    decreases |changes|
  {
    if changes == [] then []
    else
      var c := changes[0];
      var rest := Publications(companyId, changes[1..]);
      if Republished(c) && PublishConfigUpdate(companyId, c.doc).Some? then [PublishConfigUpdate(companyId, c.doc).value] + rest
      else rest
  }

  /** Publishing follows the change order: the changes of a concatenation
      publish what each part publishes, one after the other. */
  lemma {:induction false} PublicationsAppend(companyId: string, a: seq<Change>, b: seq<Change>)
    ensures Publications(companyId, a + b) == Publications(companyId, a) + Publications(companyId, b)
    decreases |a|
  {
    if a == [] {
      assert a + b == b;
    } else {
      assert (a + b)[0] == a[0];
      assert (a + b)[1..] == a[1..] + b;
      PublicationsAppend(companyId, a[1..], b);
    }
  }

  /** A publication goes out exactly when some added or modified change
      carries a configuration whose topic can be rendered, and it is that
      configuration on its update topic. */
  lemma {:induction false} PublishedIff(companyId: string, changes: seq<Change>, p: Publication)
    ensures p in Publications(companyId, changes) <==>
            exists i :: 0 <= i < |changes| && Republished(changes[i]) && PublishConfigUpdate(companyId, changes[i].doc) == Some(p)
    decreases |changes|
  {
    if changes != [] {
      PublishedIff(companyId, changes[1..], p);
      if p in Publications(companyId, changes[1..]) {
        var i :| 0 <= i < |changes[1..]| && Republished(changes[1..][i]) &&
                 PublishConfigUpdate(companyId, changes[1..][i].doc) == Some(p);
        assert changes[i + 1] == changes[1..][i];
      }
      if exists i :: 0 <= i < |changes| && Republished(changes[i]) && PublishConfigUpdate(companyId, changes[i].doc) == Some(p) {
        var i :| 0 <= i < |changes| && Republished(changes[i]) && PublishConfigUpdate(companyId, changes[i].doc) == Some(p);
        if i > 0 {
          assert changes[1..][i - 1] == changes[i];
        }
      }
    }
  }

  /** Removals publish nothing. */
  lemma {:induction false} RemovalsSilent(companyId: string, changes: seq<Change>)
    requires forall i :: 0 <= i < |changes| ==> changes[i].kind == Removed
    ensures Publications(companyId, changes) == []
    decreases |changes|
  {
    if changes != [] {
      RemovalsSilent(companyId, changes[1..]);
    }
  }

  /** The digits of a number hold no slash. */
  lemma IntTextNoSlash(n: int)
    ensures '/' !in IntText(n)
  {
    var digits := NatText(if n < 0 then -n else n);
    assert forall i :: 0 <= i < |digits| ==> digits[i] != '/';
  }

  /** The update topic gives back the tenant and the rendered MAC address
      when split on `/`, provided neither holds a slash. */
  lemma PublicationTopic(companyId: string, config: Doc)
    requires '/' !in companyId
    requires var mac := TemplateText(MacAddress(config)); mac.Some? && '/' !in mac.value
    ensures var p := PublishConfigUpdate(companyId, config);
            p.Some? && Split(p.value.topic, '/') == ["update", companyId, TemplateText(MacAddress(config)).value]
  {
    UpdateTopicRoundTrip(companyId, TemplateText(MacAddress(config)).value);
  }
}
