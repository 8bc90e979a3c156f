/** The document ids and transport topic the handler builds by template
    literal, each with the round trip back to its parts. */
module Keys {
  import opened Strings

  /** `${gedung}_${lokasi}_${gender}_${nomor}`: the id of a per-device sensor
      record, and (with the device number in the last place) of a device's
      configuration record. */
  function DeviceDocId(gedung: string, lokasi: string, gender: string, nomor: string): string
  {
    gedung + "_" + lokasi + "_" + gender + "_" + nomor
  }

  /** `${lokasi}_${gender}`: the id of a location-aggregate sensor record. */
  function AggregateDocId(lokasi: string, gender: string): string
  {
    lokasi + "_" + gender
  }

  /** `update/${companyId}/${macAddress}`: where a device's configuration is
      republished. */
  function UpdateTopic(companyId: string, macAddress: string): string
  {
    "update/" + companyId + "/" + macAddress
  }

  /** The device id is the `_`-join of its four parts. */
  lemma DeviceDocIdIsJoin(gedung: string, lokasi: string, gender: string, nomor: string)
    ensures DeviceDocId(gedung, lokasi, gender, nomor) == Join([gedung, lokasi, gender, nomor], '_')
  {
    var ps := [gedung, lokasi, gender, nomor];
    assert ps[1..] == [lokasi, gender, nomor];
    assert ps[1..][1..] == [gender, nomor];
    assert ps[1..][1..][1..] == [nomor];
    assert Join(ps[1..][1..], '_') == gender + "_" + nomor;
    assert Join(ps[1..], '_') == lokasi + "_" + (gender + "_" + nomor);
    assert Join(ps, '_') == gedung + "_" + (lokasi + "_" + (gender + "_" + nomor));
  }

  /** Splitting a device id on `_` gives back its parts, when none of them
      holds an underscore. */
  lemma DeviceDocIdRoundTrip(gedung: string, lokasi: string, gender: string, nomor: string)
    requires '_' !in gedung && '_' !in lokasi && '_' !in gender && '_' !in nomor
    ensures Split(DeviceDocId(gedung, lokasi, gender, nomor), '_') == [gedung, lokasi, gender, nomor]
  {
    DeviceDocIdIsJoin(gedung, lokasi, gender, nomor);
    SplitJoin([gedung, lokasi, gender, nomor], '_');
  }

  /** Two devices whose underscore-free parts differ get different ids. */
  lemma DeviceDocIdInjective(g1: string, l1: string, d1: string, n1: string, g2: string, l2: string, d2: string, n2: string)
    requires '_' !in g1 && '_' !in l1 && '_' !in d1 && '_' !in n1
    requires '_' !in g2 && '_' !in l2 && '_' !in d2 && '_' !in n2
    requires DeviceDocId(g1, l1, d1, n1) == DeviceDocId(g2, l2, d2, n2)
    ensures g1 == g2 && l1 == l2 && d1 == d2 && n1 == n2
  {
    DeviceDocIdRoundTrip(g1, l1, d1, n1);
    DeviceDocIdRoundTrip(g2, l2, d2, n2);
  }

  /** Splitting an aggregate id on `_` gives back location and gender. */
  lemma AggregateDocIdRoundTrip(lokasi: string, gender: string)
    requires '_' !in lokasi && '_' !in gender
    ensures Split(AggregateDocId(lokasi, gender), '_') == [lokasi, gender]
  {
    var ps := [lokasi, gender];
    assert ps[1..] == [gender];
    assert AggregateDocId(lokasi, gender) == Join(ps, '_');
    SplitJoin(ps, '_');
  }

  /** Splitting an update topic on `/` gives back the prefix, tenant and MAC
      address, when neither of the last two holds a slash. */
  lemma UpdateTopicRoundTrip(companyId: string, macAddress: string)
    requires '/' !in companyId && '/' !in macAddress
    ensures Split(UpdateTopic(companyId, macAddress), '/') == ["update", companyId, macAddress]
  {
    var ps := ["update", companyId, macAddress];
    assert ps[1..] == [companyId, macAddress];
    assert ps[1..][1..] == [macAddress];
    assert Join(ps[1..], '/') == companyId + "/" + macAddress;
    assert Join(ps, '/') == "update" + "/" + (companyId + "/" + macAddress);
    assert UpdateTopic(companyId, macAddress) == Join(ps, '/');
    assert '/' !in ps[0];
    SplitJoin(ps, '/');
  }
}
