/**
 * The records the extension passes around: the identity of a record found on
 * a page (`RecordInfo`), the field data resolved for it (`Snapshot`, the
 * source's `RecordData`), and plain JavaScript objects of field values
 * (`Fields`), which keep their own keys in insertion order.
 */
module Records {

  import opened Wrappers
  import opened Json

  predicate Distinct(xs: seq<string>) {
    forall i, j :: 0 <= i < j < |xs| ==> xs[i] != xs[j]
  }

  /**
   * A JavaScript object of field values: `names` is `Object.keys(obj)` (insertion
   * order) and `values` what each key holds.
   */
  datatype Fields = Fields(names: seq<string>, values: map<string, Json>) {

    /** The keys are listed once each, and exactly the keys that hold a value. */
    ghost predicate Valid() {
      Distinct(names) && (forall k :: k in values <==> k in names)
    }

    /** `obj[key]`, with `None` for `undefined`. */
    function Get(key: string): Option<Json> {
      if key in values then Some(values[key]) else None
    }

    /**
     * `obj[key] = value`: an existing key keeps its place in the key order,
     * a new key goes to the end.
     */
    function Put(key: string, value: Json): (r: Fields)
      ensures r.Get(key) == Some(value)
      ensures key in values ==> r.names == names
      ensures key !in values ==> r.names == names + [key]
    {
      Fields(if key in values then names else names + [key], values[key := value])
    }
  }

  const EmptyObject: Fields := Fields([], map[])

  /** Assigning a key changes no other key's value. */
  lemma PutKeepsOthers(f: Fields, key: string, value: Json)
    ensures forall k :: k != key ==> f.Put(key, value).Get(k) == f.Get(k)
  {
  }

  /** Assigning a key keeps an object well formed. */
  lemma PutKeepsValid(f: Fields, key: string, value: Json)
    requires f.Valid()
    ensures f.Put(key, value).Valid()
  {
  }

  /** Two well-formed objects with the same key order and the same lookups are the same object. */
  lemma FieldsExtensional(f: Fields, g: Fields)
    requires f.Valid() && g.Valid()
    requires f.names == g.names
    requires forall k :: f.Get(k) == g.Get(k)
    ensures f == g
  {
    assert forall k :: k in f.values <==> k in g.values;
    forall k | k in f.values
      ensures f.values[k] == g.values[k]
    {
      assert f.Get(k) == g.Get(k);
    }
    assert f.values == g.values;
  }

  /** What `extractRecordInfo` returns and `fetchRecordData` consumes. */
  datatype RecordInfo = RecordInfo(recordId: string, objectType: string, recordName: string, orgUrl: string)

  /** A record with its field data: the source's `RecordData`. */
  datatype Snapshot = Snapshot(id: string, objectType: string, recordName: string, orgUrl: string, fields: Fields)

  /** The five fields every placeholder snapshot starts with, in this order. */
  const BaseFieldNames: seq<string> := ["Id", "Name", "CreatedDate", "LastModifiedDate", "OwnerId"]

  const MockCreatedDate: string := "2024-01-15T10:30:00.000+0000"
  const MockLastModifiedDate: string := "2024-01-16T14:20:00.000+0000"
  const MockOwnerId: string := "0051234567890ABC"

  /** `recordName || 'Sample Record'`: the empty string is falsy. */
  function NameOrDefault(recordName: string): (r: string)
    ensures r != ""
    ensures recordName != "" ==> r == recordName
    ensures recordName == "" ==> r == "Sample Record"
  {
    if recordName != "" then recordName else "Sample Record"
  }

  /** The value a placeholder snapshot gives each base field; `None` for other keys. */
  function BaseValue(info: RecordInfo, key: string): (r: Option<Json>)
    ensures r.Some? <==> key in BaseFieldNames
  {
    if key == "Id" then Some(JString(info.recordId))
    else if key == "Name" then Some(JString(NameOrDefault(info.recordName)))
    else if key == "CreatedDate" then Some(JString(MockCreatedDate))
    else if key == "LastModifiedDate" then Some(JString(MockLastModifiedDate))
    else if key == "OwnerId" then Some(JString(MockOwnerId))
    else None
  }

  /** What a placeholder object holds at `key`: its base value, else the value `extras` gives it. */
  function MockValue(info: RecordInfo, extras: Fields, key: string): Option<Json> {
    if BaseValue(info, key).Some? then BaseValue(info, key) else extras.Get(key)
  }

  /**
   * `fields` is the placeholder object for `info`: the base fields followed by
   * the keys of `extras`, in that order, each holding its base or extra value.
   */
  ghost predicate IsMockObject(info: RecordInfo, extras: Fields, fields: Fields) {
    && fields.Valid()
    && fields.names == BaseFieldNames + extras.names
    && forall k :: fields.Get(k) == MockValue(info, extras, k)
  }

  /** `snap` is the placeholder snapshot for `info`: its identity copied, its fields the placeholder object. */
  ghost predicate IsMock(info: RecordInfo, extras: Fields, snap: Snapshot) {
    && snap.id == info.recordId && snap.objectType == info.objectType
    && snap.recordName == info.recordName && snap.orgUrl == info.orgUrl
    && IsMockObject(info, extras, snap.fields)
  }

  /**
   * Extra fields a builder may add: a well-formed object whose keys are new
   * to the base fields.
   */
  ghost predicate ExtrasFit(extras: Fields) {
    extras.Valid() && Distinct(BaseFieldNames + extras.names)
  }

  /** What a placeholder object holds at `key` once the first `n` extra fields are added. */
  function PartialMockValue(info: RecordInfo, extras: Fields, n: nat, key: string): Option<Json>
    requires n <= |extras.names|
  {
    if BaseValue(info, key).Some? then BaseValue(info, key)
    else if key in extras.names[..n] then extras.Get(key)
    else None
  }

  /** `fields` is the placeholder object for `info` part way through: the base fields and the first `n` extras. */
  ghost predicate IsPartialMock(info: RecordInfo, extras: Fields, n: nat, fields: Fields)
    requires n <= |extras.names|
  {
    && fields.Valid()
    && fields.names == BaseFieldNames + extras.names[..n]
    && forall k :: fields.Get(k) == PartialMockValue(info, extras, n, k)
  }

  /** Assigning the next extra field extends a partial placeholder object by one key. */
  lemma MockStep(info: RecordInfo, extras: Fields, n: nat, fields: Fields, key: string, value: Json)
    requires ExtrasFit(extras) && n < |extras.names|
    requires extras.names[n] == key && extras.Get(key) == Some(value)
    requires IsPartialMock(info, extras, n, fields)
    ensures IsPartialMock(info, extras, n + 1, fields.Put(key, value))
  {
    var r := fields.Put(key, value);
    assert extras.names[..n + 1] == extras.names[..n] + [key];
    assert key !in BaseFieldNames by {
      forall i | 0 <= i < 5
        ensures BaseFieldNames[i] != key
      {
        assert (BaseFieldNames + extras.names)[i] == BaseFieldNames[i];
        assert (BaseFieldNames + extras.names)[5 + n] == key;
      }
    }
    assert key !in extras.names[..n] by {
      forall i | 0 <= i < n
        ensures extras.names[i] != key
      {
        assert (BaseFieldNames + extras.names)[5 + i] == extras.names[i];
        assert (BaseFieldNames + extras.names)[5 + n] == key;
      }
    }
    assert key !in fields.values;
    PutKeepsValid(fields, key, value);
    PutKeepsOthers(fields, key, value);
    forall k
      ensures r.Get(k) == PartialMockValue(info, extras, n + 1, k)
    {
      if k != key {
        assert r.Get(k) == fields.Get(k);
        assert fields.Get(k) == PartialMockValue(info, extras, n, k);
      }
    }
  }

  /** `mockFieldData[key] = value` for the next extra field of a placeholder object under construction. */
  method AddMockField(ghost info: RecordInfo, ghost extras: Fields, ghost n: nat, fields: Fields, key: string, value: Json)
    returns (r: Fields)
    requires ExtrasFit(extras) && n < |extras.names|
    requires extras.names[n] == key && extras.Get(key) == Some(value)
    requires IsPartialMock(info, extras, n, fields)
    ensures IsPartialMock(info, extras, n + 1, r)
  {
    MockStep(info, extras, n, fields, key, value);
    r := fields.Put(key, value);
  }

  /** Once every extra field is added, the partial placeholder object is the placeholder object. */
  lemma MockDone(info: RecordInfo, extras: Fields, fields: Fields)
    requires ExtrasFit(extras)
    requires IsPartialMock(info, extras, |extras.names|, fields)
    ensures IsMockObject(info, extras, fields)
  {
    assert extras.names[..|extras.names|] == extras.names;
    forall k
      ensures fields.Get(k) == MockValue(info, extras, k)
    {
      assert fields.Get(k) == PartialMockValue(info, extras, |extras.names|, k);
      assert extras.Get(k).Some? <==> k in extras.names;
    }
  }

  /** The base object is the start of every placeholder object: no extra field added yet. */
  lemma MockStart(info: RecordInfo, extras: Fields)
    ensures IsPartialMock(info, extras, 0, MockBaseObject(info))
  {
    var r := MockBaseObject(info);
    assert extras.names[..0] == [];
    assert BaseFieldNames + extras.names[..0] == BaseFieldNames;
    forall k
      ensures r.Get(k) == PartialMockValue(info, extras, 0, k)
    {
      assert r.Get(k) == MockValue(info, EmptyObject, k);
    }
  }

  /** A placeholder snapshot is determined by its record and its extra fields. */
  lemma MockIsUnique(info: RecordInfo, extras: Fields, a: Snapshot, b: Snapshot)
    requires IsMock(info, extras, a) && IsMock(info, extras, b)
    ensures a == b
  {
    FieldsExtensional(a.fields, b.fields);
  }

  /** The base fields of every placeholder snapshot: the id, the name or its default, and three constants, first. */
  lemma MockBaseFields(info: RecordInfo, extras: Fields, snap: Snapshot)
    requires IsMock(info, extras, snap)
    ensures snap.fields.Get("Id") == Some(JString(info.recordId))
    ensures snap.fields.Get("Name") == Some(JString(NameOrDefault(info.recordName)))
    ensures snap.fields.Get("CreatedDate") == Some(JString(MockCreatedDate))
    ensures snap.fields.Get("LastModifiedDate") == Some(JString(MockLastModifiedDate))
    ensures snap.fields.Get("OwnerId") == Some(JString(MockOwnerId))
    ensures snap.fields.names[..5] == BaseFieldNames
  {
    var get := snap.fields.Get;
    assert get("Id") == BaseValue(info, "Id");
    assert get("Name") == BaseValue(info, "Name");
    assert get("CreatedDate") == BaseValue(info, "CreatedDate");
    assert get("LastModifiedDate") == BaseValue(info, "LastModifiedDate");
    assert get("OwnerId") == BaseValue(info, "OwnerId");
    assert (BaseFieldNames + extras.names)[..5] == BaseFieldNames;
  }

  lemma BaseFieldNamesDistinct()
    ensures Distinct(BaseFieldNames)
  {
  }

  /** The object literal both placeholder builders start from: the five base fields in order. */
  function MockBaseObject(info: RecordInfo): (r: Fields)
    ensures IsMockObject(info, EmptyObject, r)
  {
    var r := Fields(BaseFieldNames, map[
      "Id" := JString(info.recordId),
      "Name" := JString(NameOrDefault(info.recordName)),
      "CreatedDate" := JString(MockCreatedDate),
      "LastModifiedDate" := JString(MockLastModifiedDate),
      "OwnerId" := JString(MockOwnerId)]);
    BaseFieldNamesDistinct();
    assert BaseFieldNames + EmptyObject.names == BaseFieldNames;
    assert forall k :: k in r.values <==> k in BaseFieldNames;
    assert forall k :: r.Get(k) == MockValue(info, EmptyObject, k) by {
      forall k
        ensures r.Get(k) == MockValue(info, EmptyObject, k)
      {
        if k !in BaseFieldNames {
          assert k !in r.values;
        }
      }
    }
    r
  }
}
