/**
 * The placeholder snapshots the extension can produce, compared field by
 * field with the popup's own differ: the REST helper's, the background
 * worker's and the popup's two-field stand-in.
 */
module MockParity {

  import opened Wrappers
  import opened Json
  import opened Records
  import opened FieldDiff
  import SalesforceApi
  import Background
  import Comparator

  /** Table `b` is table `a` with some final fields left out, and agrees with it on the fields it keeps. */
  ghost predicate TablePrefix(a: Fields, b: Fields) {
    && |b.names| <= |a.names| && b.names == a.names[..|b.names|]
    && forall k :: k in b.names ==> b.Get(k) == a.Get(k)
  }

  /** The fields only the REST helper's placeholder has, by object type. */
  function ApiOnlyFields(objectType: string): seq<string> {
    if objectType == "Account" then ["BillingCity", "BillingState"]
    else if objectType == "Contact" then ["Department"]
    else if objectType == "Opportunity" then ["Probability"]
    else []
  }

  lemma AccountTablesAgree()
    ensures TablePrefix(SalesforceApi.AccountExtras, Background.AccountExtras)
    ensures SalesforceApi.AccountExtras.names[|Background.AccountExtras.names|..] == ApiOnlyFields("Account")
  {
  }

  lemma ContactTablesAgree()
    ensures TablePrefix(SalesforceApi.ContactExtras, Background.ContactExtras)
    ensures SalesforceApi.ContactExtras.names[|Background.ContactExtras.names|..] == ApiOnlyFields("Contact")
  {
  }

  lemma OpportunityTablesAgree()
    ensures TablePrefix(SalesforceApi.OpportunityExtras, Background.OpportunityExtras)
    ensures SalesforceApi.OpportunityExtras.names[|Background.OpportunityExtras.names|..] == ApiOnlyFields("Opportunity")
  {
  }

  /**
   * For every object type the background worker's table is the REST helper's
   * with its last fields left out, and the left-out fields are `ApiOnlyFields`.
   */
  lemma TablesAgree(objectType: string)
    ensures TablePrefix(SalesforceApi.ExtraFields(objectType), Background.ExtraFields(objectType))
    ensures SalesforceApi.ExtraFields(objectType).names[|Background.ExtraFields(objectType).names|..]
      == ApiOnlyFields(objectType)
  {
    if objectType == "Account" {
      AccountTablesAgree();
    } else if objectType == "Contact" {
      ContactTablesAgree();
    } else if objectType == "Opportunity" {
      OpportunityTablesAgree();
    }
  }

  /** Placeholder objects over prefix tables are themselves a prefix, agreeing on what they share. */
  lemma MockObjectsPrefix(info: RecordInfo, a: Fields, b: Fields, fa: Fields, fb: Fields)
    requires TablePrefix(a, b)
    requires IsMockObject(info, a, fa) && IsMockObject(info, b, fb)
    ensures |fb.names| <= |fa.names| && fb.names == fa.names[..|fb.names|]
    ensures fa.names[|fb.names|..] == a.names[|b.names|..]
    ensures forall k :: k in fb.names ==> fb.Get(k) == fa.Get(k)
  {
    assert fa.names == BaseFieldNames + a.names;
    assert a.names == b.names + a.names[|b.names|..];
    assert fa.names == (BaseFieldNames + b.names) + a.names[|b.names|..];
    forall k | k in fb.names
      ensures fb.Get(k) == fa.Get(k)
    {
      assert fb.Get(k) == MockValue(info, b, k);
      assert fa.Get(k) == MockValue(info, a, k);
      if BaseValue(info, k).None? {
        assert k in b.names;
      }
    }
  }

  /**
   * Loading a record as the REST helper does and as the background worker
   * does, then comparing the two: nothing differs and nothing is only in the
   * worker's; the worker's fields are all shared, and the REST helper has
   * `ApiOnlyFields` over, with its own values.
   */
  lemma ApiVersusBackground(info: RecordInfo, api: Snapshot, bg: Snapshot)
    requires IsMock(info, SalesforceApi.ExtraFields(info.objectType), api)
    requires IsMock(info, Background.ExtraFields(info.objectType), bg)
    ensures Diff(api.fields, bg.fields).different == []
    ensures Diff(api.fields, bg.fields).targetOnly == []
    ensures EntryNames(Diff(api.fields, bg.fields).same) == bg.fields.names
    ensures EntryNames(Diff(api.fields, bg.fields).sourceOnly) == ApiOnlyFields(info.objectType)
  {
    var a := SalesforceApi.ExtraFields(info.objectType);
    var b := Background.ExtraFields(info.objectType);
    TablesAgree(info.objectType);
    MockObjectsPrefix(info, a, b, api.fields, bg.fields);
    DiffOfPrefix(api.fields, bg.fields);
  }

  /**
   * The popup's stand-in for a named record, compared with the REST helper's
   * placeholder: `Id` and `Name` agree and everything else is only in the
   * placeholder, in its order.
   */
  lemma PopupVersusApi(info: RecordInfo, api: Snapshot)
    requires info.recordName != ""
    requires IsMock(info, SalesforceApi.ExtraFields(info.objectType), api)
    ensures Diff(api.fields, Comparator.FetchRecordData(info).fields).different == []
    ensures Diff(api.fields, Comparator.FetchRecordData(info).fields).targetOnly == []
    ensures EntryNames(Diff(api.fields, Comparator.FetchRecordData(info).fields).same) == ["Id", "Name"]
    ensures EntryNames(Diff(api.fields, Comparator.FetchRecordData(info).fields).sourceOnly)
      == ["CreatedDate", "LastModifiedDate", "OwnerId"] + SalesforceApi.ExtraFields(info.objectType).names
  {
    var popup := Comparator.FetchRecordData(info).fields;
    var a := SalesforceApi.ExtraFields(info.objectType);
    PopupNames(info, a, api.fields);
    PopupValues(info, a, api.fields);
    DiffOfPrefix(api.fields, popup);
  }

  /** The popup's stand-in has a placeholder object's first two keys. */
  lemma PopupNames(info: RecordInfo, a: Fields, f: Fields)
    requires IsMockObject(info, a, f)
    ensures var popup := Comparator.FetchRecordData(info).fields;
      && |popup.names| <= |f.names| && popup.names == f.names[..|popup.names|]
      && f.names[|popup.names|..] == ["CreatedDate", "LastModifiedDate", "OwnerId"] + a.names
  {
    BaseNamesSplit(a.names);
  }

  /** On a named record the popup's stand-in holds what a placeholder object holds at each of its keys. */
  lemma PopupValues(info: RecordInfo, a: Fields, f: Fields)
    requires info.recordName != ""
    requires IsMockObject(info, a, f)
    ensures var popup := Comparator.FetchRecordData(info).fields;
      forall k :: k in popup.names ==> popup.Get(k) == f.Get(k)
  {
    var popup := Comparator.FetchRecordData(info).fields;
    assert f.Get("Id") == MockValue(info, a, "Id");
    assert f.Get("Name") == MockValue(info, a, "Name");
  }

  lemma BaseNamesSplit(extra: seq<string>)
    ensures (BaseFieldNames + extra)[..2] == ["Id", "Name"]
    ensures (BaseFieldNames + extra)[2..] == ["CreatedDate", "LastModifiedDate", "OwnerId"] + extra
  {
  }
}
