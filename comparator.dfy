/**
 * The popup component: its comparison session (the React state `sourceRecord`,
 * `targetRecord`, `comparison` and `error`, with the setters as field writes),
 * `formatValue`, the "is this a CRM tab" test, the copy of `extractRecordInfo`
 * it injects into the page and its placeholder `fetchRecordData`.
 */
module Comparator {

  import opened Wrappers
  import opened Json
  import opened Text
  import opened Records
  import opened FieldDiff
  import opened UrlPatterns

  const MissingRecordsError: string := "Please select both source and target records"
  const TypeMismatchError: string := "Records must be of the same object type to compare"
  const NotDetectedError: string := "Could not detect Salesforce record on this page"
  const SourceErrorPrefix: string := "Error selecting source record: "
  const TargetErrorPrefix: string := "Error selecting target record: "

  /**
   * How an attempt to pick up the record of the active tab ended, as the popup
   * sees it: a snapshot, no result from the injected script, or an exception
   * with its message (the extension APIs missing, the injection failing).
   */
  datatype Selection = Fetched(data: Snapshot) | NotDetected | Failed(message: string)

  class Session {
    var sourceRecord: Option<Snapshot>
    var targetRecord: Option<Snapshot>
    var comparison: Option<Comparison>
    var error: string

    constructor ()
      ensures sourceRecord == None && targetRecord == None
      ensures comparison == None && error == ""
    {
      sourceRecord := None;
      targetRecord := None;
      comparison := None;
      error := "";
    }

    /** `selectSourceRecord`: clears the error, then stores the snapshot or reports why there is none. */
    method SelectSource(outcome: Selection)
      modifies this
      ensures targetRecord == old(targetRecord) && comparison == old(comparison)
      ensures outcome.Fetched? ==> sourceRecord == Some(outcome.data) && error == ""
      ensures outcome.NotDetected? ==> sourceRecord == old(sourceRecord) && error == NotDetectedError
      ensures outcome.Failed? ==>
        sourceRecord == old(sourceRecord) && error == SourceErrorPrefix + outcome.message
    {
      error := "";
      match outcome
      case Fetched(data) => sourceRecord := Some(data);
      case NotDetected => error := NotDetectedError;
      case Failed(message) => error := SourceErrorPrefix + message;
    }

    /** `selectTargetRecord`: the same for the target side. */
    method SelectTarget(outcome: Selection)
      modifies this
      ensures sourceRecord == old(sourceRecord) && comparison == old(comparison)
      ensures outcome.Fetched? ==> targetRecord == Some(outcome.data) && error == ""
      ensures outcome.NotDetected? ==> targetRecord == old(targetRecord) && error == NotDetectedError
      ensures outcome.Failed? ==>
        targetRecord == old(targetRecord) && error == TargetErrorPrefix + outcome.message
    {
      error := "";
      match outcome
      case Fetched(data) => targetRecord := Some(data);
      case NotDetected => error := NotDetectedError;
      case Failed(message) => error := TargetErrorPrefix + message;
    }

    /**
     * `compareRecords`: with both records present and of one object type, the
     * comparison becomes the field diff and the error is cleared; otherwise
     * only the error changes. The records themselves are never touched.
     */
    method CompareRecords()
      modifies this
      ensures sourceRecord == old(sourceRecord) && targetRecord == old(targetRecord)
      ensures old(sourceRecord).None? || old(targetRecord).None? ==>
        error == MissingRecordsError && comparison == old(comparison)
      ensures (old(sourceRecord).Some? && old(targetRecord).Some?
               && old(sourceRecord).value.objectType != old(targetRecord).value.objectType) ==>
        error == TypeMismatchError && comparison == old(comparison)
      ensures (old(sourceRecord).Some? && old(targetRecord).Some?
               && old(sourceRecord).value.objectType == old(targetRecord).value.objectType) ==>
        error == ""
        && comparison == Some(Diff(old(sourceRecord).value.fields, old(targetRecord).value.fields))
      ensures (old(sourceRecord).Some? && old(targetRecord).Some?
               && old(sourceRecord).value.objectType == old(targetRecord).value.objectType
               && old(sourceRecord).value.fields.Valid() && old(targetRecord).value.fields.Valid()) ==>
        forall k :: Occurrences(comparison.value, k) ==
          if k in old(sourceRecord).value.fields.values || k in old(targetRecord).value.fields.values then 1 else 0
    {
      if sourceRecord.None? || targetRecord.None? {
        error := MissingRecordsError;
        return;
      }
      var s := sourceRecord.value;
      var t := targetRecord.value;
      if s.objectType != t.objectType {
        error := TypeMismatchError;
        return;
      }

      var different: seq<Change> := [];
      var same: seq<Entry> := [];
      var sourceOnly: seq<Entry> := [];
      var targetOnly: seq<Entry> := [];
      var allFields := InsertionOrder(s.fields.names + t.fields.names);
      var i := 0;
      while i < |allFields|
        invariant 0 <= i <= |allFields|
        invariant Comparison(different, same, sourceOnly, targetOnly) == DiffOver(allFields[..i], s.fields, t.fields)
      {
        var field := allFields[i];
        var sourceValue := s.fields.Get(field);
        var targetValue := t.fields.Get(field);
        if sourceValue.Some? && targetValue.Some? {
          if sourceValue.value == targetValue.value {
            same := same + [Entry(field, sourceValue.value)];
          } else {
            different := different + [Change(field, sourceValue.value, targetValue.value)];
          }
        } else if sourceValue.Some? {
          sourceOnly := sourceOnly + [Entry(field, sourceValue.value)];
        } else if targetValue.Some? {
          targetOnly := targetOnly + [Entry(field, targetValue.value)];
        }
        assert allFields[..i + 1][..i] == allFields[..i];
        i := i + 1;
      }
      assert allFields[..i] == allFields;

      comparison := Some(Comparison(different, same, sourceOnly, targetOnly));
      error := "";
      if s.fields.Valid() && t.fields.Valid() {
        DiffPartitionsKeys(s.fields, t.fields);
      }
    }

    /** `clearRecords`: forget both records and the comparison; the error message stays. */
    method ClearRecords()
      modifies this
      ensures sourceRecord == None && targetRecord == None && comparison == None
      ensures error == old(error)
    {
      sourceRecord := None;
      targetRecord := None;
      comparison := None;
    }
  }

  /**
   * `formatValue`: `null` prints as "null", arrays and objects as the
   * pretty-printed JSON `pretty` stands for, and primitives as `String(value)`.
   */
  function FormatValue(v: Json, pretty: Json -> string): (r: string)
    ensures v.JNull? ==> r == "null"
    ensures v.JArray? || v.JObject? ==> r == pretty(v)
    ensures v.JString? ==> r == v.s
    ensures v.JBool? ==> (r == "true" <==> v.b) && (r == "false" <==> !v.b)
    ensures v.JNumber? ==> ParseInt(r) == Some(v.n)
  {
    match v
    case JNull => "null"
    case JArray(_) => pretty(v)
    case JObject(_) => pretty(v)
    case JBool(b) => if b then "true" else "false"
    case JNumber(n) => IntToStringRoundTrip(n); IntToString(n)
    case JString(s) => s
  }

  /**
   * `isSalesforceTab`: any of `salesforce.com`, `force.com` or
   * `lightning.force.com` in the URL, which is the same as `force.com` in it.
   */
  function IsSalesforceUrl(url: string): (r: bool)
    ensures r <==> Contains(url, "force.com")
  {
    assert OccursAt("salesforce.com", "force.com", 5);
    assert OccursAt("lightning.force.com", "force.com", 10);
    assert Contains(url, "salesforce.com") ==> Contains(url, "force.com") by {
      if Contains(url, "salesforce.com") {
        ContainsTransitive(url, "salesforce.com", "force.com");
      }
    }
    assert Contains(url, "lightning.force.com") ==> Contains(url, "force.com") by {
      if Contains(url, "lightning.force.com") {
        ContainsTransitive(url, "lightning.force.com", "force.com");
      }
    }
    Contains(url, "salesforce.com") || Contains(url, "force.com") || Contains(url, "lightning.force.com")
  }

  // ---------------------------------------------------------------------------
  // The popup's copy of extractRecordInfo

  const LightningNameSelectors: seq<string> := [
    "h1[data-aura-class=\"uiOutputText\"]",
    ".slds-page-header__title",
    "[data-testid=\"slds-page-header__title\"]"
  ]

  const ClassicNameSelectors: seq<string> := [".pageDescription", "h1.noSecondHeader", ".bPageTitle"]

  const NoRecordIdError: string := "Could not extract record ID from current page"

  /** The Classic object type checks, in the order they are tried. */
  const ClassicUrlMarkers: seq<(string, string)> := [
    ("/001", "Account"), ("/003", "Contact"), ("/006", "Opportunity"), ("/00Q", "Lead"), ("/500", "Case")
  ]

  /** The type of the first marker the URL contains; '' when it contains none. */
  function FirstMarker(url: string, markers: seq<(string, string)>): (r: string)
    requires forall i :: 0 <= i < |markers| ==> markers[i].1 != ""
    ensures r == "" <==> forall i :: 0 <= i < |markers| ==> !Contains(url, markers[i].0)
    ensures r != "" ==> (exists i :: 0 <= i < |markers| && Contains(url, markers[i].0) && r == markers[i].1
                           && forall j :: 0 <= j < i ==> !Contains(url, markers[j].0))
    decreases |markers|
  {
    if markers == [] then ""
    else if Contains(url, markers[0].0) then markers[0].1
    else
      var r := FirstMarker(url, markers[1..]);
      assert forall j :: 1 <= j < |markers| ==> markers[j] == markers[1..][j - 1];
      if r != "" then
        var i :| 0 <= i < |markers| - 1 && Contains(url, markers[1..][i].0) && r == markers[1..][i].1
          && forall j :: 0 <= j < i ==> !Contains(url, markers[1..][j].0);
        assert Contains(url, markers[i + 1].0) && r == markers[i + 1].1;
        r
      else r
  }

  /** The Classic object type as the popup derives it, from substrings of the whole URL. */
  function ClassicTypeFromUrl(url: string): (r: string)
    ensures r == "" <==>
      !Contains(url, "/001") && !Contains(url, "/003") && !Contains(url, "/006")
      && !Contains(url, "/00Q") && !Contains(url, "/500")
    ensures Contains(url, "/001") ==> r == "Account"
    ensures r in {"", "Account", "Contact", "Opportunity", "Lead", "Case"}
  {
    var r := FirstMarker(url, ClassicUrlMarkers);
    assert forall i :: 0 <= i < |ClassicUrlMarkers| ==> ClassicUrlMarkers[i].1 in {"Account", "Contact", "Opportunity", "Lead", "Case"};
    assert r != "" ==> Contains(url, "/001") ==> r == "Account" by {
      if r != "" {
        var i :| 0 <= i < |ClassicUrlMarkers| && Contains(url, ClassicUrlMarkers[i].0) && r == ClassicUrlMarkers[i].1
          && forall j :: 0 <= j < i ==> !Contains(url, ClassicUrlMarkers[j].0);
        assert Contains(url, "/001") ==> i == 0;
      }
    }
    r
  }

  /** The marker table read as the popup's chain of checks: the first check that holds sets the type. */
  lemma ClassicTypeIsFirstCheck(url: string)
    ensures ClassicTypeFromUrl(url) ==
      if Contains(url, "/001") then "Account"
      else if Contains(url, "/003") then "Contact"
      else if Contains(url, "/006") then "Opportunity"
      else if Contains(url, "/00Q") then "Lead"
      else if Contains(url, "/500") then "Case"
      else ""
  {
    assert ClassicUrlMarkers[0].0 == "/001" && ClassicUrlMarkers[1].0 == "/003";
    assert ClassicUrlMarkers[2].0 == "/006" && ClassicUrlMarkers[3].0 == "/00Q";
    assert ClassicUrlMarkers[4].0 == "/500";
    assert ClassicUrlMarkers[1..][1..][1..][1..][1..] == [];
  }

  /** What the popup's `extractRecordInfo` returns or throws for a page. */
  function Extraction(page: Page): (r: Result<RecordInfo>)
    ensures r.Err? ==> r.message == NoRecordIdError
    ensures r.Ok? ==> && 15 <= |r.value.recordId| <= 18 && AllWordChars(r.value.recordId)
                      && r.value.orgUrl == page.origin
    ensures r.Ok? <==> ((IsLightningUrl(page.href) && MatchLightning(page.href).Some?)
                        || (IsClassicUrl(page.href) && MatchClassic(page.href).Some?))
  {
    var url := page.href;
    MatchedIdsAreWellFormed(url);
    if IsLightningUrl(url) then
      match MatchLightning(url)
      case Some((objectType, recordId)) =>
        Ok(RecordInfo(recordId, objectType, RecordName(page.probe, LightningNameSelectors), page.origin))
      case None => Err(NoRecordIdError)
    else if IsClassicUrl(url) then
      match MatchClassic(url)
      case Some(recordId) =>
        Ok(RecordInfo(recordId, ClassicTypeFromUrl(url), RecordName(page.probe, ClassicNameSelectors), page.origin))
      case None => Err(NoRecordIdError)
    else Err(NoRecordIdError)
  }

  /** The popup's chain of URL checks for the Classic object type; '' when none holds. */
  method ClassicObjectType(url: string) returns (objectType: string)
    ensures objectType == ClassicTypeFromUrl(url)
  {
    objectType := "";
    if Contains(url, "/001") {
      objectType := "Account";
    } else if Contains(url, "/003") {
      objectType := "Contact";
    } else if Contains(url, "/006") {
      objectType := "Opportunity";
    } else if Contains(url, "/00Q") {
      objectType := "Lead";
    } else if Contains(url, "/500") {
      objectType := "Case";
    }
    ClassicTypeIsFirstCheck(url);
  }

  /** `extractRecordInfo` as the popup injects it: fills `let` variables branch by branch, then throws or returns. */
  method ExtractRecordInfo(page: Page) returns (r: Result<RecordInfo>)
    ensures r == Extraction(page)
  {
    var url := page.href;
    var recordId := "";
    var objectType := "";
    var recordName := "";
    MatchedIdsAreWellFormed(url);

    if Contains(url, "lightning.force.com") || Contains(url, "/lightning/") {
      var lightningMatch := MatchLightning(url);
      if lightningMatch.Some? {
        objectType := lightningMatch.value.0;
        recordId := lightningMatch.value.1;
      }
      assert recordId == "" <==> MatchLightning(url).None?;
      recordName := ProbeName(page.probe, LightningNameSelectors);
      assert IsLightningUrl(url);
    } else if Contains(url, "salesforce.com") && !Contains(url, "lightning") {
      var classicMatch := MatchClassic(url);
      if classicMatch.Some? {
        recordId := classicMatch.value;
      }
      assert recordId == "" <==> MatchClassic(url).None?;
      objectType := ClassicObjectType(url);
      recordName := ProbeName(page.probe, ClassicNameSelectors);
      assert IsClassicUrl(url);
    }

    if recordId == "" {
      return Err(NoRecordIdError);
    }
    return Ok(RecordInfo(recordId, objectType, recordName, page.origin));
  }

  /**
   * In the Lightning branch the record is found exactly when the pattern
   * matches, and the type and id are its captures.
   */
  lemma LightningExtraction(page: Page)
    requires IsLightningUrl(page.href)
    ensures Extraction(page).Ok? <==> MatchLightning(page.href).Some?
    ensures Extraction(page).Ok? ==>
      (Extraction(page).value.objectType, Extraction(page).value.recordId) == MatchLightning(page.href).value
      && Extraction(page).value.recordName == RecordName(page.probe, LightningNameSelectors)
  {
  }

  /**
   * In the Classic branch the id is the Classic match and the type comes from
   * the first of `/001`, `/003`, `/006`, `/00Q`, `/500` in the URL, '' if none.
   */
  lemma ClassicExtraction(page: Page)
    requires IsClassicUrl(page.href)
    ensures Extraction(page).Ok? <==> MatchClassic(page.href).Some?
    ensures Extraction(page).Ok? ==>
      && Extraction(page).value.recordId == MatchClassic(page.href).value
      && Extraction(page).value.objectType == ClassicTypeFromUrl(page.href)
      && Extraction(page).value.recordName == RecordName(page.probe, ClassicNameSelectors)
  {
  }

  /** Off the two kinds of record page, extraction throws. */
  lemma NoBranchThrows(page: Page)
    requires !IsLightningUrl(page.href) && !IsClassicUrl(page.href)
    ensures Extraction(page) == Err(NoRecordIdError)
  {
  }

  /** `https://org.lightning.force.com/lightning/r/Account/001ABCDEFGHIJKL` gives `Account` and `001ABCDEFGHIJKL`. */
  lemma LightningExample(page: Page)
    requires page.href == Scheme + "org.lightning.force.com" + LightningRecordPath + "Account" + "/" + "001ABCDEFGHIJKL"
    ensures Extraction(page) ==
      Ok(RecordInfo("001ABCDEFGHIJKL", "Account", RecordName(page.probe, LightningNameSelectors), page.origin))
  {
    LightningRecordUrl("org.lightning.force.com", "Account", "001ABCDEFGHIJKL", "");
    assert page.href + "" == page.href;
  }

  /** The popup's placeholder `fetchRecordData`: `Id` and `Name`, with the name taken as it is. */
  function FetchRecordData(info: RecordInfo): (r: Snapshot)
    ensures r.id == info.recordId && r.objectType == info.objectType
    ensures r.recordName == info.recordName && r.orgUrl == info.orgUrl
    ensures r.fields.Valid() && r.fields.names == ["Id", "Name"]
    ensures r.fields.Get("Id") == Some(JString(info.recordId))
    ensures r.fields.Get("Name") == Some(JString(info.recordName))
  {
    var fields := Fields(["Id", "Name"], map["Id" := JString(info.recordId), "Name" := JString(info.recordName)]);
    Snapshot(info.recordId, info.objectType, info.recordName, info.orgUrl, fields)
  }
}
