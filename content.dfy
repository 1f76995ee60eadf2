/**
 * The content script: its copy of `extractRecordInfo`, which types Classic
 * records by the prefix of their id, and the `getRecordInfo` message that
 * wraps the outcome as `{success, data}` or `{success, error}`.
 */
module Content {

  import opened Wrappers
  import opened Text
  import opened UrlPatterns

  /** What this copy of `extractRecordInfo` returns: the popup's fields plus `fullUrl`. */
  datatype PageInfo = PageInfo(recordId: string, objectType: string, recordName: string, orgUrl: string, fullUrl: string)

  const LightningNameSelectors: seq<string> := [
    "h1[data-aura-class=\"uiOutputText\"]",
    ".slds-page-header__title",
    "[data-testid=\"slds-page-header__title\"]",
    "lightning-formatted-text[data-output-element-id=\"output-field\"]"
  ]

  const ClassicNameSelectors: seq<string> := [".pageDescription", "h1.noSecondHeader", ".bPageTitle", "h2.mainTitle"]

  const NoRecordIdError: string :=
    "Could not extract record ID from current page. Please make sure you are on a Salesforce record page."

  const UnknownType: string := "Unknown"

  /** The key prefixes of the standard objects the script knows. */
  const ObjectPrefixes: map<string, string> := map[
    "001" := "Account", "003" := "Contact", "006" := "Opportunity", "00Q" := "Lead", "500" := "Case",
    "0Q0" := "Quote", "701" := "Campaign", "00T" := "Task", "00U" := "Event"
  ]

  /** `recordId.substring(0, 3)`. */
  function IdPrefix(recordId: string): (r: string)
    ensures |r| == Min(3, |recordId|) && r == recordId[..|r|]
  {
    recordId[..Min(3, |recordId|)]
  }

  /** `objectMap[idPrefix] || 'Unknown'`: the table's type, and 'Unknown' for any other prefix. */
  function ObjectTypeForPrefix(prefix: string): (r: string)
    ensures r != ""
    ensures prefix in ObjectPrefixes ==> r == ObjectPrefixes[prefix]
    ensures r == UnknownType <==> prefix !in ObjectPrefixes
  {
    if prefix in ObjectPrefixes && ObjectPrefixes[prefix] != "" then ObjectPrefixes[prefix] else UnknownType
  }

  /** What the content script's `extractRecordInfo` returns or throws for a page. */
  function Extraction(page: Page): (r: Result<PageInfo>)
    ensures r.Err? ==> r.message == NoRecordIdError
    ensures r.Ok? ==> && 15 <= |r.value.recordId| <= 18 && AllWordChars(r.value.recordId)
                      && r.value.orgUrl == page.origin && r.value.fullUrl == page.href
    ensures r.Ok? <==> ((IsLightningUrl(page.href) && MatchLightning(page.href).Some?)
                        || (IsClassicUrl(page.href) && MatchClassic(page.href).Some?))
    ensures r.Ok? && IsClassicUrl(page.href) ==> r.value.objectType != ""
  {
    var url := page.href;
    MatchedIdsAreWellFormed(url);
    if IsLightningUrl(url) then
      match MatchLightning(url)
      case Some((objectType, recordId)) =>
        Ok(PageInfo(recordId, objectType, RecordName(page.probe, LightningNameSelectors), page.origin, url))
      case None => Err(NoRecordIdError)
    else if IsClassicUrl(url) then
      match MatchClassic(url)
      case Some(recordId) =>
        Ok(PageInfo(recordId, ObjectTypeForPrefix(IdPrefix(recordId)),
                    RecordName(page.probe, ClassicNameSelectors), page.origin, url))
      case None => Err(NoRecordIdError)
    else Err(NoRecordIdError)
  }

  /** `extractRecordInfo` as the content script runs it, assigning its locals branch by branch. */
  method ExtractRecordInfo(page: Page) returns (r: Result<PageInfo>)
    ensures r == Extraction(page)
  {
    var url := page.href;
    var recordId := "";
    var objectType := "";
    var recordName := "";
    MatchedIdsAreWellFormed(url);

    if Contains(url, "lightning.force.com") || Contains(url, "/lightning/") {
      var lightningMatch := MatchLightning(url);
      if lightningMatch.Some? {
        objectType := lightningMatch.value.0;
        recordId := lightningMatch.value.1;
      }
      recordName := ProbeName(page.probe, LightningNameSelectors);
    } else if Contains(url, "salesforce.com") && !Contains(url, "lightning") {
      var classicMatch := MatchClassic(url);
      if classicMatch.Some? {
        recordId := classicMatch.value;
      }
      var idPrefix := recordId[..Min(3, |recordId|)];
      if idPrefix in ObjectPrefixes && ObjectPrefixes[idPrefix] != "" {
        objectType := ObjectPrefixes[idPrefix];
      } else {
        objectType := UnknownType;
      }
      recordName := ProbeName(page.probe, ClassicNameSelectors);
    }

    if recordId == "" {
      return Err(NoRecordIdError);
    }
    return Ok(PageInfo(recordId, objectType, recordName, page.origin, url));
  }

  /** In the Lightning branch the type and id are the pattern's captures; with no match it throws. */
  lemma LightningExtraction(page: Page)
    requires IsLightningUrl(page.href)
    ensures Extraction(page).Ok? <==> MatchLightning(page.href).Some?
    ensures Extraction(page).Ok? ==>
      (Extraction(page).value.objectType, Extraction(page).value.recordId) == MatchLightning(page.href).value
      && Extraction(page).value.recordName == RecordName(page.probe, LightningNameSelectors)
  {
  }

  /** In the Classic branch the type comes from the table entry for the id's first three characters. */
  lemma ClassicExtraction(page: Page)
    requires IsClassicUrl(page.href)
    ensures Extraction(page).Ok? <==> MatchClassic(page.href).Some?
    ensures Extraction(page).Ok? ==>
      && Extraction(page).value.recordId == MatchClassic(page.href).value
      && Extraction(page).value.objectType == ObjectTypeForPrefix(Extraction(page).value.recordId[..3])
      && Extraction(page).value.recordName == RecordName(page.probe, ClassicNameSelectors)
  {
    MatchedIdsAreWellFormed(page.href);
  }

  /** Off the two kinds of record page, extraction throws. */
  lemma NoBranchThrows(page: Page)
    requires !IsLightningUrl(page.href) && !IsClassicUrl(page.href)
    ensures Extraction(page) == Err(NoRecordIdError)
  {
  }

  const OrgClassicPrefix: string := Scheme + "org.salesforce.com" + "/"

  lemma OrgClassicPrefixShape()
    ensures NoChar(OrgClassicPrefix, 'n') && |OrgClassicPrefix| == 27
    ensures OrgClassicPrefix[12..26] == "salesforce.com"
  {
  }

  /** `https://org.salesforce.com/<id>` with no `n` in the id mentions no `lightning`, and it is on `salesforce.com`. */
  lemma OrgClassicUrl(id: string)
    requires NoChar(id, 'n')
    ensures IsClassicUrl(Scheme + "org.salesforce.com" + "/" + id)
  {
    var url := OrgClassicPrefix + id;
    OrgClassicPrefixShape();
    NoCharAppend(OrgClassicPrefix, id, 'n');
    assert "lightning"[5] == 'n' && "/lightning/"[6] == 'n' && "lightning.force.com"[5] == 'n';
    NoCharExcludes(url, "lightning", 'n');
    NoCharExcludes(url, "/lightning/", 'n');
    NoCharExcludes(url, "lightning.force.com", 'n');
    assert OccursAt(url, "salesforce.com", 12) by {
      assert url[12..26] == OrgClassicPrefix[12..26];
    }
  }

  /** `https://org.salesforce.com/<id>` yields the id when it has 15 to 18 word characters. */
  lemma OrgClassicMatch(id: string)
    requires 15 <= |id| <= 18 && AllWordChars(id)
    ensures MatchClassic(Scheme + "org.salesforce.com" + "/" + id) == Some(id)
  {
    var host := "org.salesforce.com";
    assert !IsWordChar(host[3]);
    ClassicRecordUrl(host, id, "");
    assert Scheme + host + "/" + id + "" == Scheme + host + "/" + id;
  }

  /** `https://org.salesforce.com/500ZZZZZZZZZZZZ` is a Classic page of the `Case` record `500ZZZZZZZZZZZZ`. */
  lemma ClassicExample(page: Page)
    requires page.href == Scheme + "org.salesforce.com" + "/" + CaseId
    ensures Extraction(page) ==
      Ok(PageInfo(CaseId, "Case", RecordName(page.probe, ClassicNameSelectors), page.origin, page.href))
  {
    CaseIdShape();
    OrgClassicUrl(CaseId);
    OrgClassicMatch(CaseId);
    ClassicExtraction(page);
  }

  const CaseId: string := "500ZZZZZZZZZZZZ"

  lemma CaseIdShape()
    ensures 15 <= |CaseId| <= 18 && AllWordChars(CaseId) && NoChar(CaseId, 'n')
    ensures ObjectTypeForPrefix(IdPrefix(CaseId)) == "Case"
  {
    assert IdPrefix(CaseId) == "500";
  }

  /** The reply to a popup message. */
  datatype Response = Success(data: PageInfo) | Failure(error: string)

  /**
   * The message listener: a `getRecordInfo` request is answered with the
   * extracted record or the message of the exception; any other request gets
   * no reply.
   */
  function OnMessage(action: string, page: Page): (r: Option<Response>)
    ensures r.None? <==> action != "getRecordInfo"
    ensures action == "getRecordInfo" && Extraction(page).Ok? ==> r == Some(Success(Extraction(page).value))
    ensures action == "getRecordInfo" && Extraction(page).Err? ==> r == Some(Failure(NoRecordIdError))
    ensures r.Some? && r.value.Success? ==>
      r.value.data.fullUrl == page.href && 15 <= |r.value.data.recordId| <= 18
  {
    if action == "getRecordInfo" then
      match Extraction(page)
      case Ok(info) => Some(Success(info))
      case Err(message) => Some(Failure(message))
    else None
  }
}
