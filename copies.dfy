/**
 * The two copies of `extractRecordInfo`, the popup's and the content
 * script's, side by side: where they agree on a page and where they part.
 */
module Copies {

  import opened Wrappers
  import opened Text
  import opened UrlPatterns
  import Comparator
  import Content

  /**
   * Both copies find a record on exactly the same pages, with the same id and
   * origin; on Lightning pages they also agree on the type.
   */
  lemma ExtractionsAgree(page: Page)
    ensures Comparator.Extraction(page).Ok? <==> Content.Extraction(page).Ok?
    ensures Comparator.Extraction(page).Ok? && Content.Extraction(page).Ok? ==>
      && Comparator.Extraction(page).value.recordId == Content.Extraction(page).value.recordId
      && Comparator.Extraction(page).value.orgUrl == Content.Extraction(page).value.orgUrl
    ensures Comparator.Extraction(page).Ok? && Content.Extraction(page).Ok? && IsLightningUrl(page.href) ==>
      Comparator.Extraction(page).value.objectType == Content.Extraction(page).value.objectType
  {
    if IsLightningUrl(page.href) {
      Comparator.LightningExtraction(page);
      Content.LightningExtraction(page);
    } else if IsClassicUrl(page.href) {
      Comparator.ClassicExtraction(page);
      Content.ClassicExtraction(page);
    }
  }

  /** The slash before a Classic id and the id's first three characters occur in the URL. */
  lemma SlashPrefixOccurs(url: string, j: int, recordId: string)
    requires ClassicMatch(url, j, recordId)
    ensures Contains(url, "/" + recordId[..3])
  {
    var m := "/" + recordId[..3];
    forall k | 1 <= k < 4
      ensures url[j + k] == m[k]
    {
      OccursAtChar(url, recordId, j + 1, k - 1);
    }
    assert url[j..j + 4] == m;
    assert OccursAt(url, m, j);
  }

  /** On a Classic page the popup's markers that the id itself supplies: `/` and its first three characters. */
  lemma ClassicIdMarker(url: string)
    requires MatchClassic(url).Some?
    ensures |MatchClassic(url).value| >= 15 && Contains(url, "/" + MatchClassic(url).value[..3])
  {
    MatchedIdsAreWellFormed(url);
    MatchClassicIsLeftmost(url);
    var recordId := MatchClassic(url).value;
    var j :| 0 <= j <= |url| && ClassicMatch(url, j, recordId);
    SlashPrefixOccurs(url, j, recordId);
  }

  /** The markers are `/` and a three-character key prefix, whose type the content script's table gives too. */
  lemma MarkersAreTableEntries(i: int)
    requires 0 <= i < |Comparator.ClassicUrlMarkers|
    ensures var (marker, objectType) := Comparator.ClassicUrlMarkers[i];
      && |marker| == 4 && marker == "/" + marker[1..]
      && Content.ObjectTypeForPrefix(marker[1..]) == objectType
  {
  }

  /** Only a marker's own prefix is typed as that marker's type by the content script's table. */
  lemma TableTypeIsMarkerType(prefix: string, i: int)
    requires 0 <= i < |Comparator.ClassicUrlMarkers|
    requires Content.ObjectTypeForPrefix(prefix) == Comparator.ClassicUrlMarkers[i].1
    ensures prefix == Comparator.ClassicUrlMarkers[i].0[1..]
  {
  }

  /** A type the popup gives from its markers comes from the first marker the URL contains. */
  lemma PopupTypeIsFirstMarker(url: string)
    requires Comparator.ClassicTypeFromUrl(url) != ""
    ensures exists i :: (0 <= i < |Comparator.ClassicUrlMarkers|
      && Contains(url, Comparator.ClassicUrlMarkers[i].0)
      && Comparator.ClassicTypeFromUrl(url) == Comparator.ClassicUrlMarkers[i].1
      && forall j :: 0 <= j < i ==> !Contains(url, Comparator.ClassicUrlMarkers[j].0))
  {
  }

  /** When the URL contains marker `i` and none before it, the popup types the page by marker `i`. */
  lemma PopupTypeOfFirstMarker(url: string, i: int)
    requires 0 <= i < |Comparator.ClassicUrlMarkers|
    requires Contains(url, Comparator.ClassicUrlMarkers[i].0)
    requires forall j :: 0 <= j < i ==> !Contains(url, Comparator.ClassicUrlMarkers[j].0)
    ensures Comparator.ClassicTypeFromUrl(url) == Comparator.ClassicUrlMarkers[i].1
  {
    var r := Comparator.ClassicTypeFromUrl(url);
    MarkersAreTableEntries(i);
    assert r != "";
    PopupTypeIsFirstMarker(url);
    var i' :| 0 <= i' < |Comparator.ClassicUrlMarkers| && Contains(url, Comparator.ClassicUrlMarkers[i'].0)
      && r == Comparator.ClassicUrlMarkers[i'].1
      && forall j :: 0 <= j < i' ==> !Contains(url, Comparator.ClassicUrlMarkers[j].0);
    assert i' == i;
  }

  /** The condition under which the two copies type a Classic page alike: see `ClassicTypesAgree`. */
  ghost predicate FirstMarkerIsIdPrefix(url: string, recordId: string) {
    exists i :: (0 <= i < |Comparator.ClassicUrlMarkers|
      && Content.IdPrefix(recordId) == Comparator.ClassicUrlMarkers[i].0[1..]
      && forall j :: 0 <= j < i ==> !Contains(url, Comparator.ClassicUrlMarkers[j].0))
  }

  /** Equal types can only come from a marker that is the id's prefix and the first in the URL. */
  lemma EqualTypesHaveFirstMarker(url: string, recordId: string)
    requires |recordId| >= 3
    requires Comparator.ClassicTypeFromUrl(url) == Content.ObjectTypeForPrefix(Content.IdPrefix(recordId))
    ensures FirstMarkerIsIdPrefix(url, recordId)
  {
    var popup := Comparator.ClassicTypeFromUrl(url);
    PopupTypeIsFirstMarker(url);
    var i :| 0 <= i < |Comparator.ClassicUrlMarkers| && Contains(url, Comparator.ClassicUrlMarkers[i].0)
      && popup == Comparator.ClassicUrlMarkers[i].1
      && forall j :: 0 <= j < i ==> !Contains(url, Comparator.ClassicUrlMarkers[j].0);
    TableTypeIsMarkerType(Content.IdPrefix(recordId), i);
  }

  /** A marker that is the id's prefix, with no marker before it in the URL, gives both copies its type. */
  lemma FirstMarkerGivesEqualTypes(url: string)
    requires MatchClassic(url).Some?
    requires FirstMarkerIsIdPrefix(url, MatchClassic(url).value)
    ensures Comparator.ClassicTypeFromUrl(url)
      == Content.ObjectTypeForPrefix(Content.IdPrefix(MatchClassic(url).value))
  {
    var recordId := MatchClassic(url).value;
    var i :| 0 <= i < |Comparator.ClassicUrlMarkers|
      && Content.IdPrefix(recordId) == Comparator.ClassicUrlMarkers[i].0[1..]
      && forall j :: 0 <= j < i ==> !Contains(url, Comparator.ClassicUrlMarkers[j].0);
    MarkersAreTableEntries(i);
    ClassicIdMarker(url);
    assert Content.IdPrefix(recordId) == recordId[..3];
    PopupTypeOfFirstMarker(url, i);
  }

  /**
   * On a Classic record page the two copies give the same type exactly when the
   * id's prefix is one of the popup's five markers and the URL contains no
   * marker tried before it; otherwise the popup reports the first marker in
   * the URL, or '' with none, and the content script its table's type.
   */
  lemma ClassicTypesAgree(page: Page)
    requires IsClassicUrl(page.href) && MatchClassic(page.href).Some?
    ensures Comparator.Extraction(page).Ok? && Content.Extraction(page).Ok?
    ensures Comparator.Extraction(page).value.objectType == Content.Extraction(page).value.objectType
      <==> FirstMarkerIsIdPrefix(page.href, MatchClassic(page.href).value)
  {
    var url := page.href;
    var recordId := MatchClassic(url).value;
    Comparator.ClassicExtraction(page);
    Content.ClassicExtraction(page);
    MatchedIdsAreWellFormed(url);
    if Comparator.ClassicTypeFromUrl(url) == Content.ObjectTypeForPrefix(Content.IdPrefix(recordId)) {
      EqualTypesHaveFirstMarker(url, recordId);
    }
    if FirstMarkerIsIdPrefix(url, recordId) {
      FirstMarkerGivesEqualTypes(url);
    }
  }

  /** The popup's name selectors are the content script's, less its last one, on both kinds of page. */
  lemma SelectorsExtend()
    ensures Content.LightningNameSelectors
      == Comparator.LightningNameSelectors + ["lightning-formatted-text[data-output-element-id=\"output-field\"]"]
    ensures Content.ClassicNameSelectors == Comparator.ClassicNameSelectors + ["h2.mainTitle"]
  {
  }

  /**
   * One more selector at the end changes the name only when none of the
   * others finds an element; then the name is what the new one finds, if anything.
   */
  lemma NameWithExtraSelector(probe: string -> Option<string>, selectors: seq<string>, extra: string)
    ensures (exists i :: 0 <= i < |selectors| && probe(selectors[i]).Some?) ==>
      RecordName(probe, selectors + [extra]) == RecordName(probe, selectors)
    ensures (forall i :: 0 <= i < |selectors| ==> probe(selectors[i]).None?) ==>
      && RecordName(probe, selectors) == ""
      && RecordName(probe, selectors + [extra]) == (if probe(extra).Some? then Trim(probe(extra).value) else "")
  {
    var longer := selectors + [extra];
    assert forall i :: 0 <= i < |selectors| ==> longer[i] == selectors[i];
    if exists i :: 0 <= i < |selectors| && probe(selectors[i]).Some? {
      var r := FirstElement(probe, selectors);
      var i :| 0 <= i < |selectors| && probe(selectors[i]) == r
        && forall j :: 0 <= j < i ==> probe(selectors[j]).None?;
      RecordNameFromFirstFound(probe, selectors, i);
      RecordNameFromFirstFound(probe, longer, i);
    } else {
      RecordNameWithoutElement(probe, selectors);
      if probe(extra).Some? {
        RecordNameFromFirstFound(probe, longer, |selectors|);
      } else {
        RecordNameWithoutElement(probe, longer);
      }
    }
  }

  /**
   * On a record page the two copies read the same name unless none of the
   * popup's selectors finds an element; then the popup has '' and the
   * content script what its extra selector finds.
   */
  lemma NamesAgree(page: Page)
    requires Comparator.Extraction(page).Ok?
    ensures Content.Extraction(page).Ok?
    ensures var selectors :=
        if IsLightningUrl(page.href) then Comparator.LightningNameSelectors else Comparator.ClassicNameSelectors;
      var extra :=
        if IsLightningUrl(page.href) then Content.LightningNameSelectors[3] else Content.ClassicNameSelectors[3];
      && ((exists i :: 0 <= i < |selectors| && page.probe(selectors[i]).Some?) ==>
            Comparator.Extraction(page).value.recordName == Content.Extraction(page).value.recordName)
      && ((forall i :: 0 <= i < |selectors| ==> page.probe(selectors[i]).None?) ==>
            && Comparator.Extraction(page).value.recordName == ""
            && Content.Extraction(page).value.recordName ==
               (if page.probe(extra).Some? then Trim(page.probe(extra).value) else ""))
  {
    SelectorsExtend();
    if IsLightningUrl(page.href) {
      Comparator.LightningExtraction(page);
      Content.LightningExtraction(page);
      NameWithExtraSelector(page.probe, Comparator.LightningNameSelectors, Content.LightningNameSelectors[3]);
    } else {
      Comparator.ClassicExtraction(page);
      Content.ClassicExtraction(page);
      NameWithExtraSelector(page.probe, Comparator.ClassicNameSelectors, Content.ClassicNameSelectors[3]);
    }
  }

  /** A slash-led marker that starts neither with `/` nor `o` occurs in `https://org.salesforce.com/<id>` only at the id. */
  lemma NoMarkerInOrgUrl(recordId: string, marker: string)
    requires NoChar(recordId, '/') && 3 <= |recordId|
    requires |marker| == 4 && marker[0] == '/' && marker[1] != '/' && marker[1] != 'o'
    requires recordId[..3] != marker[1..]
    ensures !Contains(Scheme + "org.salesforce.com" + "/" + recordId, marker)
  {
    var host := "org.salesforce.com";
    var url := Scheme + host + "/" + recordId;
    var at := |Scheme| + |host|;
    ClassicRecordUrlLayout(host, recordId);
    assert NoChar(host, '/') && host[0] == 'o';
    forall i | 0 <= i <= |url|
      ensures !OccursAt(url, marker, i)
    {
      if i + 4 <= |url| {
        var w := url[i..i + 4];
        assert w[0] == url[i] && w[1] == url[i + 1];
        if i < 6 {
          assert url[i] == Scheme[i];
        } else if i == 6 {
          assert url[i + 1] == Scheme[7];
        } else if i == 7 {
          assert url[i + 1] == host[0];
        } else if i < at {
          assert url[i] == host[i - |Scheme|];
        } else if i == at {
          assert w[1..] == recordId[..3];
        } else {
          assert url[i] == recordId[i - at - 1];
        }
      }
    }
  }

  /**
   * `https://org.salesforce.com/0Q0ZZZZZZZZZZZZ`, a Quote: the content script
   * types it `Quote` by its prefix, while the popup, finding none of its
   * markers in the URL, leaves the type ''.
   */
  lemma QuotePageDiverges(page: Page)
    requires page.href == Scheme + "org.salesforce.com" + "/" + QuoteId
    ensures Comparator.Extraction(page).Ok? && Content.Extraction(page).Ok?
    ensures Comparator.Extraction(page).value.objectType == ""
    ensures Content.Extraction(page).value.objectType == "Quote"
  {
    var recordId := QuoteId;
    QuoteIdShape();
    Content.OrgClassicUrl(recordId);
    Content.OrgClassicMatch(recordId);
    Comparator.ClassicExtraction(page);
    Content.ClassicExtraction(page);
    QuotePageHasNoMarker();
  }

  const QuoteId: string := "0Q0ZZZZZZZZZZZZ"

  lemma QuoteIdShape()
    ensures 15 <= |QuoteId| <= 18 && AllWordChars(QuoteId)
    ensures NoChar(QuoteId, 'n') && NoChar(QuoteId, '/')
    ensures Content.IdPrefix(QuoteId) == QuoteId[..3] == "0Q0"
  {
  }

  /** The Quote page's URL contains none of the popup's markers, so the popup leaves its type ''. */
  lemma QuotePageHasNoMarker()
    ensures Comparator.ClassicTypeFromUrl(Scheme + "org.salesforce.com" + "/" + QuoteId) == ""
  {
    QuoteIdShape();
    NoMarkerInOrgUrl(QuoteId, "/001");
    NoMarkerInOrgUrl(QuoteId, "/003");
    NoMarkerInOrgUrl(QuoteId, "/006");
    NoMarkerInOrgUrl(QuoteId, "/00Q");
    NoMarkerInOrgUrl(QuoteId, "/500");
  }
}
