/**
 * What both copies of `extractRecordInfo` share: the substring tests that
 * classify a CRM page URL, the two regular expressions that pull a record id
 * out of it (written out as leftmost-match searches), and the probing of the
 * page for a record name.
 */
module UrlPatterns {

  import opened Wrappers
  import opened Text

  // ---------------------------------------------------------------------------
  // Classification

  /** The Lightning Experience branch: `lightning.force.com` or `/lightning/` in the URL. */
  predicate IsLightningUrl(url: string) {
    Contains(url, "lightning.force.com") || Contains(url, "/lightning/")
  }

  /** The Classic branch: not Lightning, on `salesforce.com`, and no `lightning` anywhere. */
  predicate IsClassicUrl(url: string) {
    !IsLightningUrl(url) && Contains(url, "salesforce.com") && !Contains(url, "lightning")
  }

  // ---------------------------------------------------------------------------
  // Word runs

  /** The length of the run of `\w` characters starting at index `i`. */
  function WordRun(s: string, i: int): (n: nat)
    requires 0 <= i <= |s|
    ensures i + n <= |s|
    ensures forall k :: i <= k < i + n ==> IsWordChar(s[k])
    ensures i + n == |s| || !IsWordChar(s[i + n])
    decreases |s| - i
  {
    if i < |s| && IsWordChar(s[i]) then 1 + WordRun(s, i + 1) else 0
  }

  /** A run of `n` word characters ended by a non-word character or the end is the whole run. */
  lemma {:induction false} WordRunExact(s: string, i: int, n: nat)
    requires 0 <= i && i + n <= |s|
    requires forall k :: i <= k < i + n ==> IsWordChar(s[k])
    requires i + n == |s| || !IsWordChar(s[i + n])
    ensures WordRun(s, i) == n
    decreases n
  {
    if n > 0 {
      WordRunExact(s, i + 1, n - 1);
    }
  }

  /** A run of at least `n` word characters. */
  lemma {:induction false} WordRunAtLeast(s: string, i: int, n: nat)
    requires 0 <= i && i + n <= |s|
    requires forall k :: i <= k < i + n ==> IsWordChar(s[k])
    ensures WordRun(s, i) >= n
    decreases n
  {
    if n > 0 {
      WordRunAtLeast(s, i + 1, n - 1);
    }
  }

  /** An occurrence of a word is a run of word characters at least that long. */
  lemma WordRunOfOccurrence(s: string, w: string, i: int)
    requires OccursAt(s, w, i) && AllWordChars(w)
    ensures WordRun(s, i) >= |w|
    ensures i + |w| == |s| || !IsWordChar(s[i + |w|]) ==> WordRun(s, i) == |w|
  {
    assert forall k :: i <= k < i + |w| ==> s[k] == w[k - i];
    WordRunAtLeast(s, i, |w|);
    if i + |w| == |s| || !IsWordChar(s[i + |w|]) {
      WordRunExact(s, i, |w|);
    }
  }

  /** A stretch of word characters, cut out, is a word. */
  lemma WordSlice(s: string, i: int, n: nat)
    requires 0 <= i && i + n <= |s|
    requires forall k :: i <= k < i + n ==> IsWordChar(s[k])
    ensures AllWordChars(s[i..i + n])
  {
    var w := s[i..i + n];
    assert forall k :: 0 <= k < n ==> w[k] == s[i + k];
  }

  function Min(a: int, b: int): int {
    if a <= b then a else b
  }

  // ---------------------------------------------------------------------------
  // /\/lightning\/r\/(\w+)\/(\w{15,18})/

  const LightningRecordPath: string := "/lightning/r/"

  /**
   * The match of the Lightning pattern starting at index `i`, as the pair of
   * captures (object type, record id). `\w+` must be followed by `/`, so it takes
   * the whole word run; the greedy `\w{15,18}` takes up to 18 characters of the
   * next run, and fails when that run is shorter than 15.
   */
  function LightningAt(url: string, i: int): Option<(string, string)> {
    if !OccursAt(url, LightningRecordPath, i) then None
    else
      var t := i + |LightningRecordPath|;
      var n := WordRun(url, t);
      if n == 0 || t + n == |url| || url[t + n] != '/' then None
      else
        var d := t + n + 1;
        var m := WordRun(url, d);
        if m < 15 then None else Some((url[t..t + n], url[d..d + Min(m, 18)]))
  }

  /**
   * The Lightning pattern, stated declaratively: the path, a non-empty word run
   * for the object type, a slash, and 15 to 18 word characters for the id that
   * the greedy quantifier could not extend.
   */
  ghost predicate LightningMatch(url: string, i: int, objectType: string, recordId: string) {
    var t := i + |LightningRecordPath|;
    var d := t + |objectType| + 1;
    && OccursAt(url, LightningRecordPath, i)
    && |objectType| >= 1 && AllWordChars(objectType) && OccursAt(url, objectType, t)
    && d <= |url| && url[d - 1] == '/'
    && 15 <= |recordId| <= 18 && AllWordChars(recordId) && OccursAt(url, recordId, d)
    && (|recordId| == 18 || d + |recordId| == |url| || !IsWordChar(url[d + |recordId|]))
  }

  lemma LightningMatchIsFound(url: string, i: int, objectType: string, recordId: string)
    requires LightningMatch(url, i, objectType, recordId)
    ensures LightningAt(url, i) == Some((objectType, recordId))
  {
    var t := i + |LightningRecordPath|;
    var d := t + |objectType| + 1;
    WordRunOfOccurrence(url, objectType, t);
    WordRunOfOccurrence(url, recordId, d);
    assert url[t..t + |objectType|] == objectType && url[d..d + |recordId|] == recordId;
  }

  lemma LightningFoundIsMatch(url: string, i: int)
    requires LightningAt(url, i).Some?
    ensures LightningMatch(url, i, LightningAt(url, i).value.0, LightningAt(url, i).value.1)
  {
    var t := i + |LightningRecordPath|;
    var n := WordRun(url, t);
    var d := t + n + 1;
    var m := WordRun(url, d);
    var objectType := url[t..t + n];
    var recordId := url[d..d + Min(m, 18)];
    WordSlice(url, t, n);
    WordSlice(url, d, Min(m, 18));
  }

  /** The computed match at `i` is exactly the declarative one. */
  lemma LightningAtIsMatch(url: string, i: int, objectType: string, recordId: string)
    ensures LightningAt(url, i) == Some((objectType, recordId)) <==> LightningMatch(url, i, objectType, recordId)
  {
    if LightningMatch(url, i, objectType, recordId) {
      LightningMatchIsFound(url, i, objectType, recordId);
    }
    if LightningAt(url, i) == Some((objectType, recordId)) {
      LightningFoundIsMatch(url, i);
    }
  }

  // ---------------------------------------------------------------------------
  // /\/(\w{15,18})(?:\?|$|\/)/

  /**
   * The match of the Classic pattern starting at index `i`: a slash, then a word
   * run of 15 to 18 characters ended by `?`, `/` or the end of the URL. A longer
   * run cannot match: any 15 to 18 of its characters are followed by another
   * word character.
   */
  function ClassicAt(url: string, i: int): Option<string> {
    if !(0 <= i < |url| && url[i] == '/') then None
    else
      var n := WordRun(url, i + 1);
      var e := i + 1 + n;
      if 15 <= n <= 18 && (e == |url| || url[e] == '?' || url[e] == '/')
      then Some(url[i + 1..e])
      else None
  }

  ghost predicate ClassicMatch(url: string, i: int, recordId: string) {
    var e := i + 1 + |recordId|;
    && 0 <= i < |url| && url[i] == '/'
    && 15 <= |recordId| <= 18 && AllWordChars(recordId) && OccursAt(url, recordId, i + 1)
    && (e == |url| || url[e] == '?' || url[e] == '/')
  }

  lemma ClassicAtIsMatch(url: string, i: int, recordId: string)
    ensures ClassicAt(url, i) == Some(recordId) <==> ClassicMatch(url, i, recordId)
  {
    if ClassicMatch(url, i, recordId) {
      assert forall k :: i + 1 <= k < i + 1 + |recordId| ==> url[k] == recordId[k - i - 1];
      WordRunExact(url, i + 1, |recordId|);
    }
  }

  // ---------------------------------------------------------------------------
  // `String.prototype.match`: the leftmost starting index wins

  function Leftmost<T>(url: string, at: (string, int) -> Option<T>, i: nat): Option<T>
    decreases |url| + 1 - i
  {
    if i > |url| then None
    else if at(url, i).Some? then at(url, i)
    else Leftmost(url, at, i + 1)
  }

  lemma {:induction false} LeftmostIsFirst<T>(url: string, at: (string, int) -> Option<T>, i: nat)
    ensures Leftmost(url, at, i).None? <==> forall j :: i <= j <= |url| ==> at(url, j).None?
    ensures Leftmost(url, at, i).Some? ==>
      exists j :: i <= j <= |url| && at(url, j) == Leftmost(url, at, i)
        && forall k :: i <= k < j ==> at(url, k).None?
    decreases |url| + 1 - i
  {
    if i <= |url| && at(url, i).None? {
      LeftmostIsFirst(url, at, i + 1);
      if Leftmost(url, at, i).Some? {
        var j :| i + 1 <= j <= |url| && at(url, j) == Leftmost(url, at, i + 1)
          && forall k :: i + 1 <= k < j ==> at(url, k).None?;
        assert forall k :: i <= k < j ==> at(url, k).None?;
      }
    }
  }

  /** A match at `j` with none before it is the leftmost one. */
  lemma {:induction false} LeftmostAtFirst<T>(url: string, at: (string, int) -> Option<T>, i: nat, j: nat)
    requires i <= j <= |url| && at(url, j).Some?
    requires forall k :: i <= k < j ==> at(url, k).None?
    ensures Leftmost(url, at, i) == at(url, j)
    decreases j - i
  {
    if i < j {
      LeftmostAtFirst(url, at, i + 1, j);
    }
  }

  /** `url.match(/\/lightning\/r\/(\w+)\/(\w{15,18})/)`, as (object type, record id). */
  function MatchLightning(url: string): Option<(string, string)> {
    Leftmost(url, LightningAt, 0)
  }

  /** `url.match(/\/(\w{15,18})(?:\?|$|\/)/)`, as the record id. */
  function MatchClassic(url: string): Option<string> {
    Leftmost(url, ClassicAt, 0)
  }

  /**
   * The Lightning match is the one at the leftmost index where the pattern
   * matches, with the captures the pattern defines there.
   */
  lemma MatchLightningIsLeftmost(url: string)
    ensures MatchLightning(url).None? <==> forall j :: 0 <= j <= |url| ==> LightningAt(url, j).None?
    ensures MatchLightning(url).Some? ==>
      var (objectType, recordId) := MatchLightning(url).value;
      exists j :: 0 <= j <= |url| && LightningMatch(url, j, objectType, recordId)
        && forall k :: 0 <= k < j ==> LightningAt(url, k).None?
  {
    LeftmostIsFirst(url, LightningAt, 0);
    if MatchLightning(url).Some? {
      var (objectType, recordId) := MatchLightning(url).value;
      var j :| 0 <= j <= |url| && LightningAt(url, j) == MatchLightning(url)
        && forall k :: 0 <= k < j ==> LightningAt(url, k).None?;
      LightningAtIsMatch(url, j, objectType, recordId);
    }
  }

  /** The Classic match is the leftmost slash followed by a 15 to 18 character word run and `?`, `/` or the end. */
  lemma MatchClassicIsLeftmost(url: string)
    ensures MatchClassic(url).None? <==> forall j :: 0 <= j <= |url| ==> ClassicAt(url, j).None?
    ensures MatchClassic(url).Some? ==>
      exists j :: 0 <= j <= |url| && ClassicMatch(url, j, MatchClassic(url).value)
        && forall k :: 0 <= k < j ==> ClassicAt(url, k).None?
  {
    LeftmostIsFirst(url, ClassicAt, 0);
    if MatchClassic(url).Some? {
      var j :| 0 <= j <= |url| && ClassicAt(url, j) == MatchClassic(url)
        && forall k :: 0 <= k < j ==> ClassicAt(url, k).None?;
      ClassicAtIsMatch(url, j, MatchClassic(url).value);
    }
  }

  /** Either match yields an id of 15 to 18 word characters. */
  lemma MatchedIdsAreWellFormed(url: string)
    ensures MatchLightning(url).Some? ==>
      15 <= |MatchLightning(url).value.1| <= 18 && AllWordChars(MatchLightning(url).value.1)
    ensures MatchClassic(url).Some? ==>
      15 <= |MatchClassic(url).value| <= 18 && AllWordChars(MatchClassic(url).value)
  {
    MatchLightningIsLeftmost(url);
    MatchClassicIsLeftmost(url);
  }

  // ---------------------------------------------------------------------------
  // The page

  /**
   * What extraction reads from the page: `window.location.href`,
   * `window.location.origin`, and `document.querySelector(selector)` followed
   * by `textContent`, `None` when no element matches.
   */
  datatype Page = Page(href: string, origin: string, probe: string -> Option<string>)

  /** `querySelector(a) || querySelector(b) || ...`: the text of the first selector that finds an element. */
  function FirstElement(probe: string -> Option<string>, selectors: seq<string>): (r: Option<string>)
    ensures r.None? <==> forall i :: 0 <= i < |selectors| ==> probe(selectors[i]).None?
    ensures r.Some? ==> (exists i :: 0 <= i < |selectors| && probe(selectors[i]) == r
                           && forall j :: 0 <= j < i ==> probe(selectors[j]).None?)
    decreases |selectors|
  {
    if selectors == [] then None
    else if probe(selectors[0]).Some? then probe(selectors[0])
    else
      var r := FirstElement(probe, selectors[1..]);
      assert r.Some? ==> (exists i :: 0 <= i < |selectors| && probe(selectors[i]) == r
                            && forall j :: 0 <= j < i ==> probe(selectors[j]).None?) by {
        if r.Some? {
          var i :| 0 <= i < |selectors| - 1 && probe(selectors[1..][i]) == r
            && forall j :: 0 <= j < i ==> probe(selectors[1..][j]).None?;
          assert probe(selectors[i + 1]) == r;
          assert forall j :: 1 <= j < i + 1 ==> probe(selectors[j]).None? by {
            assert forall j :: 1 <= j < i + 1 ==> selectors[j] == selectors[1..][j - 1];
          }
        }
      }
      r
  }

  /** `nameElement.textContent?.trim() || ''` when an element was found, '' otherwise. */
  function RecordName(probe: string -> Option<string>, selectors: seq<string>): string {
    match FirstElement(probe, selectors)
    case Some(text) => Trim(text)
    case None => ""
  }

  /**
   * `querySelector(a) || querySelector(b) || ...`, then `textContent.trim()` of
   * the element found, as both copies of `extractRecordInfo` assign `recordName`.
   */
  method ProbeName(probe: string -> Option<string>, selectors: seq<string>) returns (name: string)
    ensures name == RecordName(probe, selectors)
  {
    name := "";
    var nameElement := FirstElement(probe, selectors);
    if nameElement.Some? {
      name := Trim(nameElement.value);
    }
  }

  /**
   * The name comes from the first selector that finds an element, whatever its
   * text: an element whose text trims to nothing gives '' and later selectors
   * are not tried. With no element the name is ''.
   */
  lemma RecordNameFromFirstFound(probe: string -> Option<string>, selectors: seq<string>, i: int)
    requires 0 <= i < |selectors| && probe(selectors[i]).Some?
    requires forall j :: 0 <= j < i ==> probe(selectors[j]).None?
    ensures RecordName(probe, selectors) == Trim(probe(selectors[i]).value)
    ensures AllWhitespace(probe(selectors[i]).value) ==> RecordName(probe, selectors) == ""
  {
    var r := FirstElement(probe, selectors);
    var i' :| 0 <= i' < |selectors| && probe(selectors[i']) == r
      && forall j :: 0 <= j < i' ==> probe(selectors[j]).None?;
    assert i' == i;
  }

  lemma RecordNameWithoutElement(probe: string -> Option<string>, selectors: seq<string>)
    requires forall i :: 0 <= i < |selectors| ==> probe(selectors[i]).None?
    ensures RecordName(probe, selectors) == ""
  {
  }

  // ---------------------------------------------------------------------------
  // Record URLs

  const Scheme: string := "https://"

  predicate NoChar(s: string, c: char) {
    forall k :: 0 <= k < |s| ==> s[k] != c
  }

  lemma NoCharAppend(a: string, b: string, c: char)
    requires NoChar(a, c) && NoChar(b, c)
    ensures NoChar(a + b, c)
  {
    assert forall k :: |a| <= k < |a + b| ==> (a + b)[k] == b[k - |a|];
  }

  /** A string without the character `c` contains no string that has it. */
  lemma NoCharExcludes(s: string, sub: string, c: char)
    requires NoChar(s, c) && !NoChar(sub, c)
    ensures !Contains(s, sub)
  {
  }

  lemma OccursAtChar(s: string, sub: string, i: int, m: int)
    requires OccursAt(s, sub, i) && 0 <= m < |sub|
    ensures s[i + m] == sub[m]
  {
    assert s[i..i + |sub|][m] == s[i + m];
  }

  /** Behind the scheme and a slash-free host, no occurrence of the Lightning path starts before `j`. */
  lemma NoLightningPathBefore(url: string, j: int)
    requires |Scheme| <= j && OccursAt(url, LightningRecordPath, j) && url[..|Scheme|] == Scheme
    requires forall k :: |Scheme| <= k < j ==> url[k] != '/'
    ensures forall k :: 0 <= k < j ==> LightningAt(url, k).None?
  {
    forall k | 0 <= k < j
      ensures !OccursAt(url, LightningRecordPath, k)
    {
      if OccursAt(url, LightningRecordPath, k) {
        OccursAtChar(url, LightningRecordPath, k, 0);
        if k < |Scheme| {
          assert url[k] == Scheme[k];
          if k == 6 {
            OccursAtChar(url, LightningRecordPath, k, 1);
          } else if k == 7 {
            OccursAtChar(url, LightningRecordPath, k, 10);
            if j <= 17 {
              OccursAtChar(url, LightningRecordPath, k, j - 7);
              OccursAtChar(url, LightningRecordPath, j, 1);
              OccursAtChar(url, LightningRecordPath, k, j + 1 - 7);
            }
          }
        }
      }
    }
  }

  /**
   * Behind the scheme and a host free of `/` and `?` that holds a non-word
   * character at `b`, the Classic pattern matches nowhere before `j`.
   */
  lemma NoClassicIdBefore(url: string, j: int, b: int)
    requires |Scheme| <= b < j <= |url| && url[..|Scheme|] == Scheme && !IsWordChar(url[b])
    requires forall k :: |Scheme| <= k < j ==> url[k] != '/' && url[k] != '?'
    ensures forall k :: 0 <= k < j ==> ClassicAt(url, k).None?
  {
    forall k | 0 <= k < j
      ensures ClassicAt(url, k).None?
    {
      if k < |Scheme| && url[k] == '/' {
        assert url[k] == Scheme[k];
        if k == 6 {
          assert url[7] == Scheme[7];
        } else {
          var n := WordRun(url, 8);
          assert 8 + n <= b;
        }
      }
    }
  }

  /** Behind an occurrence of the Lightning path, a type, a slash and an id make a match. */
  lemma LightningMatchAfterPath(url: string, j: int, objectType: string, recordId: string, rest: string)
    requires OccursAt(url, LightningRecordPath, j)
    requires url[j + |LightningRecordPath|..] == objectType + "/" + recordId + rest
    requires |objectType| >= 1 && AllWordChars(objectType)
    requires 15 <= |recordId| <= 18 && AllWordChars(recordId)
    requires |recordId| == 18 || rest == [] || !IsWordChar(rest[0])
    ensures LightningMatch(url, j, objectType, recordId)
  {
    var tail := objectType + "/" + recordId + rest;
    var t := j + |LightningRecordPath|;
    var d := t + |objectType| + 1;
    assert tail[..|objectType|] == objectType;
    assert tail[|objectType|] == '/';
    assert tail[|objectType| + 1..|objectType| + 1 + |recordId|] == recordId;
    assert OccursAt(url, objectType, t) by {
      assert url[t..t + |objectType|] == url[t..][..|objectType|];
    }
    assert url[d - 1] == '/' by {
      assert url[d - 1] == url[t..][|objectType|];
    }
    assert OccursAt(url, recordId, d) by {
      assert url[d..d + |recordId|] == url[t..][|objectType| + 1..|objectType| + 1 + |recordId|];
    }
    assert |recordId| < 18 && d + |recordId| < |url| ==> url[d + |recordId|] == rest[0] by {
      if |recordId| < 18 && d + |recordId| < |url| {
        assert url[d + |recordId|] == tail[|objectType| + 1 + |recordId|];
      }
    }
  }

  /** The layout of a Lightning record URL, position by position. */
  lemma LightningRecordUrlLayout(host: string, tail: string)
    ensures var url := Scheme + host + LightningRecordPath + tail;
      && url[..|Scheme|] == Scheme
      && (forall k :: |Scheme| <= k < |Scheme| + |host| ==> url[k] == host[k - |Scheme|])
      && OccursAt(url, LightningRecordPath, |Scheme| + |host|)
      && OccursAt(url, "/lightning/", |Scheme| + |host|)
      && url[|Scheme| + |host| + |LightningRecordPath|..] == tail
  {
    var url := Scheme + host + LightningRecordPath + tail;
    var j := |Scheme| + |host|;
    assert url[..|Scheme|] == Scheme;
    assert url[j..j + |LightningRecordPath|] == LightningRecordPath;
    assert url[j..j + 11] == LightningRecordPath[..11];
  }

  /**
   * A Lightning record URL `https://<host>/lightning/r/<type>/<id><rest>`
   * yields its type and id, when the host has no slash and `rest` does not
   * extend an id shorter than 18 characters.
   */
  lemma LightningRecordUrl(host: string, objectType: string, recordId: string, rest: string)
    requires NoChar(host, '/')
    requires |objectType| >= 1 && AllWordChars(objectType)
    requires 15 <= |recordId| <= 18 && AllWordChars(recordId)
    requires |recordId| == 18 || rest == [] || !IsWordChar(rest[0])
    ensures var url := Scheme + host + LightningRecordPath + objectType + "/" + recordId + rest;
      IsLightningUrl(url) && MatchLightning(url) == Some((objectType, recordId))
  {
    var url := Scheme + host + LightningRecordPath + objectType + "/" + recordId + rest;
    var j := |Scheme| + |host|;
    assert url == Scheme + host + LightningRecordPath + (objectType + "/" + recordId + rest);
    LightningRecordUrlLayout(host, objectType + "/" + recordId + rest);
    LightningMatchAfterPath(url, j, objectType, recordId, rest);
    LightningAtIsMatch(url, j, objectType, recordId);
    NoLightningPathBefore(url, j);
    LeftmostAtFirst(url, LightningAt, 0, j);
  }

  /** The layout of a Classic record URL, position by position. */
  lemma ClassicRecordUrlLayout(host: string, tail: string)
    ensures var url := Scheme + host + "/" + tail;
      && |url| == |Scheme| + |host| + 1 + |tail|
      && url[..|Scheme|] == Scheme
      && (forall k :: |Scheme| <= k < |Scheme| + |host| ==> url[k] == host[k - |Scheme|])
      && url[|Scheme| + |host|] == '/'
      && url[|Scheme| + |host| + 1..] == tail
  {
    var url := Scheme + host + "/" + tail;
    assert url[..|Scheme|] == Scheme;
  }

  /** Behind a slash, an id of 15 to 18 word characters ended by `?`, `/` or the end makes a match. */
  lemma ClassicMatchAfterSlash(url: string, j: int, recordId: string, rest: string)
    requires 0 <= j < |url| && url[j] == '/' && url[j + 1..] == recordId + rest
    requires 15 <= |recordId| <= 18 && AllWordChars(recordId)
    requires rest == [] || rest[0] == '?' || rest[0] == '/'
    ensures ClassicAt(url, j) == Some(recordId)
  {
    var tail := recordId + rest;
    assert OccursAt(url, recordId, j + 1) by {
      assert tail[..|recordId|] == recordId;
      assert url[j + 1..j + 1 + |recordId|] == url[j + 1..][..|recordId|];
    }
    assert j + 1 + |recordId| < |url| ==> url[j + 1 + |recordId|] == rest[0] by {
      if j + 1 + |recordId| < |url| {
        assert url[j + 1 + |recordId|] == tail[|recordId|];
      }
    }
    assert ClassicMatch(url, j, recordId);
    ClassicAtIsMatch(url, j, recordId);
  }

  /**
   * A Classic record URL `https://<host>/<id><rest>` yields its id, when the
   * host has no slash or `?` and is not one word run, and `rest` is empty or
   * starts with `?` or `/`.
   */
  lemma ClassicRecordUrl(host: string, recordId: string, rest: string)
    requires NoChar(host, '/') && NoChar(host, '?') && !AllWordChars(host)
    requires 15 <= |recordId| <= 18 && AllWordChars(recordId)
    requires rest == [] || rest[0] == '?' || rest[0] == '/'
    ensures MatchClassic(Scheme + host + "/" + recordId + rest) == Some(recordId)
  {
    var url := Scheme + host + "/" + recordId + rest;
    var j := |Scheme| + |host|;
    assert url == Scheme + host + "/" + (recordId + rest);
    ClassicRecordUrlLayout(host, recordId + rest);
    ClassicMatchAfterSlash(url, j, recordId, rest);
    var b :| 0 <= b < |host| && !IsWordChar(host[b]);
    NoClassicIdBefore(url, j, |Scheme| + b);
    LeftmostAtFirst(url, ClassicAt, 0, j);
  }
}
