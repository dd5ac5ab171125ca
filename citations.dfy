/**
 * The post-processing step of `_extract_sources_from_text`
 * (services/deep_research_service.py): the raw URL and citation matches of
 * a research note are stripped, filtered, de-duplicated and capped at five.
 */
module Citations {
  import opened Strings

  /**
   * What the regular expressions find in a text: the URLs, and for each
   * citation pattern its raw matches. The matching itself is not modelled:
   * a `Scanner` is any function from text to its matches.
   */
  datatype SourceScan = SourceScan(urls: seq<string>, patternMatches: seq<seq<string>>)

  type Scanner = string -> SourceScan

  /** `[m.strip() for m in matches if len(m.strip()) > 3]`. */
  function Cited(matches: seq<string>): seq<string> {
    if matches == [] then []
    else Cited(matches[..|matches| - 1]) + CitedMatch(matches[|matches| - 1])
  }

  /** One match, stripped, when it is longer than three characters. */
  function CitedMatch(m: string): seq<string> {
    if |Strip(m)| > 3 then [Strip(m)] else []
  }

  lemma CitedStep(matches: seq<string>, k: nat)
    requires k < |matches|
    ensures Cited(matches[..k + 1]) == Cited(matches[..k]) + CitedMatch(matches[k])
  {
    assert matches[..k + 1][..k] == matches[..k];
  }

  /** The kept citations are exactly the stripped matches longer than three characters. */
  lemma {:induction false} CitedElements(matches: seq<string>)
    ensures forall c :: c in Cited(matches) <==> exists m :: m in matches && c == Strip(m) && |c| > 3
  {
    if matches != [] {
      var init := matches[..|matches| - 1];
      CitedElements(init);
      assert forall m :: m in matches <==> m in init || m == matches[|matches| - 1];
    }
  }

  /** Every kept citation is longer than three characters and has no whitespace at either end. */
  lemma CitedTrimmed(matches: seq<string>)
    ensures forall k :: 0 <= k < |Cited(matches)| ==>
              |Cited(matches)[k]| > 3 && !IsSpace(Cited(matches)[k][0])
              && !IsSpace(Cited(matches)[k][|Cited(matches)[k]| - 1])
  {
    CitedElements(matches);
    forall k | 0 <= k < |Cited(matches)|
      ensures |Cited(matches)[k]| > 3 && !IsSpace(Cited(matches)[k][0])
              && !IsSpace(Cited(matches)[k][|Cited(matches)[k]| - 1])
    {
      var c := Cited(matches)[k];
      assert c in Cited(matches);
      var m :| m in matches && c == Strip(m) && |c| > 3;
      StripShape(m);
    }
  }

  /** The citations of every pattern, pattern by pattern. */
  function AllCited(patternMatches: seq<seq<string>>): seq<string> {
    if patternMatches == [] then []
    else AllCited(patternMatches[..|patternMatches| - 1]) + Cited(patternMatches[|patternMatches| - 1])
  }

  lemma AllCitedStep(patterns: seq<seq<string>>, i: nat)
    requires i < |patterns|
    ensures AllCited(patterns[..i + 1]) == AllCited(patterns[..i]) + Cited(patterns[i])
  {
    assert patterns[..i + 1][..i] == patterns[..i];
  }

  /** The list `sources` before de-duplication. */
  function Candidates(scan: SourceScan): seq<string> {
    scan.urls + AllCited(scan.patternMatches)
  }

  /** `list(set(s))`, with the order fixed to first occurrence. */
  function Dedupe(s: seq<string>): seq<string> {
    if s == [] then []
    else
      var d := Dedupe(s[..|s| - 1]);
      if s[|s| - 1] in d then d else d + [s[|s| - 1]]
  }

  /** De-duplication keeps every element and repeats none. */
  lemma {:induction false} DedupeElements(s: seq<string>)
    ensures forall x :: x in Dedupe(s) <==> x in s
    ensures forall i, j :: 0 <= i < j < |Dedupe(s)| ==> Dedupe(s)[i] != Dedupe(s)[j]
  {
    if s != [] {
      DedupeElements(s[..|s| - 1]);
      assert forall x :: x in s <==> x in s[..|s| - 1] || x == s[|s| - 1];
    }
  }

  /** `[x for x in s if len(x) > 3]`. */
  function LongerThan3(s: seq<string>): seq<string> {
    if s == [] then []
    else LongerThan3(s[..|s| - 1]) + (if |s[|s| - 1]| > 3 then [s[|s| - 1]] else [])
  }

  /** The filter keeps exactly the elements longer than three characters. */
  lemma {:induction false} LongerThan3Elements(s: seq<string>)
    ensures forall x :: x in LongerThan3(s) <==> x in s && |x| > 3
  {
    if s != [] {
      LongerThan3Elements(s[..|s| - 1]);
      assert forall x :: x in s <==> x in s[..|s| - 1] || x == s[|s| - 1];
    }
  }

  lemma {:induction false} LongerThan3Distinct(s: seq<string>)
    requires forall i, j :: 0 <= i < j < |s| ==> s[i] != s[j]
    ensures forall i, j :: 0 <= i < j < |LongerThan3(s)| ==> LongerThan3(s)[i] != LongerThan3(s)[j]
  {
    if s != [] {
      var init := s[..|s| - 1];
      LongerThan3Distinct(init);
      LongerThan3Elements(init);
      assert s[|s| - 1] !in init;
    }
  }

  /** The sources `_extract_sources_from_text` returns for a scan. */
  function Sources(scan: SourceScan): seq<string> {
    Take(LongerThan3(Dedupe(Candidates(scan))), 5)
  }

  /**
   * At most five sources, each longer than three characters, none repeated,
   * each one of the candidates; when fewer than five come back, every
   * candidate longer than three characters is among them.
   */
  lemma SourcesShape(scan: SourceScan)
    ensures |Sources(scan)| <= 5
    ensures forall k :: 0 <= k < |Sources(scan)| ==>
              |Sources(scan)[k]| > 3 && Sources(scan)[k] in Candidates(scan)
    ensures forall i, j :: 0 <= i < j < |Sources(scan)| ==> Sources(scan)[i] != Sources(scan)[j]
    ensures |Sources(scan)| < 5 ==>
              forall x :: x in Candidates(scan) && |x| > 3 ==> x in Sources(scan)
  {
    var d := Dedupe(Candidates(scan));
    DedupeElements(Candidates(scan));
    LongerThan3Distinct(d);
    LongerThan3Elements(d);
    var l := LongerThan3(d);
    forall k | 0 <= k < |Sources(scan)|
      ensures |Sources(scan)[k]| > 3 && Sources(scan)[k] in Candidates(scan)
    {
      assert Sources(scan)[k] == l[k];
      assert l[k] in l;
    }
  }

  /** The comprehension's test for one match: `m.strip()` when it is longer than three characters. */
  method CiteMatch(m: string) returns (c: seq<string>)
    ensures c == CitedMatch(m)
  {
    var stripped := Strip(m);
    c := if |stripped| > 3 then [stripped] else [];
  }

  /** The comprehension that strips and keeps one pattern's matches. */
  method StripMatches(matches: seq<string>) returns (cited: seq<string>)
    ensures cited == Cited(matches)
  {
    cited := [];
    var k := 0;
    while k < |matches|
      invariant 0 <= k <= |matches|
      invariant cited == Cited(matches[..k])
    {
      CitedStep(matches, k);
      var c := CiteMatch(matches[k]);
      cited := cited + c;
      k := k + 1;
    }
    assert matches[..k] == matches;
  }

  /** The final comprehension that keeps the sources longer than three characters. */
  method KeepLongerThan3(s: seq<string>) returns (kept: seq<string>)
    ensures kept == LongerThan3(s)
  {
    kept := [];
    var j := 0;
    while j < |s|
      invariant 0 <= j <= |s|
      invariant kept == LongerThan3(s[..j])
    {
      if |s[j]| > 3 {
        kept := kept + [s[j]];
      }
      assert s[..j + 1][..j] == s[..j];
      j := j + 1;
    }
    assert s[..j] == s;
  }

  /** The two `extend` steps: the URLs, then every pattern's stripped citations. */
  method CollectCandidates(scan: SourceScan) returns (sources: seq<string>)
    ensures sources == Candidates(scan)
  {
    sources := scan.urls;
    var patterns := scan.patternMatches;
    var i := 0;
    while i < |patterns|
      invariant 0 <= i <= |patterns|
      invariant sources == scan.urls + AllCited(patterns[..i])
    {
      var cited := StripMatches(patterns[i]);
      AllCitedStep(patterns, i);
      AppendAssoc(scan.urls, AllCited(patterns[..i]), cited);
      sources := sources + cited;
      i := i + 1;
    }
    assert patterns[..i] == patterns;
  }

  method ExtractSourcesFromText(text: string, scanner: Scanner) returns (r: seq<string>)
    ensures r == Sources(scanner(text))
  {
    var scan := scanner(text);
    var sources := CollectCandidates(scan);
    var unique := Dedupe(sources);
    var kept := KeepLongerThan3(unique);
    r := Take(kept, 5);
  }
}
