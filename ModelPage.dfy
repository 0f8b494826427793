/**
 * The input side of src/components/ModelPage.tsx: the username taken from a
 * profile URL, the stem of an uploaded file's name, and the analyse handler
 * that turns either into a generated profile and its prediction.
 */
module ModelPage {
  import opened Wrappers
  import opened Strings
  import opened MockData

  // ---------------------------------------------------------------------------
  // Username extraction: /twitter\.com\/([a-zA-Z0-9_]+)/, else strip to [a-zA-Z0-9_]

  /** The character class [a-zA-Z0-9_]. */
  predicate IsWordChar(c: char)
  {
    ('a' <= c <= 'z') || ('A' <= c <= 'Z') || ('0' <= c <= '9') || c == '_'
  }

  predicate AllWord(s: string)
  {
    forall k :: 0 <= k < |s| ==> IsWordChar(s[k])
  }

  const Host: string := "twitter.com/"

  /** The pattern matches at i: the host text, then at least one word character. */
  predicate MatchAt(s: string, i: nat)
  {
    i + |Host| < |s| && s[i..i + |Host|] == Host && IsWordChar(s[i + |Host|])
  }

  /** The leftmost position at or after i where the pattern matches. */
  function FirstMatchFrom(s: string, i: nat): (o: Option<nat>)
    decreases |s| - i
    ensures o.Some? ==> i <= o.value && MatchAt(s, o.value)
    ensures o.Some? ==> forall j :: i <= j < o.value ==> !MatchAt(s, j)
    ensures o.None? ==> forall j :: i <= j ==> !MatchAt(s, j)
  {
    if i + |Host| >= |s| then None
    else if MatchAt(s, i) then Some(i)
    else FirstMatchFrom(s, i + 1)
  }

  /** The end of the longest run of word characters starting at j (the greedy `+`). */
  function RunEnd(s: string, j: nat): (k: nat)
    requires j <= |s|
    decreases |s| - j
    ensures j <= k <= |s|
    ensures forall m :: j <= m < k ==> IsWordChar(s[m])
    ensures k == |s| || !IsWordChar(s[k])
  {
    if j == |s| || !IsWordChar(s[j]) then j else RunEnd(s, j + 1)
  }

  /** `s.replace(/[^a-zA-Z0-9_]/g, '')`. */
  function StripNonWord(s: string): (r: string)
    ensures AllWord(r)
    ensures |r| <= |s|
  {
    if |s| == 0 then ""
    else (if IsWordChar(s[0]) then [s[0]] else []) + StripNonWord(s[1..])
  }

  /** Stripping leaves a string of word characters as it is. */
  lemma {:induction false} StripKeepsWordStrings(s: string)
    requires AllWord(s)
    ensures StripNonWord(s) == s
  {
    if |s| > 0 {
      StripKeepsWordStrings(s[1..]);
    }
  }

  /** Stripping works piece by piece, so the kept characters keep their order. */
  lemma {:induction false} StripDistributes(a: string, b: string)
    ensures StripNonWord(a + b) == StripNonWord(a) + StripNonWord(b)
  {
    if |a| == 0 {
      assert a + b == b;
    } else {
      assert (a + b)[1..] == a[1..] + b;
      StripDistributes(a[1..], b);
    }
  }

  /** Stripping removes exactly the characters outside the class. */
  lemma StripSingle(c: char)
    ensures StripNonWord([c]) == if IsWordChar(c) then [c] else []
  {
    assert [c][1..] == [];
  }

  /** extractUsernameFromUrl(url). */
  function ExtractUsernameFromUrl(url: string): (r: string)
    ensures AllWord(r)
    ensures |r| <= |url|
  {
    match FirstMatchFrom(url, 0)
    case Some(k) => url[k + |Host| .. RunEnd(url, k + |Host|)]
    case None => StripNonWord(url)
  }

  /** With a match, the result is the whole word run after the leftmost occurrence of the host. */
  lemma ExtractTakesLeftmostRun(url: string, k: nat)
    requires MatchAt(url, k)
    requires forall j :: 0 <= j < k ==> !MatchAt(url, j)
    ensures var r := ExtractUsernameFromUrl(url);
      && |r| >= 1
      && k + |Host| + |r| <= |url|
      && r == url[k + |Host| .. k + |Host| + |r|]
      && (k + |Host| + |r| == |url| || !IsWordChar(url[k + |Host| + |r|]))
  {
    var o := FirstMatchFrom(url, 0);
    assert o.Some?;
    assert o.value == k;
  }

  /** Without a match, the result is the input with every non-word character removed. */
  lemma ExtractWithoutMatch(url: string)
    requires forall i: nat :: !MatchAt(url, i)
    ensures ExtractUsernameFromUrl(url) == StripNonWord(url)
  {
  }

  /** A string of word characters contains no '.', so the pattern cannot match in it. */
  lemma WordStringHasNoMatch(s: string)
    requires AllWord(s)
    ensures forall i: nat :: !MatchAt(s, i)
  {
    forall i: nat ensures !MatchAt(s, i) {
      if i + |Host| < |s| {
        assert s[i..i + |Host|][7] == s[i + 7];
        assert IsWordChar(s[i + 7]) && Host[7] == '.';
      }
    }
  }

  /** Extracting twice gives the same username as extracting once. */
  lemma ExtractIdempotent(url: string)
    ensures ExtractUsernameFromUrl(ExtractUsernameFromUrl(url)) == ExtractUsernameFromUrl(url)
  {
    var r := ExtractUsernameFromUrl(url);
    WordStringHasNoMatch(r);
    ExtractWithoutMatch(r);
    StripKeepsWordStrings(r);
  }

  // ---------------------------------------------------------------------------
  // File stem: name.replace(/\.[^/.]+$/, "")

  /** A '.' at k followed by one or more characters, none of them '.' or '/', up to the end. */
  predicate ExtensionAt(s: string, k: nat)
  {
    k + 1 < |s| && s[k] == '.' && forall j :: k < j < |s| ==> s[j] != '.' && s[j] != '/'
  }

  /** The pattern matches at one place at most. */
  lemma ExtensionUnique(s: string, k1: nat, k2: nat)
    requires ExtensionAt(s, k1) && ExtensionAt(s, k2)
    ensures k1 == k2
  {
  }

  /** Scans leftwards from j; everything right of j is already known to be neither '.' nor '/'. */
  function ExtensionFrom(s: string, j: int): (o: Option<nat>)
    requires -1 <= j < |s|
    requires forall m :: j < m < |s| ==> s[m] != '.' && s[m] != '/'
    decreases j + 1
    ensures o.Some? ==> ExtensionAt(s, o.value)
    ensures o.None? ==> forall k: nat :: !ExtensionAt(s, k)
  {
    if j < 0 then None
    else if s[j] == '/' then None
    else if s[j] == '.' then (if j + 1 < |s| then Some(j) else None)
    else ExtensionFrom(s, j - 1)
  }

  /** The file name without its last extension. */
  function FileStem(name: string): (r: string)
    ensures r <= name
  {
    match ExtensionFrom(name, |name| - 1)
    case Some(k) => name[..k]
    case None => name
  }

  /** A name with an extension loses exactly that extension. */
  lemma FileStemDropsExtension(name: string, k: nat)
    requires ExtensionAt(name, k)
    ensures FileStem(name) == name[..k]
  {
    var o := ExtensionFrom(name, |name| - 1);
    assert o.Some?;
    ExtensionUnique(name, o.value, k);
  }

  /** A name without an extension is kept whole. */
  lemma FileStemKeepsPlainName(name: string)
    requires forall k: nat :: !ExtensionAt(name, k)
    ensures FileStem(name) == name
  {
  }

  lemma FileStemExamples()
    ensures FileStem("a.tar.gz") == "a.tar"
    ensures FileStem("noext") == "noext"
    ensures FileStem("name.") == "name."
    ensures FileStem("v1.2/data") == "v1.2/data"
  {
    var s := "a.tar.gz";
    assert ExtensionAt(s, 5);
    FileStemDropsExtension(s, 5);
    assert s[..5] == "a.tar";
    forall k: nat ensures !ExtensionAt("noext", k) {
      assert '.' !in "noext";
    }
    FileStemKeepsPlainName("noext");
    forall k: nat ensures !ExtensionAt("name.", k) {
      if k + 1 < 5 { assert "name."[k] != '.'; }
    }
    FileStemKeepsPlainName("name.");
    var t := "v1.2/data";
    forall k: nat ensures !ExtensionAt(t, k) {
      if k + 1 < |t| && t[k] == '.' {
        assert k == 2;
        assert t[4] == '/';
      }
    }
    FileStemKeepsPlainName(t);
  }

  // ---------------------------------------------------------------------------
  // The analyse handler

  datatype InputType = UrlInput | FileInput

  /** The part of an uploaded File that the page reads. */
  datatype FileRef = FileRef(name: string)

  /** A generated profile with its prediction, as handed to onAnalysisComplete. */
  datatype Analysis = Analysis(profile: Profile, prediction: Prediction)

  /** The characters `String.prototype.trim` removes: white space and line terminators. */
  predicate IsTrimmed(c: char)
  {
    c in {'\U{9}', '\U{A}', '\U{B}', '\U{C}', '\U{D}', '\U{20}', '\U{A0}', '\U{1680}',
          '\U{2000}', '\U{2001}', '\U{2002}', '\U{2003}', '\U{2004}', '\U{2005}', '\U{2006}', '\U{2007}',
          '\U{2008}', '\U{2009}', '\U{200A}', '\U{2028}', '\U{2029}', '\U{202F}', '\U{205F}', '\U{3000}',
          '\U{FEFF}'}
  }

  /** `!s.trim()`: nothing is left once white space is trimmed. */
  predicate IsBlank(s: string)
  {
    forall k :: 0 <= k < |s| ==> IsTrimmed(s[k])
  }

  class ModelPageState {
    var inputType: InputType
    var twitterUrl: string
    var file: Option<FileRef>
    var loading: bool
    var result: Option<Analysis>

    constructor ()
      ensures inputType == UrlInput && twitterUrl == "" && file == None
      ensures !loading && result == None
    {
      inputType := UrlInput;
      twitterUrl := "";
      file := None;
      loading := false;
      result := None;
    }

    /** The two early returns of handleAnalyze do not fire. */
    predicate CanAnalyze()
      reads this
    {
      !(inputType == UrlInput && IsBlank(twitterUrl)) && !(inputType == FileInput && file.None?)
    }

    /** The Analyze button is disabled while loading or while an early return would fire. */
    predicate ButtonDisabled()
      reads this
    {
      loading || !CanAnalyze()
    }

    /** An enabled Analyze button means neither early return of handleAnalyze fires. */
    lemma EnabledButtonPassesGuards()
      ensures !ButtonDisabled() ==> CanAnalyze()
      ensures ButtonDisabled() <==> loading || (inputType == UrlInput && IsBlank(twitterUrl)) || (inputType == FileInput && file.None?)
    {
    }

    /** The username the analysis is run for. */
    function AnalysisUsername(): string
      reads this
      requires CanAnalyze()
    {
      match inputType
      case UrlInput => ExtractUsernameFromUrl(twitterUrl)
      case FileInput => FileStem(file.value.name)
    }

    method SetInputType(t: InputType)
      modifies this
      ensures inputType == t
      ensures twitterUrl == old(twitterUrl) && file == old(file)
      ensures loading == old(loading) && result == old(result)
    {
      inputType := t;
    }

    method SetTwitterUrl(url: string)
      modifies this
      ensures twitterUrl == url
      ensures inputType == old(inputType) && file == old(file)
      ensures loading == old(loading) && result == old(result)
    {
      twitterUrl := url;
    }

    /** handleFileChange: only a selected file replaces the current one. */
    method HandleFileChange(selected: Option<FileRef>)
      modifies this
      ensures file == if selected.Some? then selected else old(file)
      ensures inputType == old(inputType) && twitterUrl == old(twitterUrl)
      ensures loading == old(loading) && result == old(result)
    {
      if selected.Some? {
        file := selected;
      }
    }

    /**
     * handleAnalyze: returns the pair passed to onAnalysisComplete, or None
     * when an early return fires. The draws and the clock are parameters:
     * `profileNow` is the reading inside generateMockProfile, `predictionNow`
     * stands for both readings inside generatePrediction.
     */
    method HandleAnalyze(d: ProfileDraws, profileNow: real, predictionNow: real, draw: real)
      returns (completed: Option<Analysis>)
      requires ValidDraws(d) && IsDraw(draw)
      modifies this
      ensures !old(CanAnalyze()) ==> completed == None && loading == old(loading) && result == old(result)
      ensures old(CanAnalyze()) ==>
        var profile := GenerateMockProfile(old(AnalysisUsername()), d, profileNow);
        completed == Some(Analysis(profile, PredictionOf(profile, predictionNow, draw)))
      ensures old(CanAnalyze()) ==> result == completed && !loading
      ensures inputType == old(inputType) && twitterUrl == old(twitterUrl) && file == old(file)
    {
      if inputType == UrlInput && IsBlank(twitterUrl) {
        return None;
      }
      if inputType == FileInput && file.None? {
        return None;
      }
      loading := true;
      var username := if inputType == UrlInput then ExtractUsernameFromUrl(twitterUrl) else FileStem(file.value.name);
      var profile := GenerateMockProfile(username, d, profileNow);
      var prediction := GeneratePrediction(profile, predictionNow, draw);
      result := Some(Analysis(profile, prediction));
      completed := Some(Analysis(profile, prediction));
      loading := false;
    }
  }
}
