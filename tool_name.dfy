/**
 * The tool-name synthesizer of the endpoint tool generator
 * (`generateToolName` in src/services/generateEndpointToolCode.ts): an
 * identifier built from the HTTP method, the path and the operationId.
 */
module ToolNaming {
  import opened Text
  import opened Json

  /** The three naming flags, with the defaults the generator uses. */
  datatype NameOptions = NameOptions(includeApi: bool, includeVersion: bool, singularize: bool)

  const DefaultOptions := NameOptions(false, false, true)

  /** The longest name the generator aims for. */
  const MaxLength := 64

  /** The verb prefix of a full name. */
  function MethodPrefix(m: string): string
  {
    var u := Upper(m);
    if u == "GET" then "get"
    else if u == "POST" then "create"
    else if u == "PUT" || u == "PATCH" then "update"
    else if u == "DELETE" then "delete"
    else Lower(m)
  }

  /** The verb prefix of a shortened name. */
  function ShortPrefix(m: string): string
  {
    var u := Upper(m);
    if u == "GET" then "get"
    else if u == "POST" then "crt"
    else if u == "PUT" || u == "PATCH" then "upd"
    else if u == "DELETE" then "del"
    else Lower(m)
  }

  /** The fixed abbreviation table, keyed by lower-cased segment. */
  const Abbreviations: map<string, string> := map[
    "organization" := "org", "organizations" := "orgs", "generate" := "gen",
    "information" := "info", "application" := "app", "applications" := "apps",
    "identification" := "id", "parameter" := "param", "parameters" := "params",
    "report" := "rpt", "configuration" := "config", "administrator" := "admin",
    "authentication" := "auth", "authorization" := "authz", "notification" := "notice",
    "notifications" := "notices", "document" := "doc", "documents" := "docs",
    "category" := "cat", "categories" := "cats", "subscription" := "sub",
    "subscriptions" := "subs", "preference" := "pref", "preferences" := "prefs",
    "message" := "msg", "messages" := "msgs", "profile" := "prof",
    "profiles" := "profs", "setting" := "set", "settings" := "sets"]

  /** An operationId that is used as the name: non-empty, without `_` and `.`. */
  predicate UsableOperationId(operationId: Option<string>)
  {
    operationId.Some? && operationId.value != "" && '_' !in operationId.value && '.' !in operationId.value
  }

  // ---------------------------------------------------------------- path cleaning

  /** A match of `\.[^/.]+$` starting at `i`. */
  predicate ExtensionAt(s: string, i: int)
  {
    0 <= i < |s| - 1 && s[i] == '.' && forall k :: i < k < |s| ==> s[k] != '/' && s[k] != '.'
  }

  /** The length of the longest suffix of `s` without `/` and `.`. */
  function TrailingName(s: string): (n: nat)
    ensures n <= |s|
    ensures forall k :: |s| - n <= k < |s| ==> s[k] != '/' && s[k] != '.'
    ensures n < |s| ==> s[|s| - n - 1] == '/' || s[|s| - n - 1] == '.'
  {
    if s == [] || s[|s| - 1] == '/' || s[|s| - 1] == '.' then 0
    else 1 + TrailingName(s[..|s| - 1])
  }

  /** `path.replace(/\.[^/.]+$/, '')`: the file extension, if any, is removed. */
  function StripExtension(s: string): (r: string)
    ensures (exists i :: ExtensionAt(s, i)) ==> exists i :: ExtensionAt(s, i) && r == s[..i]
    ensures (forall i :: !ExtensionAt(s, i)) ==> r == s
  {
    var n := TrailingName(s);
    if 1 <= n < |s| && s[|s| - n - 1] == '.' then
      assert ExtensionAt(s, |s| - n - 1);
      s[..|s| - n - 1]
    else
      assert forall i :: !ExtensionAt(s, i);
      s
  }

  /** `s.split('?')[0]`: the text before the first `?`. */
  function StripQuery(s: string): (r: string)
    ensures '?' !in r && StartsWith(s, r)
  {
    Split(s, '?')[0]
  }

  /** `split('/').filter(Boolean)`: the non-empty pieces between slashes. */
  function Segments(path: string): (r: seq<string>)
    ensures forall k :: 0 <= k < |r| ==> r[k] != "" && '/' !in r[k]
  {
    NonEmpty(Split(StripQuery(StripExtension(path)), '/'))
  }

  /** The non-empty strings of `xs`, in order (`filter(Boolean)`). */
  function NonEmpty(xs: seq<string>): (r: seq<string>)
    ensures forall k :: 0 <= k < |r| ==> r[k] != "" && r[k] in xs
    ensures |r| <= |xs|
  {
    if xs == [] then []
    else (if xs[0] == "" then [] else [xs[0]]) + NonEmpty(xs[1..])
  }

  // ---------------------------------------------------------------- segments

  /** `/^v\d+$/`. */
  predicate IsVersion(seg: string)
  {
    |seg| >= 2 && seg[0] == 'v' && forall k :: 1 <= k < |seg| ==> IsDigit(seg[k])
  }

  predicate IsPlaceholder(seg: string)
  {
    StartsWith(seg, "{") && EndsWith(seg, "}")
  }

  /** `segment.substring(1, segment.length - 1)`; for `{` alone the bounds swap and give `{`. */
  function PlaceholderName(seg: string): string
    requires IsPlaceholder(seg)
  {
    if |seg| >= 2 then seg[1..|seg| - 1] else seg
  }

  /** The singular form a last segment ending in `s` takes. */
  function Singular(seg: string): (r: string)
    requires EndsWith(seg, "s")
    ensures |r| < |seg|
  {
    if EndsWith(seg, "ies") then seg[..|seg| - 3] + "y" else seg[..|seg| - 1]
  }

  /** The text a segment has before the abbreviation table is consulted. */
  function Resource(seg: string, isLast: bool, opts: NameOptions): string
  {
    if opts.singularize && isLast && EndsWith(seg, "s") then Singular(seg) else seg
  }

  /** Which branch of the segment mapping a segment takes. */
  datatype SegmentKind = Dropped | Placeholder | Word

  function KindOf(seg: string, opts: NameOptions): SegmentKind
  {
    if Lower(seg) == "api" && !opts.includeApi then Dropped
    else if IsVersion(seg) && !opts.includeVersion then Dropped
    else if IsPlaceholder(seg) then Placeholder
    else Word
  }

  /** `abbreviationMap[word.toLowerCase()] || word`, with only the table's own keys. */
  function Abbreviate(word: string): string
  {
    if Lower(word) in Abbreviations then Abbreviations[Lower(word)] else word
  }

  /** One segment's contribution to the name; empty when the segment is dropped. */
  function ProcessSegment(seg: string, isLast: bool, opts: NameOptions): (r: string)
    ensures r != "" ==> !IsAsciiLower(r[0])
    ensures KindOf(seg, opts) == Dropped ==> r == ""
    ensures KindOf(seg, opts) == Placeholder ==> r == Capitalize(PlaceholderName(seg))
  {
    match KindOf(seg, opts)
    case Dropped => ""
    case Placeholder => Capitalize(PlaceholderName(seg))
    case Word => Capitalize(Abbreviate(Resource(seg, isLast, opts)))
  }

  /** The mapped segments, `segs[k]` being at index `from + k` of `count` segments. */
  function MapSegments(segs: seq<string>, from: nat, count: nat, opts: NameOptions): (r: seq<string>)
    ensures |r| == |segs|
    ensures forall k :: 0 <= k < |segs| ==> r[k] == ProcessSegment(segs[k], from + k == count - 1, opts)
  {
    if segs == [] then []
    else [ProcessSegment(segs[0], from == count - 1, opts)] + MapSegments(segs[1..], from + 1, count, opts)
  }

  /** `segments.map(...).filter(Boolean)`. */
  function ProcessedSegments(path: string, opts: NameOptions): (r: seq<string>)
    ensures forall k :: 0 <= k < |r| ==> r[k] != "" && !IsAsciiLower(r[k][0])
  {
    var segs := Segments(path);
    NonEmpty(MapSegments(segs, 0, |segs|, opts))
  }

  // ---------------------------------------------------------------- assembling

  /**
   * The greedy shortening: segments are appended while the name stays
   * within the limit, stopping at the first that does not fit.
   */
  function Fit(acc: string, segs: seq<string>): (r: string)
    ensures |acc| <= MaxLength ==> |r| <= MaxLength
    ensures StartsWith(r, acc)
    decreases |segs|
  {
    if segs == [] then acc
    else if |acc + segs[0]| <= MaxLength then Fit(acc + segs[0], segs[1..])
    else acc
  }

  /** `generateToolName`, with the abbreviation lookup limited to the table's own keys. */
  function ToolName(m: string, path: string, operationId: Option<string>, opts: NameOptions): string
  {
    if UsableOperationId(operationId) then Take(operationId.value, MaxLength)
    else
      var segs := ProcessedSegments(path, opts);
      var full := MethodPrefix(m) + Concat(segs);
      if |full| > MaxLength then Fit(ShortPrefix(m), segs) else full
  }

  /** The two loops of `generateToolName`: concatenation, then the greedy rebuild with `break`. */
  method GenerateToolName(m: string, path: string, operationId: Option<string>, opts: NameOptions)
    returns (name: string)
    ensures name == ToolName(m, path, operationId, opts)
  {
    if UsableOperationId(operationId) {
      return Take(operationId.value, MaxLength);
    }
    var segs := ProcessedSegments(path, opts);
    var toolName := Append(MethodPrefix(m), segs);
    if |toolName| > MaxLength {
      name := Shorten(ShortPrefix(m), segs);
    } else {
      name := toolName;
    }
  }

  /** `for (const segment of segs) toolName += segment`. */
  method Append(prefix: string, segs: seq<string>) returns (toolName: string)
    ensures toolName == prefix + Concat(segs)
  {
    toolName := prefix;
    var i := 0;
    while i < |segs|
      invariant 0 <= i <= |segs|
      invariant toolName == prefix + Concat(segs[..i])
    {
      ConcatPrefix(segs, i);
      toolName := toolName + segs[i];
      i := i + 1;
    }
    assert segs[..i] == segs;
  }

  /** The rebuild loop: append while the name fits, `break` at the first segment that does not. */
  method Shorten(short: string, segs: seq<string>) returns (reduced: string)
    ensures reduced == Fit(short, segs)
  {
    reduced := short;
    var i := 0;
    while i < |segs|
      invariant 0 <= i <= |segs|
      invariant Fit(reduced, segs[i..]) == Fit(short, segs)
    {
      assert segs[i..][1..] == segs[i + 1..];
      if |reduced + segs[i]| <= MaxLength {
        reduced := reduced + segs[i];
      } else {
        break;
      }
      i := i + 1;
    }
    if i == |segs| {
      assert segs[i..] == [];
    }
  }

  lemma ConcatPrefix(segs: seq<string>, i: nat)
    requires i < |segs|
    ensures Concat(segs[..i + 1]) == Concat(segs[..i]) + segs[i]
  {
    assert segs[..i + 1] == segs[..i] + [segs[i]];
    ConcatAppend(segs[..i], [segs[i]]);
    assert Concat([segs[i]]) == segs[i] + Concat([]);
  }

  // ---------------------------------------------------------------- properties

  /** A usable operationId decides the name on its own, whatever the method and path. */
  lemma OperationIdWins(m: string, path: string, operationId: Option<string>, opts: NameOptions)
    requires UsableOperationId(operationId)
    ensures ToolName(m, path, operationId, opts) == Take(operationId.value, MaxLength)
    ensures forall m', p', o' :: ToolName(m', p', operationId, o') == ToolName(m, path, operationId, opts)
  {
  }

  /** A name never exceeds the limit, as long as the method's short prefix fits. */
  lemma NameLength(m: string, path: string, operationId: Option<string>, opts: NameOptions)
    requires |ShortPrefix(m)| <= MaxLength
    ensures |ToolName(m, path, operationId, opts)| <= MaxLength
  {
  }

  /**
   * The shortened name is the prefix plus the longest run of leading whole
   * segments that fits: the next segment, if any, would overflow.
   */
  lemma FitMaximal(acc: string, segs: seq<string>)
    ensures exists k :: (0 <= k <= |segs| && Fit(acc, segs) == acc + Concat(segs[..k])
      && (k < |segs| ==> |Fit(acc, segs) + segs[k]| > MaxLength)
      && (forall j :: 0 < j <= k ==> |acc + Concat(segs[..j])| <= MaxLength))
  {
    var k := FitCount(acc, segs);
    FitIsPrefix(acc, segs);
    FitStops(acc, segs);
    FitPrefixesFit(acc, segs);
  }

  /** How many leading segments the greedy shortening keeps. */
  function FitCount(acc: string, segs: seq<string>): (k: nat)
    ensures k <= |segs|
    decreases |segs|
  {
    if segs == [] then 0
    else if |acc + segs[0]| <= MaxLength then 1 + FitCount(acc + segs[0], segs[1..])
    else 0
  }

  /** Concatenating the first `k + 1` segments is the first segment followed by the next `k`. */
  lemma ConcatFront(segs: seq<string>, k: nat)
    requires k < |segs|
    ensures Concat(segs[..k + 1]) == segs[0] + Concat(segs[1..][..k])
  {
    assert segs[..k + 1][1..] == segs[1..][..k];
  }

  lemma {:induction false} FitIsPrefix(acc: string, segs: seq<string>)
    ensures Fit(acc, segs) == acc + Concat(segs[..FitCount(acc, segs)])
    decreases |segs|
  {
    if segs != [] && |acc + segs[0]| <= MaxLength {
      FitIsPrefix(acc + segs[0], segs[1..]);
      ConcatFront(segs, FitCount(acc + segs[0], segs[1..]));
    } else {
      assert segs[..0] == [];
    }
  }

  lemma {:induction false} FitStops(acc: string, segs: seq<string>)
    ensures FitCount(acc, segs) < |segs| ==> |Fit(acc, segs) + segs[FitCount(acc, segs)]| > MaxLength
    decreases |segs|
  {
    if segs != [] && |acc + segs[0]| <= MaxLength {
      FitStops(acc + segs[0], segs[1..]);
    }
  }

  lemma {:induction false} FitPrefixesFit(acc: string, segs: seq<string>)
    ensures forall j :: 0 < j <= FitCount(acc, segs) ==> |acc + Concat(segs[..j])| <= MaxLength
    decreases |segs|
  {
    if segs != [] && |acc + segs[0]| <= MaxLength {
      FitPrefixesFit(acc + segs[0], segs[1..]);
      forall j | 0 < j <= FitCount(acc, segs)
        ensures |acc + Concat(segs[..j])| <= MaxLength
      {
        ConcatFront(segs, j - 1);
        if j > 1 {
          assert acc + Concat(segs[..j]) == acc + segs[0] + Concat(segs[1..][..j - 1]);
        } else {
          assert segs[1..][..0] == [];
        }
      }
    }
  }

  /** With the api flag off, an `api` segment contributes nothing, in any letter case. */
  lemma ApiDropped(seg: string, isLast: bool, opts: NameOptions)
    requires Lower(seg) == "api" && !opts.includeApi
    ensures ProcessSegment(seg, isLast, opts) == ""
  {
  }

  /** With the version flag off, a `v<digits>` segment contributes nothing. */
  lemma VersionDropped(seg: string, isLast: bool, opts: NameOptions)
    requires IsVersion(seg) && !opts.includeVersion
    ensures ProcessSegment(seg, isLast, opts) == ""
  {
  }

  /** A placeholder is unwrapped and capitalised, and is neither singularised nor abbreviated. */
  lemma PlaceholderKept(name: string, isLast: bool, opts: NameOptions)
    requires '{' !in name && '}' !in name && name != "" && Lower(name) != "api"
    ensures ProcessSegment("{" + name + "}", isLast, opts) == Capitalize(name)
  {
    var seg := "{" + name + "}";
    assert seg[..1] == "{";
    assert seg[|seg| - 1..] == "}";
    assert seg[1..|seg| - 1] == name;
    assert !IsVersion(seg) by { assert seg[0] == '{'; }
    assert Lower(seg) != "api" by { assert Lower(seg)[0] == '{'; }
  }

  /** The last name of a path that ends in a slash and a name has exactly that name's length. */
  lemma {:induction false} TrailingNameAfterSlash(p: string, b: string)
    requires p != [] && p[|p| - 1] == '/'
    requires '/' !in b && '.' !in b
    ensures TrailingName(p + b) == |b|
    decreases |b|
  {
    if b == [] {
      assert p + b == p;
    } else {
      var init := b[..|b| - 1];
      assert (p + b)[..|p + b| - 1] == p + init;
      assert (p + b)[|p + b| - 1] == b[|b| - 1];
      assert b[|b| - 1] in b;
      TrailingNameAfterSlash(p, init);
    }
  }

  /** A path whose last name follows a slash has no extension to strip. */
  lemma NoExtension(p: string, b: string)
    requires p != [] && p[|p| - 1] == '/'
    requires '/' !in b && '.' !in b
    ensures StripExtension(p + b) == p + b
  {
    TrailingNameAfterSlash(p, b);
    var s := p + b;
    assert s[|s| - |b| - 1] == '/';
  }

  lemma NoQuery(s: string)
    requires '?' !in s
    ensures StripQuery(s) == s
  {
  }

  /** A path `/a/b` of two plain names has the segments `a` and `b`. */
  lemma TwoSegments(a: string, b: string)
    requires a != "" && b != ""
    requires '/' !in a && '.' !in a && '?' !in a
    requires '/' !in b && '.' !in b && '?' !in b
    ensures Segments("/" + a + "/" + b) == [a, b]
  {
    var s := "/" + a + "/" + b;
    assert StripQuery(StripExtension(s)) == s by {
      NoExtension("/" + a + "/", b);
      NoQuery(s);
    }
    SplitTwo(a, b);
    assert NonEmpty(["", a, b]) == [a, b] by {
      assert NonEmpty(["", a, b]) == [a] + NonEmpty([b]);
    }
  }

  lemma SplitTwo(a: string, b: string)
    requires '/' !in a && '/' !in b
    ensures Split("/" + a + "/" + b, '/') == ["", a, b]
  {
    var rest := a + "/" + b;
    SplitAfter("", rest);
    assert "/" + a + "/" + b == "" + "/" + rest;
    SplitAfter(a, b);
  }

  /** Splitting at the first slash. */
  lemma SplitAfter(a: string, b: string)
    requires '/' !in a
    ensures Split(a + "/" + b, '/') == [a] + Split(b, '/')
  {
    FirstIndexAfterFree(a, '/', b);
    var s := a + "/" + b;
    assert s[..|a|] == a;
    assert s[|a| + 1..] == b;
  }

  /** A path `/b` of one plain name has the one segment `b`. */
  lemma OneSegment(b: string)
    requires b != "" && '/' !in b && '.' !in b && '?' !in b
    ensures Segments("/" + b) == [b]
  {
    var s := "/" + b;
    NoExtension("/", b);
    NoQuery(s);
    SplitAfter("", b);
    assert s == "" + "/" + b;
    assert Split(s, '/') == ["", b];
    assert NonEmpty(["", b]) == [b];
  }

  /** An all-lower-case word is its own lower-case form. */
  lemma LowerWord(w: string)
    requires forall i :: 0 <= i < |w| ==> IsAsciiLower(w[i])
    ensures Lower(w) == w
  {
  }

  /** A lower-case word that is not `api` and does not start with `v` or `{` is an ordinary word. */
  lemma PlainWord(w: string, isLast: bool)
    requires w != "" && forall i :: 0 <= i < |w| ==> IsAsciiLower(w[i])
    requires w != "api" && w[0] != 'v'
    ensures KindOf(w, DefaultOptions) == Word
    ensures ProcessSegment(w, isLast, DefaultOptions) == Capitalize(Abbreviate(Resource(w, isLast, DefaultOptions)))
  {
    LowerWord(w);
    assert !IsPlaceholder(w) by { assert w[..1] != "{"; }
  }

  lemma OrgSegment()
    ensures ProcessSegment("organizations", true, DefaultOptions) == "Org"
  {
    var w := "organizations";
    PlainWord(w, true);
    assert EndsWith(w, "s") && !EndsWith(w, "ies");
    assert Resource(w, true, DefaultOptions) == "organization";
    LowerWord("organization");
    assert Abbreviate("organization") == "org";
  }

  lemma ConstructorWord()
    ensures ProcessSegment("constructors", true, DefaultOptions) == "Constructor"
    ensures ProcessSegmentAsWritten("constructors", true, DefaultOptions).Err?
  {
    var w := "constructors";
    PlainWord(w, true);
    assert EndsWith(w, "s") && !EndsWith(w, "ies");
    assert Resource(w, true, DefaultOptions) == "constructor";
    LowerWord("constructor");
    assert "constructor" !in Abbreviations;
    assert Abbreviate("constructor") == "constructor";
  }

  lemma GetPrefix()
    ensures MethodPrefix("GET") == "get"
  {
    assert Upper("GET") == "GET";
  }

  lemma NameText(prefix: string, seg: string, name: string)
    requires prefix + seg == name
    ensures prefix + Concat([seg]) == name
  {
    assert Concat([seg]) == seg + Concat([]);
  }

  /** A name within the limit is the prefix followed by every mapped segment. */
  lemma UnshortenedName(m: string, path: string, operationId: Option<string>, opts: NameOptions)
    requires !UsableOperationId(operationId)
    requires |MethodPrefix(m) + Concat(ProcessedSegments(path, opts))| <= MaxLength
    ensures ToolName(m, path, operationId, opts) == MethodPrefix(m) + Concat(ProcessedSegments(path, opts))
  {
  }

  lemma OrgPath()
    ensures ProcessedSegments("/v3/organizations", DefaultOptions) == ["Org"]
  {
    assert Segments("/v3/organizations") == ["v3", "organizations"] by {
      assert "/v3/organizations" == "/" + "v3" + "/" + "organizations";
      TwoSegments("v3", "organizations");
    }
    OrgMapped();
  }

  lemma OrgMapped()
    ensures NonEmpty(MapSegments(["v3", "organizations"], 0, 2, DefaultOptions)) == ["Org"]
  {
    assert IsVersion("v3");
    OrgSegment();
    assert MapSegments(["v3", "organizations"], 0, 2, DefaultOptions) == ["", "Org"];
    assert NonEmpty(["", "Org"]) == ["Org"];
  }

  // ---------------------------------------------------------------- as written

  /** The inherited keys of an object literal that `abbreviationMap[...]` finds besides the table. */
  predicate InheritedKey(key: string)
  {
    key == "constructor" || key == "__proto__"
  }

  /**
   * A segment as the source maps it: a word whose lower-cased form is an
   * inherited key of the table object reads a non-string, and calling
   * `charAt` on it throws.
   */
  function ProcessSegmentAsWritten(seg: string, isLast: bool, opts: NameOptions): Result<string>
  {
    if KindOf(seg, opts) == Word && Lower(Resource(seg, isLast, opts)) !in Abbreviations
      && InheritedKey(Lower(Resource(seg, isLast, opts)))
    then Err("shortSegment.charAt is not a function")
    else Ok(ProcessSegment(seg, isLast, opts))
  }

  /** The mapped segments as the source computes them; the first throw ends the map. */
  function MapSegmentsAsWritten(segs: seq<string>, from: nat, count: nat, opts: NameOptions): Result<seq<string>>
  {
    if segs == [] then Ok([])
    else match ProcessSegmentAsWritten(segs[0], from == count - 1, opts)
      case Err(e) => Err(e)
      case Ok(s) =>
        match MapSegmentsAsWritten(segs[1..], from + 1, count, opts)
        case Err(e) => Err(e)
        case Ok(rest) => Ok([s] + rest)
  }

  /** `generateToolName` as written. */
  function ToolNameAsWritten(m: string, path: string, operationId: Option<string>, opts: NameOptions): Result<string>
  {
    if UsableOperationId(operationId) then Ok(Take(operationId.value, MaxLength))
    else
      var segs := Segments(path);
      match MapSegmentsAsWritten(segs, 0, |segs|, opts)
      case Err(e) => Err(e)
      case Ok(mapped) =>
        var processed := NonEmpty(mapped);
        var full := MethodPrefix(m) + Concat(processed);
        Ok(if |full| > MaxLength then Fit(ShortPrefix(m), processed) else full)
  }

  /** Where the source does not throw, it agrees with the corrected synthesizer. */
  lemma {:induction false} MapSegmentsAgree(segs: seq<string>, from: nat, count: nat, opts: NameOptions)
    ensures MapSegmentsAsWritten(segs, from, count, opts).Ok? ==>
      MapSegmentsAsWritten(segs, from, count, opts).value == MapSegments(segs, from, count, opts)
  {
    if segs != [] {
      MapSegmentsAgree(segs[1..], from + 1, count, opts);
    }
  }

  lemma AsWrittenAgrees(m: string, path: string, operationId: Option<string>, opts: NameOptions)
    ensures ToolNameAsWritten(m, path, operationId, opts).Ok? ==>
      ToolNameAsWritten(m, path, operationId, opts).value == ToolName(m, path, operationId, opts)
  {
    var segs := Segments(path);
    MapSegmentsAgree(segs, 0, |segs|, opts);
  }

  lemma ConstructorMapped()
    ensures MapSegmentsAsWritten(["constructors"], 0, 1, DefaultOptions).Err?
    ensures NonEmpty(MapSegments(["constructors"], 0, 1, DefaultOptions)) == ["Constructor"]
  {
    ConstructorWord();
    assert MapSegments(["constructors"], 0, 1, DefaultOptions) == ["Constructor"];
    assert NonEmpty(["Constructor"]) == ["Constructor"];
  }
}

/** Worked examples of the synthesizer, as written and corrected. */
module ToolNamingExamples {
  import opened Text
  import opened Json
  import opened ToolNaming

  /** Singularising happens before the table lookup: `/v3/organizations` names the tool `getOrg`. */
  lemma GetOrganizations()
    ensures ToolName("GET", "/v3/organizations", None, DefaultOptions) == "getOrg"
  {
    OrgPath();
    GetPrefix();
    OrgText();
    UnshortenedName("GET", "/v3/organizations", None, DefaultOptions);
  }

  /** GET `/constructors` makes the source throw ... */
  lemma ConstructorThrows()
    ensures ToolNameAsWritten("GET", "/constructors", None, DefaultOptions).Err?
  {
    ConstructorPath();
    ConstructorMapped();
  }

  lemma ConstructorPath()
    ensures Segments("/constructors") == ["constructors"]
  {
    ConstructorsLower();
    LowerNoPunct("constructors");
    OneSegment("constructors");
    SlashConstructors();
  }

  lemma ConstructorsLower()
    ensures forall i :: 0 <= i < |"constructors"| ==> IsAsciiLower("constructors"[i])
  {
  }

  lemma SlashConstructors()
    ensures "/" + "constructors" == "/constructors"
  {
  }

  lemma LowerNoPunct(w: string)
    requires forall i :: 0 <= i < |w| ==> IsAsciiLower(w[i])
    ensures '/' !in w && '.' !in w && '?' !in w
  {
  }

  /** ... where the evident intent, which the corrected synthesizer meets, is `getConstructor`. */
  lemma ConstructorSegment()
    ensures ToolName("GET", "/constructors", None, DefaultOptions) == "getConstructor"
  {
    ConstructorPath();
    ConstructorMapped();
    GetPrefix();
    ConstructorText();
    UnshortenedName("GET", "/constructors", None, DefaultOptions);
  }

  lemma OrgText()
    ensures "get" + Concat(["Org"]) == "getOrg"
  {
    assert Concat(["Org"]) == "Org";
  }

  lemma ConstructorText()
    ensures "get" + Concat(["Constructor"]) == "getConstructor"
  {
    assert Concat(["Constructor"]) == "Constructor";
  }
}
