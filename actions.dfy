/** The action parser: the model's text, one directive per line, becomes an ordered list
    of typed action records. Each line is classified by the first marker it contains
    (CALC:, SEARCH:, PERSON:, PLACE:, INSTALL:, in that order) or by an OPEN: prefix;
    some kinds consult one collaborator and fall back to a fixed record when it finds
    nothing. */
module Actions {
  import opened Wrappers
  import opened PyStr
  import Calculator

  /** A navigation lookup's first result. */
  datatype NavResult = NavResult(url: Option<string>, title: string, description: string)

  /** A person card as the identity lookup builds it. */
  datatype PersonCard = PersonCard(name: string, description: string, url: Option<string>, image: Option<string>)

  /** A place card as the place lookup builds it. */
  datatype PlaceCard = PlaceCard(
    name: string, address: string, latitude: Option<string>, longitude: Option<string>,
    url: Option<string>, image: Option<string>)

  /** An action record, one variant per `type`. */
  datatype Action =
    | Link(url: Option<string>, title: string, description: string)
    | Person(person: PersonCard)
    | Place(place: PlaceCard)
    | Calc(content: string)
    | Install(name: string, website: Option<string>, content: string)
    | Status(content: string)

  /** The collaborators the parser consults; each gives None when it finds nothing or fails. */
  datatype Lookups = Lookups(
    navigation: string -> Option<NavResult>,
    person: string -> Option<PersonCard>,
    place: string -> Option<PlaceCard>,
    eval: Calculator.Evaluator)

  // ---------------------------------------------------------------- titles and fallbacks

  /** The host part of a URL: "https://" and "www." removed everywhere, then everything
      from the first '/' on dropped. */
  function UrlHost(url: string): string {
    Split(Replace(Replace(url, "https://", ""), "www.", ""), "/")[0]
  }

  /** The title shown for a URL: its host, title-cased. */
  function UrlTitle(url: string): string {
    Title(UrlHost(url))
  }

  /** A URL's host and title for any URL made of an optional "https://", an optional
      "www.", a host without ':', '/' or "www.", and nothing or a path: the host comes
      out unchanged and the title is its `str.title`. */
  lemma UrlHostOfParts(scheme: string, w: string, h: string, t: string)
    requires scheme == "" || scheme == "https://"
    requires w == "" || w == "www."
    requires forall i :: 0 <= i < |h| ==> h[i] != ':' && h[i] != '/'
    requires !Contains(h, "www.")
    requires t == [] || t[0] == '/'
    ensures UrlHost(scheme + w + h + t) == h
    ensures UrlTitle(scheme + w + h + t) == Title(h)
  {
    var t1 := SchemeRemoved(scheme, w, h, t);
    var t2 := WwwRemoved(w, h, t1);
    PathDropped(h, t2);
  }

  /** Removing "https://" leaves the "www." and the host and works on the path alone. */
  lemma SchemeRemoved(scheme: string, w: string, h: string, t: string) returns (t1: string)
    requires scheme == "" || scheme == "https://"
    requires w == "" || w == "www."
    requires forall i :: 0 <= i < |h| ==> h[i] != ':' && h[i] != '/'
    requires t == [] || t[0] == '/'
    ensures Replace(scheme + w + h + t, "https://", "") == w + h + t1
    ensures t1 == [] || t1[0] == '/'
  {
    t1 := Replace(t, "https://", "");
    var url := scheme + w + h + t;
    assert forall i :: 0 <= i < |w + h| ==> (w + h)[i] != ':' && (w + h)[i] != '/' by {
      forall i | 0 <= i < |w + h|
        ensures (w + h)[i] != ':' && (w + h)[i] != '/'
      {
        if i >= |w| {
          assert (w + h)[i] == h[i - |w|];
        }
      }
    }
    SchemeNotInside(w + h, t);
    assert url == scheme + (w + h) + t;
    ReplaceAfterOptionalLead(scheme, w + h, "https://", t);
    SlashLeadKept(t, "https://");
  }

  /** Removing "www." leaves the host and works on the path alone. */
  lemma WwwRemoved(w: string, h: string, t1: string) returns (t2: string)
    requires w == "" || w == "www."
    requires !Contains(h, "www.")
    requires t1 == [] || t1[0] == '/'
    ensures Replace(w + h + t1, "www.", "") == h + t2
    ensures t2 == [] || t2[0] == '/'
  {
    t2 := Replace(t1, "www.", "");
    WwwNotInside(h, t1);
    ReplaceAfterOptionalLead(w, h, "www.", t1);
    SlashLeadKept(t1, "www.");
  }

  /** Splitting at '/' drops the path after a host without '/'. */
  lemma PathDropped(h: string, t2: string)
    requires forall i :: 0 <= i < |h| ==> h[i] != '/'
    requires t2 == [] || t2[0] == '/'
    ensures Split(h + t2, "/")[0] == h
  {
    if t2 == [] {
      LeadAbsent(h, "/");
      assert h + t2 == h;
    } else {
      assert h + t2 == h + ['/'] + t2[1..];
      SplitAtChar(h, '/', t2[1..]);
    }
  }

  /** No "https://" starts inside text without ':' and '/' that is followed by nothing
      or by a '/'. */
  lemma SchemeNotInside(a: string, t: string)
    requires forall i :: 0 <= i < |a| ==> a[i] != ':' && a[i] != '/'
    requires t == [] || t[0] == '/'
    ensures forall k :: 0 <= k < |a| ==> !OccursAt(a + t, "https://", k)
  {
    var s := a + t;
    forall k | 0 <= k < |a|
      ensures !OccursAt(s, "https://", k)
    {
      if k + 8 <= |s| {
        if k + 5 < |a| {
          assert s[k..k + 8][5] == a[k + 5];
        } else {
          var d := |a| - k;
          assert s[k..k + 8][d] == t[0] == '/';
        }
      }
    }
  }

  /** No "www." starts inside a host without it that is followed by nothing or a '/'. */
  lemma WwwNotInside(h: string, t: string)
    requires !Contains(h, "www.")
    requires t == [] || t[0] == '/'
    ensures forall k :: 0 <= k < |h| ==> !OccursAt(h + t, "www.", k)
  {
    var s := h + t;
    forall k | 0 <= k < |h|
      ensures !OccursAt(s, "www.", k)
    {
      if k + 4 <= |s| {
        if k + 4 <= |h| {
          assert !OccursAt(h, "www.", k);
          assert s[k..k + 4] == h[k..k + 4];
        } else {
          var d := |h| - k;
          assert s[k..k + 4][d] == t[0] == '/';
        }
      }
    }
  }

  /** Removing a separator that does not start with '/' keeps a leading '/'. */
  lemma SlashLeadKept(t: string, sep: string)
    requires sep != [] && sep[0] != '/'
    requires t == [] || t[0] == '/'
    ensures var r := Replace(t, sep, ""); r == [] || r[0] == '/'
  {
    if t == [] {
      LeadAbsent(t, sep);
    } else {
      assert t == ['/'] + t[1..];
      assert !OccursAt(t, sep, 0) by {
        if |sep| <= |t| {
          assert t[0..|sep|][0] == '/';
        }
      }
      ReplaceKeepsPrefix(['/'], sep, t[1..]);
    }
  }

  /** A URL title never holds a '/'. */
  lemma UrlTitleShape(url: string)
    ensures !Contains(UrlTitle(url), "/")
  {
    var host := UrlHost(url);
    var t := UrlTitle(url);
    SplitPiecesFree(Replace(Replace(url, "https://", ""), "www.", ""), "/", 0);
    forall k | 0 <= k <= |t|
      ensures !OccursAt(t, "/", k)
    {
      if k < |t| {
        TitleAt(host, k);
        assert !OccursAt(host, "/", k);
        assert host[k..k + 1] == [host[k]];
        assert t[k..k + 1] == [t[k]];
      }
    }
  }

  /** The redirect link for a SEARCH line without a navigation result, and for a PERSON
      line of fewer than two words. */
  function RedirectLink(q: string): Action {
    Link(Some("https://duckduckgo.com/?q=!ducky+" + q), "Open " + Title(q), "Redirect to Website")
  }

  /** The placeholder card for a person the identity lookup did not find. */
  function PersonPlaceholder(name: string): Action {
    Person(PersonCard(Title(name), "Press Enter to search info.", Some("https://www.google.com/search?q=" + name), None))
  }

  /** The map link for a place the place lookup did not find; the query is not encoded. */
  function MapLink(q: string): Action {
    Link(Some("https://www.google.com/maps/search/" + q), "Map of " + q, "Open in Google Maps")
  }

  /** The link of an OPEN line. */
  function OpenLink(target: string): Action {
    Link(Some(target), UrlTitle(target), "Suggested Link")
  }

  // ---------------------------------------------------------------- classification

  /** The markers looked for anywhere in a line, in order of precedence. */
  const Markers: seq<string> := ["CALC:", "SEARCH:", "PERSON:", "PLACE:", "INSTALL:"]

  /** What a line asks for, with the stripped text that follows its marker. */
  datatype Directive =
    | CalcOf(expr: string)
    | SearchOf(query: string)
    | PersonOf(name: string)
    | PlaceOf(place: string)
    | InstallOf(app: string)
    | OpenOf(target: string)
    | Ignored

  /** The stripped text between the first occurrence of `marker` and the next one. */
  function After(line: string, marker: string): string
    requires marker != [] && Contains(line, marker)
  {
    Strip(Split(line, marker)[1])
  }

  /** The OPEN test: the line starts with "OPEN:" in any letter case. */
  predicate OpenPrefixed(line: string) {
    StartsWith(line, "OPEN:") || StartsWith(Upper(line), "OPEN:")
  }

  /** Classifies one raw line of model text. */
  function Classify(raw: string): Directive {
    var line := Strip(raw);
    if line == "" then Ignored
    else if Contains(line, "CALC:") then CalcOf(After(line, "CALC:"))
    else if Contains(line, "SEARCH:") then SearchOf(After(line, "SEARCH:"))
    else if Contains(line, "PERSON:") then PersonOf(After(line, "PERSON:"))
    else if Contains(line, "PLACE:") then PlaceOf(After(line, "PLACE:"))
    else if Contains(line, "INSTALL:") then InstallOf(After(line, "INSTALL:"))
    else if OpenPrefixed(line) && Contains(line, "OPEN:") then OpenOf(After(line, "OPEN:"))
    else Ignored
  }

  /** The action a directive produces, consulting at most one collaborator. */
  function Resolve(d: Directive, o: Lookups): Option<Action> {
    match d
    case CalcOf(expr) =>
      Some(Calc(Calculator.CalcContent(Calculator.CalcMessage(expr, o.eval))))
    case SearchOf(q) =>
      Some(match o.navigation(q)
           case Some(r) => Link(r.url, r.title, r.description)
           case None => RedirectLink(q))
    case PersonOf(name) =>
      if |Words(name)| >= 2 then
        Some(match o.person(name)
             case Some(card) => Person(card)
             case None => PersonPlaceholder(name))
      else Some(RedirectLink(name))
    case PlaceOf(q) =>
      Some(match o.place(q)
           case Some(card) => Place(card)
           case None => MapLink(q))
    case InstallOf(app) =>
      var website := match o.navigation(app) case Some(r) => r.url case None => None;
      Some(Install(app, website, "Install " + app))
    case OpenOf(target) => Some(OpenLink(target))
    case Ignored => None
  }

  /** The action (if any) one raw line produces. */
  function LineAction(raw: string, o: Lookups): Option<Action> {
    Resolve(Classify(raw), o)
  }

  /** The actions of the given lines, in line order. */
  function ParseLines(lines: seq<string>, o: Lookups): seq<Action> {
    if lines == [] then []
    else
      var last := LineAction(lines[|lines| - 1], o);
      ParseLines(lines[..|lines| - 1], o) + (if last.Some? then [last.value] else [])
  }

  /** The actions of a whole model answer, split into lines at '\n'. */
  function ParseText(text: string, o: Lookups): seq<Action> {
    ParseLines(Split(text, "\n"), o)
  }

  /** One line's branch of the result-processing loop; a CALC line runs the calculator. */
  method ResolveLine(d: Directive, o: Lookups) returns (a: Option<Action>)
    ensures a == Resolve(d, o)
    ensures a.None? <==> d == Ignored
  {
    if d.CalcOf? {
      var msg := Calculator.PerformCalculation(d.expr, o.eval);
      a := Some(Calc(Calculator.CalcContent(msg)));
    } else {
      a := Resolve(d, o);
    }
  }

  /** The actions of the first i + 1 lines extend those of the first i by line i's action. */
  lemma ParseLinesStep(lines: seq<string>, i: nat, o: Lookups)
    requires i < |lines|
    ensures var a := LineAction(lines[i], o);
      ParseLines(lines[..i + 1], o) == ParseLines(lines[..i], o) + (if a.Some? then [a.value] else [])
  {
    assert lines[..i + 1][..i] == lines[..i];
  }

  /** The result-processing loop: one pass over the lines, appending each line's action. */
  method ParseActions(text: string, o: Lookups) returns (actions: seq<Action>)
    ensures actions == ParseText(text, o)
  {
    var lines := Split(text, "\n");
    actions := [];
    for i := 0 to |lines|
      invariant actions == ParseLines(lines[..i], o)
    {
      var a := ResolveLine(Classify(lines[i]), o);
      ParseLinesStep(lines, i, o);
      if a.Some? {
        actions := actions + [a.value];
      }
    }
    assert lines[..|lines|] == lines;
  }

  // ---------------------------------------------------------------- properties

  /** The index of the first marker of `Markers[k..]` the line contains, or |Markers|. */
  function FirstMarker(line: string, k: nat): (m: nat)
    requires k <= |Markers|
    ensures k <= m <= |Markers|
    decreases |Markers| - k
  {
    if k == |Markers| then k
    else if Contains(line, Markers[k]) then k
    else FirstMarker(line, k + 1)
  }

  /** The directive of the marker at index `k` of `Markers`. */
  function MarkerDirective(k: nat, arg: string): Directive
    requires k < |Markers|
  {
    [CalcOf(arg), SearchOf(arg), PersonOf(arg), PlaceOf(arg), InstallOf(arg)][k]
  }

  /** Classification follows marker precedence: a non-blank line is handled by the first
      marker of the list it contains, with the text after that marker; only a line with no
      marker is tested for OPEN:. */
  lemma ClassifyByPrecedence(raw: string)
    ensures var line := Strip(raw); var k := FirstMarker(line, 0);
      line != "" && k < |Markers| ==> Classify(raw) == MarkerDirective(k, After(line, Markers[k]))
    ensures var line := Strip(raw);
      line != "" && FirstMarker(line, 0) == |Markers| ==>
        Classify(raw) == if OpenPrefixed(line) && Contains(line, "OPEN:") then OpenOf(After(line, "OPEN:")) else Ignored
  {
    var line := Strip(raw);
    if line != "" {
      assert Markers[0] == "CALC:" && Markers[1] == "SEARCH:" && Markers[2] == "PERSON:";
      assert Markers[3] == "PLACE:" && Markers[4] == "INSTALL:";
      assert FirstMarker(line, 0) == 0 || (!Contains(line, "CALC:") && FirstMarker(line, 0) == FirstMarker(line, 1));
      assert FirstMarker(line, 1) == 1 || (!Contains(line, "SEARCH:") && FirstMarker(line, 1) == FirstMarker(line, 2));
      assert FirstMarker(line, 2) == 2 || (!Contains(line, "PERSON:") && FirstMarker(line, 2) == FirstMarker(line, 3));
      assert FirstMarker(line, 3) == 3 || (!Contains(line, "PLACE:") && FirstMarker(line, 3) == FirstMarker(line, 4));
      assert FirstMarker(line, 4) == 4 || (!Contains(line, "INSTALL:") && FirstMarker(line, 4) == 5);
    }
  }

  /** Only an ignored directive produces no action. */
  lemma ResolveNoneIff(d: Directive, o: Lookups)
    ensures Resolve(d, o).None? <==> d == Ignored
  {
  }

  /** Every marker yields a directive that is acted on. */
  lemma MarkerDirectiveNotIgnored(k: nat, arg: string)
    requires k < |Markers|
    ensures MarkerDirective(k, arg) != Ignored
  {
  }

  /** A line produces no action exactly when it is blank, or has no marker and is not an
      OPEN line whose case-sensitive "OPEN:" split has a second part. */
  lemma LineActionNoneIff(raw: string, o: Lookups)
    ensures var line := Strip(raw);
      LineAction(raw, o).None? <==>
        (line == "" || (FirstMarker(line, 0) == |Markers| && !(OpenPrefixed(line) && Contains(line, "OPEN:"))))
  {
    var line := Strip(raw);
    var d := Classify(raw);
    ResolveNoneIff(d, o);
    assert LineAction(raw, o) == Resolve(d, o);
    if line == "" {
      assert d == Ignored;
    } else {
      ClassifyByPrecedence(raw);
      var k := FirstMarker(line, 0);
      if k < |Markers| {
        MarkerDirectiveNotIgnored(k, After(line, Markers[k]));
      }
    }
  }

  /** The OPEN test is a case-insensitive prefix test. */
  lemma OpenPrefixedIff(line: string)
    ensures OpenPrefixed(line) <==> StartsWith(Upper(line), "OPEN:")
  {
    if StartsWith(line, "OPEN:") {
      assert Upper(line)[..5] == "OPEN:";
    }
  }

  /** A lower-case "open:" line holding no "OPEN:" and no marker yields nothing, because
      the text is split on the upper-case marker. */
  lemma LowerCaseOpenDropped(raw: string, o: Lookups)
    requires !Contains(Strip(raw), "OPEN:") && FirstMarker(Strip(raw), 0) == |Markers|
    ensures LineAction(raw, o) == None
  {
    LineActionNoneIff(raw, o);
  }

  /** Parsing is line by line: the actions of consecutive blocks of lines are the
      concatenation of the blocks' actions, so the output follows line order. */
  lemma ParseLinesAppend(a: seq<string>, b: seq<string>, o: Lookups)
    ensures ParseLines(a + b, o) == ParseLines(a, o) + ParseLines(b, o)
  {
    var f := l => LineAction(l, o);
    ParseLinesCollected(a + b, o);
    ParseLinesCollected(a, o);
    ParseLinesCollected(b, o);
    CollectedAppend(a, b, f);
  }

  /** The shape of the line loop for any per-line reading `f`. */
  function Collected(lines: seq<string>, f: string -> Option<Action>): seq<Action> {
    if lines == [] then []
    else
      var last := f(lines[|lines| - 1]);
      Collected(lines[..|lines| - 1], f) + (if last.Some? then [last.value] else [])
  }

  lemma {:induction false} CollectedAppend(a: seq<string>, b: seq<string>, f: string -> Option<Action>)
    ensures Collected(a + b, f) == Collected(a, f) + Collected(b, f)
    decreases |b|
  {
    if b == [] {
      assert a + b == a;
    } else {
      assert (a + b)[..|a + b| - 1] == a + b[..|b| - 1];
      CollectedAppend(a, b[..|b| - 1], f);
    }
  }

  lemma {:induction false} ParseLinesCollected(lines: seq<string>, o: Lookups)
    ensures ParseLines(lines, o) == Collected(lines, l => LineAction(l, o))
  {
    if lines != [] {
      ParseLinesCollected(lines[..|lines| - 1], o);
    }
  }

  /** The number of non-blank lines. */
  function NonBlank(lines: seq<string>): nat {
    if lines == [] then 0 else NonBlank(lines[..|lines| - 1]) + (if Strip(lines[|lines| - 1]) != "" then 1 else 0)
  }

  /** Each non-blank line yields at most one action, blank lines none. */
  lemma {:induction false} AtMostOnePerLine(lines: seq<string>, o: Lookups)
    ensures |ParseLines(lines, o)| <= NonBlank(lines) <= |lines|
  {
    if lines != [] {
      AtMostOnePerLine(lines[..|lines| - 1], o);
      BlankLineNone(lines[|lines| - 1], o);
    }
  }

  /** A blank line yields no action. */
  lemma BlankLineNone(raw: string, o: Lookups)
    ensures Strip(raw) == "" ==> LineAction(raw, o) == None
  {
  }

  /** A SEARCH directive without a navigation result becomes the redirect link for its
      query; a PERSON name of fewer than two words becomes the same link. */
  lemma SearchAndShortNameFallback(q: string, o: Lookups)
    ensures o.navigation(q).None? ==>
      Resolve(SearchOf(q), o) == Some(Link(Some("https://duckduckgo.com/?q=!ducky+" + q), "Open " + Title(q), "Redirect to Website"))
    ensures |Words(q)| < 2 ==> Resolve(PersonOf(q), o) == Resolve(SearchOf(q), o.(navigation := _ => None))
  {
  }

  /** A stripped PERSON name has two words exactly when it holds whitespace; only then is
      the identity lookup consulted, and its failure gives the placeholder card. */
  lemma PersonFallback(name: string, o: Lookups)
    requires name != [] && Stripped(name)
    requires exists i :: 0 <= i < |name| && IsSpace(name[i])
    requires o.person(name).None?
    ensures Resolve(PersonOf(name), o)
      == Some(Person(PersonCard(Title(name), "Press Enter to search info.", Some("https://www.google.com/search?q=" + name), None)))
  {
    TwoWordsIff(name);
  }

  /** A place the place lookup finds becomes its card; otherwise the map link carries the
      place text exactly as written, unencoded. */
  lemma PlaceFallback(q: string, o: Lookups)
    ensures o.place(q).Some? ==> Resolve(PlaceOf(q), o) == Some(Place(o.place(q).value))
    ensures o.place(q).None? ==>
      Resolve(PlaceOf(q), o) == Some(Link(Some("https://www.google.com/maps/search/" + q), "Map of " + q, "Open in Google Maps"))
  {
  }

  /** The install record always names the app and carries the navigation URL, if any. */
  lemma InstallRecord(app: string, o: Lookups)
    ensures Resolve(InstallOf(app), o).Some?
    ensures var a := Resolve(InstallOf(app), o).value;
      a.Install? && a.name == app && a.content == "Install " + app
      && a.website == (if o.navigation(app).Some? then o.navigation(app).value.url else None)
  {
  }

  // ---------------------------------------------------------------- worked values

  /** "https://" and the path are dropped from "https://example.com/page". */
  lemma ExampleComHost(url: string, h: string)
    requires h == "example.com" && url == "https://" + h + "/page"
    ensures UrlHost(url) == h
  {
    assert forall i :: 0 <= i < |h| ==> h[i] != ':' && h[i] != '/' && h[i] != 'w';
    LeadAbsent(h, "www.");
    assert url == "https://" + "" + h + "/page";
    UrlHostOfParts("https://", "", h, "/page");
  }

  /** The title of an OPEN link keeps the top-level domain, title-cased:
      "https://example.com/page" is shown as "Example.Com". */
  lemma ExampleComTitle(url: string, a: string, b: string)
    requires a == "example" && b == "com" && url == "https://" + a + "." + b + "/page"
    ensures UrlTitle(url) == "Example.Com"
  {
    assert forall i :: 0 <= i < |a| ==> IsLowerAscii(a[i]);
    assert forall i :: 0 <= i < |b| ==> IsLowerAscii(b[i]);
    TitleOfDomain(a, b);
    assert UpperChar(a[0]) == 'E' && UpperChar(b[0]) == 'C';
    assert [UpperChar(a[0])] + a[1..] + "." + [UpperChar(b[0])] + b[1..] == "Example.Com";
    ExampleComHost(url, a + "." + b);
  }

  /** `str.title` on a host of letters and dots upper-cases the first letter of each
      dot-separated label and lower-cases the rest. */
  lemma TitleCasesEachLabel(host: string)
    requires forall i :: 0 <= i < |host| ==> IsCased(host[i]) || host[i] == '.'
    ensures |Title(host)| == |host|
    ensures forall i :: 0 <= i < |host| ==>
      Title(host)[i] == if i == 0 || host[i - 1] == '.' then UpperChar(host[i]) else LowerChar(host[i])
  {
    forall i | 0 <= i < |host|
      ensures Title(host)[i] == if i == 0 || host[i - 1] == '.' then UpperChar(host[i]) else LowerChar(host[i])
    {
      TitleAt(host, i);
    }
  }

  /** A lower-case two-label host such as "example.com" is titled with both labels
      capitalised. */
  lemma TitleOfDomain(a: string, b: string)
    requires a != [] && b != []
    requires forall i :: 0 <= i < |a| ==> IsLowerAscii(a[i])
    requires forall i :: 0 <= i < |b| ==> IsLowerAscii(b[i])
    ensures Title(a + "." + b) == [UpperChar(a[0])] + a[1..] + "." + [UpperChar(b[0])] + b[1..]
  {
    var h := a + "." + b;
    var r := [UpperChar(a[0])] + a[1..] + "." + [UpperChar(b[0])] + b[1..];
    forall i | 0 <= i < |h|
      ensures Title(h)[i] == r[i]
    {
      TitleAt(h, i);
      if i == 0 {
        assert h[0] == a[0] && r[0] == UpperChar(a[0]);
      } else if i < |a| {
        assert h[i] == a[i] && h[i - 1] == a[i - 1] && r[i] == a[i];
        assert IsCased(h[i - 1]) && LowerChar(h[i]) == a[i];
      } else if i == |a| {
        assert h[i] == '.' && r[i] == '.' && UpperChar('.') == '.' && LowerChar('.') == '.';
      } else if i == |a| + 1 {
        assert h[i] == b[0] && h[i - 1] == '.' && r[i] == UpperChar(b[0]);
        assert !IsCased(h[i - 1]);
      } else {
        assert h[i] == b[i - |a| - 1] && h[i - 1] == b[i - |a| - 2] && r[i] == b[i - |a| - 1];
        assert IsCased(h[i - 1]) && LowerChar(h[i]) == r[i];
      }
    }
    assert |Title(h)| == |r|;
  }

  /** A line that is "OPEN:" followed by a stripped target without upper-case letters
      (so that no other marker can occur in it) gives the suggested link to the target. */
  lemma OpenLineOf(target: string, o: Lookups)
    requires Stripped(target)
    requires forall i :: 0 <= i < |target| ==> !IsUpperAscii(target[i])
    ensures LineAction("OPEN:" + target, o) == Some(OpenLink(target))
  {
    OpenLineShape(target);
    OpenClassified("OPEN:" + target, target);
  }

  /** The shape of "OPEN:" followed by such a target: stripped, starting with "OPEN:",
      holding no other marker, and split at "OPEN:" into an empty head and the target. */
  lemma OpenLineShape(target: string)
    requires Stripped(target)
    requires forall i :: 0 <= i < |target| ==> !IsUpperAscii(target[i])
    ensures var line := "OPEN:" + target;
      && line != [] && Strip(line) == line && StartsWith(line, "OPEN:")
      && !Contains(line, "CALC:") && !Contains(line, "SEARCH:") && !Contains(line, "PERSON:")
      && !Contains(line, "PLACE:") && !Contains(line, "INSTALL:")
      && Split(line, "OPEN:") == [[], target] && Strip(target) == target
  {
    var line := "OPEN:" + target;
    LeadAbsent(target, "OPEN:");
    MarkerHead("OPEN:", target);
    OnlyOpenMarker(target);
    StripOfStripped(target);
    assert line[..5] == "OPEN:";
  }

  /** A stripped line holding none of the markers, starting with "OPEN:" and splitting
      at it into an empty head and a stripped target, is an OPEN directive for the target. */
  lemma OpenClassified(line: string, target: string)
    requires line != [] && Strip(line) == line && StartsWith(line, "OPEN:")
    requires !Contains(line, "CALC:") && !Contains(line, "SEARCH:") && !Contains(line, "PERSON:")
    requires !Contains(line, "PLACE:") && !Contains(line, "INSTALL:")
    requires Split(line, "OPEN:") == [[], target] && Strip(target) == target
    ensures Classify(line) == OpenOf(target)
  {
    assert Contains(line, "OPEN:");
    assert After(line, "OPEN:") == target;
  }

  /** Only the OPEN marker can occur in "OPEN:" followed by text without upper-case
      letters: every other marker holds a capital that "OPEN:" lacks. */
  lemma OnlyOpenMarker(target: string)
    requires forall i :: 0 <= i < |target| ==> !IsUpperAscii(target[i])
    ensures var line := "OPEN:" + target;
      && !Contains(line, "CALC:") && !Contains(line, "SEARCH:") && !Contains(line, "PERSON:")
      && !Contains(line, "PLACE:") && !Contains(line, "INSTALL:")
  {
    var line := "OPEN:" + target;
    assert forall i :: 0 <= i < |line| ==> line[i] in "OPEN:" || !IsUpperAscii(line[i]) by {
      forall i | 0 <= i < |line|
        ensures line[i] in "OPEN:" || !IsUpperAscii(line[i])
      {
        if i < 5 {
          assert line[i] == "OPEN:"[i];
        } else {
          assert line[i] == target[i - 5];
        }
      }
    }
    AbsentPart(line, "CALC:", 0);
    AbsentPart(line, "SEARCH:", 0);
    AbsentPart(line, "PERSON:", 2);
    AbsentPart(line, "PLACE:", 1);
    AbsentPart(line, "INSTALL:", 0);
  }

  /** A line that is "CALC:" followed by a stripped expression holding no further
      "CALC:" hands exactly that expression to the calculator. */
  lemma CalcLineOf(e: string, o: Lookups)
    requires Stripped(e) && !Contains(e, "CALC:")
    ensures LineAction("CALC:" + e, o) == Resolve(CalcOf(e), o)
  {
    MarkerHead("CALC:", e);
    StripOfStripped(e);
    assert Contains("CALC:" + e, "CALC:");
  }

  /** The OPEN line "OPEN:https://example.com/page" gives the suggested link to that
      URL, titled "Example.Com". */
  lemma OpenLineExample(o: Lookups, line: string, url: string, a: string, b: string)
    requires a == "example" && b == "com" && url == "https://" + a + "." + b + "/page"
    requires line == "OPEN:" + url
    ensures LineAction(line, o) == Some(Link(Some(url), "Example.Com", "Suggested Link"))
  {
    ExampleComUrlPlain(url, a, b);
    OpenLineOf(url, o);
    ExampleComTitle(url, a, b);
  }

  /** "https://example.com/page" is stripped and has no upper-case letter. */
  lemma ExampleComUrlPlain(url: string, a: string, b: string)
    requires a == "example" && b == "com" && url == "https://" + a + "." + b + "/page"
    ensures Stripped(url) && forall i :: 0 <= i < |url| ==> !IsUpperAscii(url[i])
  {
  }

  /** The CALC line "CALC:12*14", evaluating to 168, gives the calc record "168". */
  lemma CalcLineExample(o: Lookups, line: string, e: string)
    requires e == "12*14" && line == "CALC:" + e && o.eval(e) == Ok("168")
    ensures LineAction(line, o) == Some(Calc("168"))
  {
    LeadAbsent(e, "CALC:");
    CalcLineOf(e, o);
    CalcDirectiveValue(o, e, "168");
  }

  /** A CALC directive whose expression evaluates shows the bare value. */
  lemma CalcDirectiveValue(o: Lookups, e: string, v: string)
    requires e == "12*14" && v == "168" && o.eval(e) == Ok(v)
    ensures Resolve(CalcOf(e), o) == Some(Calc(v))
  {
    Calculator.ExpressionOfCases(e);
    assert |Lower(e)| == 5;
    LeadAbsent(e, "Result: ");
    LeadAbsent(v, "Result: ");
    StripOfStripped(v);
    Calculator.ContentOfSuccessMessage(e, v);
  }
}
