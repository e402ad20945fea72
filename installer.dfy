/** The install planner (`/install_plan`): look the app up in Nixpkgs and let the fast
    model pick a package among the candidates; failing that, search the web for a
    download, let the main model extract a JSON object from its completion, and plan an
    AppImage download; failing that, report that no method was found. */
module Installer {
  import opened Wrappers
  import opened PyStr
  import opened Requests
  import opened WebSearch

  /** One Nixpkgs search hit: its attribute name and its description, None when missing. */
  datatype NixHit = NixHit(name: Option<string>, description: Option<string>)

  /** The endpoint's JSON bodies: a plan {"method", "description", "commands"}, a request
      error {"error"}, or the framework's error page after an uncaught exception. */
  datatype InstallReply =
    | Plan(kind: string, description: string, commands: seq<string>)
    | Rejected(error: string)
    | InternalError

  /** What the planner consults: the Nixpkgs search by lower-cased and normalised name
      (no hits when the request fails or is refused), the fast model's reply choosing among
      the candidates, the web search, the main model's completion for the app and the
      search context, and `json.loads`. */
  datatype InstallOracles = InstallOracles(
    nixSearch: (string, string) -> seq<NixHit>,
    choose: (string, seq<string>) -> Result<string, string>,
    search: string -> seq<Hit>,
    complete: (string, string) -> Result<string, string>,
    parse: string -> Parsed)

  /** The command that installs a Nixpkgs attribute, without the attribute. */
  const NixInstall := "NIXPKGS_ALLOW_UNFREE=1 nix --extra-experimental-features 'nix-command flakes' profile install --impure --refresh github:NixOS/nixpkgs/nixos-unstable#"

  /** The plan when nothing works. */
  const NoMethod := Plan("failed", "Could not determine installation method.", [])

  // ---------------------------------------------------------------- Nixpkgs

  /** The app name as an attribute name: lower case, spaces as dashes. */
  function NormalizedName(app: string): string {
    Replace(Lower(app), " ", "-")
  }

  /** A hit with a non-empty attribute name becomes a candidate. */
  predicate HasName(h: NixHit) {
    h.name.Some? && h.name.value != ""
  }

  /** The candidate line of a hit: "name: description". */
  function Candidate(h: NixHit): string
    requires HasName(h)
  {
    h.name.value + ": " + h.description.GetOr("No description")
  }

  /** The candidate lines of the hits with a name, in order. */
  function Candidates(hits: seq<NixHit>): seq<string> {
    if hits == [] then []
    else
      var h := hits[|hits| - 1];
      Candidates(hits[..|hits| - 1]) + (if HasName(h) then [Candidate(h)] else [])
  }

  /** The names the model may choose: each candidate's text before its first ':'. */
  function ChoiceNames(cands: seq<string>): (names: seq<string>)
    ensures |names| == |cands|
    ensures forall i :: 0 <= i < |cands| ==> names[i] == Split(cands[i], ":")[0]
  {
    seq(|cands|, i requires 0 <= i < |cands| => Split(cands[i], ":")[0])
  }

  /** The model's choice is taken when it is non-empty, not "NONE", and one of the names. */
  predicate Accepted(choice: string, cands: seq<string>) {
    choice != "" && choice != "NONE" && choice in ChoiceNames(cands)
  }

  /** The Nixpkgs attempt: a plan, or None to fall through to the web. */
  function NixPlan(app: string, fastReady: bool, o: InstallOracles): Option<InstallReply> {
    var cands := Candidates(o.nixSearch(Lower(app), NormalizedName(app)));
    if cands != [] && fastReady then
      match o.choose(app, cands)
      case Err(_) => None
      case Ok(content) =>
        var choice := Strip(content);
        if Accepted(choice, cands) then
          Some(Plan("nix", "Found '" + choice + "' in Nixpkgs", [NixInstall + choice]))
        else None
    else None
  }

  /** The candidate loop: append the line of every hit that has a name. */
  method BuildCandidates(hits: seq<NixHit>) returns (cands: seq<string>)
    ensures cands == Candidates(hits)
  {
    cands := [];
    for i := 0 to |hits|
      invariant cands == Candidates(hits[..i])
    {
      assert hits[..i + 1][..i] == hits[..i];
      if HasName(hits[i]) {
        cands := cands + [Candidate(hits[i])];
      }
    }
    assert hits[..|hits|] == hits;
  }

  // ---------------------------------------------------------------- web download

  /** The first three results can be listed only when each has a title and a url; the
      listing indexes both keys without a guard. */
  predicate Listable(hits: seq<Hit>) {
    forall i :: 0 <= i < |hits| ==> hits[i].title.Some? && hits[i].url.Some?
  }

  /** One result line of the extraction prompt's context. */
  function ResultLine(h: Hit): string
    requires h.title.Some? && h.url.Some?
  {
    "- " + h.title.value + ": " + h.url.value + " (" + Take(h.content.GetOr(""), 100) + ")"
  }

  /** The lines of listable results. */
  function ResultLines(hits: seq<Hit>): (lines: seq<string>)
    requires Listable(hits)
    ensures |lines| == |hits|
  {
    if hits == [] then [] else ResultLines(hits[..|hits| - 1]) + [ResultLine(hits[|hits| - 1])]
  }

  /** The first index of `c` in `s`. */
  function FirstIndex(s: string, c: char): (r: Option<nat>)
    ensures r.Some? ==> r.value < |s| && s[r.value] == c && forall j :: 0 <= j < r.value ==> s[j] != c
    ensures r.None? ==> forall j :: 0 <= j < |s| ==> s[j] != c
  {
    if s == [] then None
    else if s[0] == c then Some(0)
    else match FirstIndex(s[1..], c)
      case None => None
      case Some(k) => Some(k + 1)
  }

  /** The last index of `c` in `s`. */
  function LastIndex(s: string, c: char): (r: Option<nat>)
    ensures r.Some? ==> r.value < |s| && s[r.value] == c && forall j :: r.value < j < |s| ==> s[j] != c
    ensures r.None? ==> forall j :: 0 <= j < |s| ==> s[j] != c
  {
    if s == [] then None
    else if s[|s| - 1] == c then Some(|s| - 1)
    else LastIndex(s[..|s| - 1], c)
  }

  /** The greedy `\{.*\}` match across lines: from the first '{' to the last '}', when
      some '{' comes before some '}'. */
  function ExtractObject(t: string): (r: Option<string>)
    ensures r.None? <==> !exists i, j :: 0 <= i < j < |t| && t[i] == '{' && t[j] == '}'
    ensures r.Some? ==>
      var i := FirstIndex(t, '{').value;
      var j := LastIndex(t, '}').value;
      && i < j && r.value == t[i..j + 1]
      && r.value[0] == '{' && r.value[|r.value| - 1] == '}'
  {
    var i := FirstIndex(t, '{');
    var j := LastIndex(t, '}');
    if i.Some? && j.Some? && i.value < j.value then Some(t[i.value..j.value + 1]) else None
  }

  /** The file name and url the extracted object names, when it names a url. */
  function Download(o: InstallOracles, txt: string): Option<(string, string)> {
    match ExtractObject(txt)
    case None => None
    case Some(obj) =>
      match o.parse(obj)
      case Object(f) =>
        if "url" in f && f["url"] != "" then Some((Field(f, "filename", "app.AppImage"), f["url"]))
        else None
      case _ => None
  }

  /** The AppImage test on a file name and a url. */
  predicate IsAppImage(fname: string, url: string) {
    Contains(fname, "AppImage") || EndsWith(url, ".AppImage")
  }

  /** The download plan for an AppImage. */
  function ShellPlan(fname: string, url: string): InstallReply {
    Plan("shell", "Downloading AppImage...", [
      "wget -O ~/Downloads/" + fname + " " + url,
      "chmod +x ~/Downloads/" + fname,
      "echo 'Installed to ~/Downloads/" + fname + "'"])
  }

  /** The web attempt once the results are listed: the main model must be there and
      complete, its object must name a url, and the download must be an AppImage. */
  function WebPlan(app: string, context: string, mainReady: bool, o: InstallOracles): InstallReply {
    if !mainReady then NoMethod
    else match o.complete(app, context)
      case Err(_) => NoMethod
      case Ok(out) =>
        match Download(o, Strip(out))
        case Some((fname, url)) => if IsAppImage(fname, url) then ShellPlan(fname, url) else NoMethod
        case None => NoMethod
  }

  /** The web search query for an app. */
  function DownloadQuery(app: string): string {
    "download " + app + " linux AppImage"
  }

  /** `/install_plan`: `fastReady` and `mainReady` say whether the loader left the fast and
      the main model in place. */
  function InstallResponse(req: Request, fastReady: bool, mainReady: bool, o: InstallOracles): Response<InstallReply> {
    match req
    case Malformed => Response(400, Rejected("Bad JSON"))
    case Body(fields) =>
      var app := Strip(Field(fields, "app_name", ""));
      if app == "" then Response(400, Rejected("No app name"))
      else match NixPlan(app, fastReady, o)
        case Some(p) => Response(200, p)
        case None =>
          var hits := Take(o.search(DownloadQuery(app)), 3);
          if !Listable(hits) then Response(500, InternalError)
          else Response(200, WebPlan(app, Join(ResultLines(hits), "\n"), mainReady, o))
  }

  // ---------------------------------------------------------------- properties

  /** Normalising maps the lower-cased name pointwise, spaces to dashes, so the result
      holds no space. */
  lemma NormalizedNamePointwise(app: string)
    ensures |NormalizedName(app)| == |app|
    ensures forall i :: 0 <= i < |app| ==>
      NormalizedName(app)[i] == if LowerChar(app[i]) == ' ' then '-' else LowerChar(app[i])
    ensures forall i :: 0 <= i < |app| ==> NormalizedName(app)[i] != ' '
  {
    ReplaceChar(Lower(app), ' ', '-');
  }

  /** The name offered for a candidate is the attribute name up to its first ':'; the
      description never leaks into it. */
  lemma CandidateName(h: NixHit)
    requires HasName(h)
    ensures Split(Candidate(h), ":")[0] == Split(h.name.value, ":")[0]
  {
    assert Candidate(h) == h.name.value + [':'] + (" " + h.description.GetOr("No description"));
    SplitHeadExtend(h.name.value, ':', " " + h.description.GetOr("No description"));
  }

  /** The candidates are exactly the lines of the named hits: each line comes from one,
      and every named hit gives one. */
  lemma {:induction false} CandidatesOfHits(hits: seq<NixHit>)
    ensures forall k :: 0 <= k < |Candidates(hits)| ==>
      exists i :: 0 <= i < |hits| && HasName(hits[i]) && Candidates(hits)[k] == Candidate(hits[i])
    ensures forall i :: 0 <= i < |hits| && HasName(hits[i]) ==> Candidate(hits[i]) in Candidates(hits)
    decreases |hits|
  {
    if hits != [] {
      var init := hits[..|hits| - 1];
      var last := |hits| - 1;
      CandidatesOfHits(init);
      var cs := Candidates(hits);
      var ci := Candidates(init);
      assert cs == ci + (if HasName(hits[last]) then [Candidate(hits[last])] else []);
      forall k | 0 <= k < |Candidates(hits)|
        ensures exists i :: 0 <= i < |hits| && HasName(hits[i]) && Candidates(hits)[k] == Candidate(hits[i])
      {
        if k < |ci| {
          assert 0 <= k < |Candidates(init)|;
          assert exists i :: 0 <= i < |init| && HasName(init[i]) && Candidates(init)[k] == Candidate(init[i]);
          var i :| 0 <= i < |init| && HasName(init[i]) && ci[k] == Candidate(init[i]);
          assert init[i] == hits[i];
        } else {
          assert cs[k] == Candidate(hits[last]);
        }
      }
      forall i | 0 <= i < |hits| && HasName(hits[i])
        ensures Candidate(hits[i]) in cs
      {
        if i < last {
          assert init[i] == hits[i];
        }
      }
    } else {
      assert Candidates(hits) == [];
    }
  }

  /** The model's choice is accepted exactly when it is non-empty, not "NONE", and the
      text before the first ':' of the name of some hit that has one. */
  lemma AcceptedIff(choice: string, hits: seq<NixHit>)
    ensures Accepted(choice, Candidates(hits)) <==>
      && choice != "" && choice != "NONE"
      && exists i :: 0 <= i < |hits| && HasName(hits[i]) && Split(hits[i].name.value, ":")[0] == choice
  {
    var cands := Candidates(hits);
    var names := ChoiceNames(cands);
    CandidatesOfHits(hits);
    if choice in names {
      var k :| 0 <= k < |names| && names[k] == choice;
      var i :| 0 <= i < |hits| && HasName(hits[i]) && cands[k] == Candidate(hits[i]);
      CandidateName(hits[i]);
    }
    if exists i :: 0 <= i < |hits| && HasName(hits[i]) && Split(hits[i].name.value, ":")[0] == choice {
      var i :| 0 <= i < |hits| && HasName(hits[i]) && Split(hits[i].name.value, ":")[0] == choice;
      CandidateName(hits[i]);
      var k :| 0 <= k < |cands| && cands[k] == Candidate(hits[i]);
      assert names[k] == choice;
    }
  }

  /** A Nixpkgs plan needs the fast model, an accepted choice, and installs that choice. */
  lemma NixPlanNeedsAcceptedChoice(app: string, fastReady: bool, o: InstallOracles)
    ensures var cands := Candidates(o.nixSearch(Lower(app), NormalizedName(app)));
      NixPlan(app, fastReady, o).Some? ==>
        && fastReady && o.choose(app, cands).Ok?
        && var choice := Strip(o.choose(app, cands).value);
        && Accepted(choice, cands)
        && NixPlan(app, fastReady, o).value == Plan("nix", "Found '" + choice + "' in Nixpkgs", [NixInstall + choice])
  {
  }

  /** A shell plan downloads an AppImage named by the extracted object, in exactly three
      commands. */
  lemma ShellPlanNeedsAppImage(app: string, context: string, mainReady: bool, o: InstallOracles)
    ensures var p := WebPlan(app, context, mainReady, o);
      p.kind == "shell" ==>
        && mainReady && o.complete(app, context).Ok?
        && var d := Download(o, Strip(o.complete(app, context).value));
        && d.Some? && d.value.1 != "" && IsAppImage(d.value.0, d.value.1)
        && |p.commands| == 3 && p == ShellPlan(d.value.0, d.value.1)
  {
  }

  /** Every plan is one of the three kinds: "nix" with one command, "shell" with three,
      "failed" with none. */
  lemma PlanKinds(req: Request, fastReady: bool, mainReady: bool, o: InstallOracles)
    ensures var r := InstallResponse(req, fastReady, mainReady, o);
      r.body.Plan? ==>
        || (r.body.kind == "nix" && |r.body.commands| == 1)
        || (r.body.kind == "shell" && |r.body.commands| == 3)
        || (r.body == NoMethod)
  {
  }

  /** The status codes: 400 exactly for an unreadable body or a blank app name, 500 exactly
      when Nixpkgs gives no plan and one of the first three web results lacks a title or
      a url, 200 otherwise. */
  lemma InstallStatus(req: Request, fastReady: bool, mainReady: bool, o: InstallOracles)
    ensures var r := InstallResponse(req, fastReady, mainReady, o);
      && (r.status == 400 <==> req.Malformed? || Strip(Field(req.fields, "app_name", "")) == "")
      && (r.status == 500 <==>
            && req.Body? && Strip(Field(req.fields, "app_name", "")) != ""
            && NixPlan(Strip(Field(req.fields, "app_name", "")), fastReady, o).None?
            && !Listable(Take(o.search(DownloadQuery(Strip(Field(req.fields, "app_name", "")))), 3)))
      && (r.status == 400 || r.status == 500 || r.status == 200)
  {
  }

  /** The extraction finds an object exactly when some '{' precedes some '}', and then
      takes everything from the first '{' to the last '}'. */
  lemma ExtractObjectGreedy(t: string, i: nat, j: nat)
    requires i < j < |t| && t[i] == '{' && t[j] == '}'
    ensures ExtractObject(t).Some?
    ensures FirstIndex(t, '{').Some? && FirstIndex(t, '{').value <= i
    ensures LastIndex(t, '}').Some? && j <= LastIndex(t, '}').value
  {
  }
}
