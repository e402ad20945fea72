/** The `/action` endpoint: a query becomes a list of action records. A fixed table of
    shortcuts answers at once; otherwise the fast model is asked (streamed, abortable),
    asked a second time with web results when its first answer holds "SEARCH:", and its
    final text is parsed line by line. */
module ActionPipeline {
  import opened Wrappers
  import opened PyStr
  import opened Requests
  import opened WebSearch
  import opened Streaming
  import opened Actions

  /** The shortcut table: a query equal to a key (in any letter case) opens its URL. */
  const Shortcuts: map<string, string> := map[
    "yt" := "https://www.youtube.com",
    "gh" := "https://github.com",
    "x" := "https://x.com",
    "red" := "https://reddit.com",
    "map" := "https://www.google.com/maps",
    "chat" := "https://chatgpt.com"]

  /** The loader's fast-model error; nothing ever assigns it, so it stays unset. */
  const FastModelError: Option<string> := None

  /** The link a shortcut query answers with. */
  function ShortcutAction(query: string): (a: Action)
    requires Lower(query) in Shortcuts
    ensures a.Link? && a.url == Some(Shortcuts[Lower(query)])
    ensures a.description == "Direct Shortcut for " + Upper(query)
  {
    var url := Shortcuts[Lower(query)];
    Link(Some(url), UrlTitle(url), "Direct Shortcut for " + Upper(query))
  }

  /** The status text while the fast model is not loaded. */
  function StatusText(err: Option<string>): string {
    if err.Some? && err.value != "" then err.value else "Model Loading..."
  }

  /** The conversation turns sent to the fast model; the fixed instruction texts are
      named, not spelled out. */
  datatype Turn =
    | ActionInstructions                                       // the system prompt
    | ActionExamples(query: string)                            // the examples and the current query
    | ModelAnswer(text: string)                                // the first answer, replayed
    | SearchFeedback(searchQuery: string, snippet: string, query: string)  // the search results turn

  /** The endpoint's JSON bodies. */
  datatype ActionReply =
    | Listed(actions: seq<Action>)                        // {"actions": [...]}
    | Chosen(action: Option<Action>, actions: seq<Action>) // {"action": ..., "actions": [...]}
    | Failed(error: string)                               // {"actions": [], "action": null, "error": ...}

  /** What the endpoint consults: the parser's lookups, the web search and the fast model,
      which maps a conversation to a streaming run. */
  datatype ActionOracles = ActionOracles(
    lookups: Lookups,
    search: string -> seq<Hit>,
    fast: seq<Turn> -> StreamRun)

  /** The first conversation. */
  function FirstTurns(query: string): seq<Turn> {
    [ActionInstructions, ActionExamples(query)]
  }

  /** The second conversation: the first, the first answer and the search results. */
  function SecondTurns(query: string, first: string, searchQuery: string, snippet: string): seq<Turn> {
    FirstTurns(query) + [ModelAnswer(first), SearchFeedback(searchQuery, snippet, query)]
  }

  /** The answer text after the augmentation round, or None when that round was aborted.
      Without "SEARCH:" in the first answer there is no second round. A second call that
      raises at once keeps the first answer; one that raises while streaming keeps what
      it streamed. */
  function Augmented(query: string, first: string, o: ActionOracles): Option<string> {
    if !Contains(first, "SEARCH:") then Some(first)
    else
      var q := SearchQuery(first);
      match o.fast(SecondTurns(query, first, q, Snippet(o.search(q))))
      case Refused(_) => Some(first)
      case Ran(steps, failure) =>
        match Consume(steps, failure)
        case Aborted => None
        case Finished(t) => Some(t)
        case Raised(partial, _) => Some(partial)
  }

  /** The reply once the fast model is loaded. */
  function InferenceReply(query: string, o: ActionOracles): ActionReply {
    match o.fast(FirstTurns(query))
    case Refused(m) => Failed(m)
    case Ran(steps, failure) =>
      match Consume(steps, failure)
      case Aborted => Failed("Aborted")
      case Raised(_, m) => Failed(m)
      case Finished(first) =>
        match Augmented(query, first, o)
        case None => Failed("Aborted")
        case Some(text) =>
          var actions := ParseText(text, o.lookups);
          Chosen(if actions == [] then None else Some(actions[0]), actions)
  }

  /** The response of `/action` for a request, given whether the fast model is loaded. */
  function ActionResponse(req: Request, fastReady: bool, o: ActionOracles): Response<ActionReply> {
    match req
    case Malformed => Response(400, Listed([]))
    case Body(fields) =>
      var query := Strip(Field(fields, "query", ""));
      if query == "" then Response(200, Listed([]))
      else if Lower(query) in Shortcuts then
        var a := ShortcutAction(query);
        Response(200, Chosen(Some(a), [a]))
      else if !fastReady then Response(200, Listed([Status(StatusText(FastModelError))]))
      else Response(200, InferenceReply(query, o))
  }

  /** One streamed call: an immediate failure is reported as raised with no text. */
  method RunStream(run: StreamRun) returns (c: Consumed)
    ensures run.Refused? ==> c == Raised("", run.msg)
    ensures run.Ran? ==> c == Consume(run.steps, run.failure)
  {
    match run
    case Refused(m) =>
      c := Raised("", m);
    case Ran(steps, failure) =>
      c := ConsumeStream(steps, failure);
  }

  /** `action_endpoint`, from the parsed request on. */
  method HandleAction(req: Request, fastReady: bool, o: ActionOracles) returns (r: Response<ActionReply>)
    ensures r == ActionResponse(req, fastReady, o)
  {
    if req.Malformed? {
      return Response(400, Listed([]));
    }
    var query := Strip(Field(req.fields, "query", ""));
    if query == "" {
      return Response(200, Listed([]));
    }
    if Lower(query) in Shortcuts {
      var url := Shortcuts[Lower(query)];
      var act := Link(Some(url), UrlTitle(url), "Direct Shortcut for " + Upper(query));
      return Response(200, Chosen(Some(act), [act]));
    }
    if !fastReady {
      return Response(200, Listed([Status(StatusText(FastModelError))]));
    }
    var reply := Infer(query, o);
    r := Response(200, reply);
  }

  /** The inference part of `action_endpoint`: first pass, augmentation round, parsing. */
  method Infer(query: string, o: ActionOracles) returns (reply: ActionReply)
    ensures reply == InferenceReply(query, o)
  {
    var pass1 := RunStream(o.fast(FirstTurns(query)));
    if pass1.Aborted? {
      return Failed("Aborted");
    }
    if pass1.Raised? {
      return Failed(pass1.msg);
    }
    var resultText := pass1.text;
    if Contains(resultText, "SEARCH:") {
      var searchQ := SearchQuery(resultText);
      var snippet := BuildSnippet(o.search(searchQ));
      var run := o.fast(SecondTurns(query, resultText, searchQ, snippet));
      if run.Ran? {
        var pass2 := ConsumeStream(run.steps, run.failure);
        if pass2.Aborted? {
          return Failed("Aborted");
        }
        resultText := if pass2.Finished? then pass2.text else pass2.partial;
      }
    }
    assert Augmented(query, pass1.text, o) == Some(resultText);
    var actions := ParseActions(resultText, o.lookups);
    var primary := if |actions| > 0 then Some(actions[0]) else None;
    reply := Chosen(primary, actions);
  }

  // ---------------------------------------------------------------- properties

  /** A shortcut query is answered from the table alone: the reply names the table's URL
      and does not depend on whether the fast model is loaded or on any collaborator. */
  lemma ShortcutIgnoresModel(fields: map<string, string>, ready1: bool, o1: ActionOracles, ready2: bool, o2: ActionOracles)
    requires Lower(Strip(Field(fields, "query", ""))) in Shortcuts
    ensures ActionResponse(Body(fields), ready1, o1) == ActionResponse(Body(fields), ready2, o2)
    ensures var q := Strip(Field(fields, "query", ""));
      ActionResponse(Body(fields), ready1, o1)
        == Response(200, Chosen(Some(ShortcutAction(q)), [ShortcutAction(q)]))
  {
    var q := Strip(Field(fields, "query", ""));
    assert q != "" by {
      assert Lower(q) != "";
    }
  }

  /** "yt", in any letter case, opens YouTube under the title "Youtube.Com". */
  lemma YoutubeShortcut(query: string)
    requires Lower(query) == "yt"
    ensures ShortcutAction(query)
      == Link(Some("https://www.youtube.com"), "Youtube.Com", "Direct Shortcut for " + Upper(query))
  {
    YoutubeEntry();
    YoutubeTitle(Shortcuts["yt"]);
  }

  /** The shortcut table maps "yt" to the YouTube home page. */
  lemma YoutubeEntry()
    ensures "yt" in Shortcuts && Shortcuts["yt"] == "https://www.youtube.com"
  {
  }

  /** The YouTube home page is titled "Youtube.Com". */
  lemma YoutubeTitle(url: string)
    requires url == "https://www.youtube.com"
    ensures UrlTitle(url) == "Youtube.Com"
  {
    YoutubeLabelsTitle(url, "youtube", "com");
  }

  /** The title of "https://www." + "youtube" + "." + "com", from its two labels. */
  lemma YoutubeLabelsTitle(url: string, a: string, b: string)
    requires a == "youtube" && b == "com" && url == "https://www." + a + "." + b
    ensures UrlTitle(url) == "Youtube.Com"
  {
    assert forall i :: 0 <= i < |a| ==> IsLowerAscii(a[i]);
    assert forall i :: 0 <= i < |b| ==> IsLowerAscii(b[i]);
    TitleOfDomain(a, b);
    assert UpperChar(a[0]) == 'Y' && UpperChar(b[0]) == 'C';
    assert [UpperChar(a[0])] + a[1..] + "." + [UpperChar(b[0])] + b[1..] == "Youtube.Com";
    YoutubeHost(url, a + "." + b);
  }

  /** "https://" and "www." are dropped from the YouTube shortcut's URL. */
  lemma YoutubeHost(url: string, h: string)
    requires h == "youtube.com" && url == "https://www." + h
    ensures UrlHost(url) == h
  {
    assert forall i :: 0 <= i < |h| ==> h[i] != ':' && h[i] != '/' && h[i] != 'w';
    LeadAbsent(h, "www.");
    assert url == "https://" + "www." + h + "";
    UrlHostOfParts("https://", "www.", h, "");
  }

  /** Without the fast model, a query that is no shortcut gets the loading status. */
  lemma NotReadyStatus(fields: map<string, string>, o: ActionOracles)
    requires Strip(Field(fields, "query", "")) != ""
    requires Lower(Strip(Field(fields, "query", ""))) !in Shortcuts
    ensures ActionResponse(Body(fields), false, o) == Response(200, Listed([Status("Model Loading...")]))
  {
  }

  /** A blank query, or a body that is not JSON, gets an empty action list. */
  lemma EmptyQueryNoActions(req: Request, ready: bool, o: ActionOracles)
    requires req.Malformed? || Strip(Field(req.fields, "query", "")) == ""
    ensures ActionResponse(req, ready, o).body == Listed([])
    ensures ActionResponse(req, ready, o).status == (if req.Malformed? then 400 else 200)
  {
  }

  /** An abort seen while the first answer streams ends the request with "Aborted". */
  lemma AbortInFirstPass(query: string, o: ActionOracles)
    requires o.fast(FirstTurns(query)).Ran?
    requires exists i :: 0 <= i < |o.fast(FirstTurns(query)).steps| && o.fast(FirstTurns(query)).steps[i].abortSet
    ensures InferenceReply(query, o) == Failed("Aborted")
  {
  }

  /** A first answer without "SEARCH:" is parsed as it is: neither the search nor a second
      model call plays a part. */
  lemma NoSearchNoSecondPass(query: string, steps: seq<Step>, o: ActionOracles)
    requires o.fast(FirstTurns(query)) == Ran(steps, None)
    requires !AnyAbort(steps) && !Contains(Deltas(steps), "SEARCH:")
    ensures var actions := ParseText(Deltas(steps), o.lookups);
      InferenceReply(query, o) == Chosen(if actions == [] then None else Some(actions[0]), actions)
  {
  }

  /** A second call that fails before streaming keeps the first answer. */
  lemma RefusedSecondPassKeepsFirst(query: string, first: string, o: ActionOracles)
    requires Contains(first, "SEARCH:")
    requires var q := SearchQuery(first); o.fast(SecondTurns(query, first, q, Snippet(o.search(q)))).Refused?
    ensures Augmented(query, first, o) == Some(first)
  {
  }

  /** The legacy "action" field is the first action, and is null exactly when there are none. */
  lemma PrimaryIsFirst(query: string, o: ActionOracles)
    ensures var r := InferenceReply(query, o);
      r.Chosen? ==> (r.action.None? <==> r.actions == []) && (r.actions != [] ==> r.action == Some(r.actions[0]))
  {
  }
}
