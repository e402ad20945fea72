/** The `/ask` endpoint's routing and context: the fast model picks a tool and a tool
    query (with safe defaults when anything fails), the chosen tool fills the context, and
    the main model answers a prompt that carries the context, its source label and, only
    when there is no context, the app-launch instruction. */
module Router {
  import opened Wrappers
  import opened PyStr
  import opened Requests
  import opened WebSearch
  import opened Calculator

  /** A markdown code fence, and one that announces JSON. */
  const Fence := "```"
  const JsonFence := "```json"

  /** The decision: the tool (one of "knowledge", "files", "search", "calc" when the model
      behaves) and the query handed to it. */
  datatype Route = Route(kind: string, query: string)

  /** The decision used whenever the fast model or its answer fails. */
  function Defaults(query: string): Route {
    Route("knowledge", query)
  }

  /** One row of the local-file vector search. */
  datatype FileRow = FileRow(filename: string, text: string)

  /** The chosen context: its source label and its text. */
  datatype Context = Context(source: string, text: string)

  /** The main model's prompt: the context source, the context data ("No context." when
      there is none), whether the app-launch instruction is included, and the user's
      query. The fixed rule texts are named, not spelled out. */
  datatype Prompt = Prompt(source: string, data: string, launch: bool, query: string)

  /** What `/ask` consults: the fast model's routing reply for a query (or the message of
      the exception it raised), `json.loads`, the local-file search, the web search, the
      expression evaluator and the main model's completion of a prompt. */
  datatype AskOracles = AskOracles(
    decide: string -> Result<string, string>,
    parse: string -> Parsed,
    files: string -> Result<seq<FileRow>, string>,
    search: string -> seq<Hit>,
    eval: Evaluator,
    answer: Prompt -> Result<string, string>)

  // ---------------------------------------------------------------- decision

  /** The routing reply with a markdown fence removed: the text between "```json" (or,
      failing that, the first "```") and the next "```", stripped. */
  function Unfenced(raw: string): string {
    if Contains(raw, JsonFence) then Strip(Split(Split(raw, JsonFence)[1], Fence)[0])
    else if Contains(raw, Fence) then Strip(Split(Split(raw, Fence)[1], Fence)[0])
    else raw
  }

  /** The decision for `query`: the routing reply's "type" and "query" keys, each with its
      default, when the fast model is there, answers, and answers a JSON object. */
  function Decide(query: string, fastReady: bool, o: AskOracles): Route {
    if !fastReady then Defaults(query)
    else match o.decide(query)
      case Err(_) => Defaults(query)
      case Ok(content) =>
        match o.parse(Unfenced(Strip(content)))
        case Object(f) => Route(Field(f, "type", "knowledge"), Field(f, "query", query))
        case _ => Defaults(query)
  }

  // ---------------------------------------------------------------- context

  /** The block one local file contributes: its name and its first 1500 characters. */
  function FileEntry(row: FileRow): (e: string)
    ensures |e| > 0
  {
    "--- Local File: " + row.filename + " ---\n" + Take(row.text, 1500) + "\n\n"
  }

  /** The blocks of `rows`, in order. */
  function FilesText(rows: seq<FileRow>): string {
    if rows == [] then "" else FilesText(rows[..|rows| - 1]) + FileEntry(rows[|rows| - 1])
  }

  /** The rows the file search gives (at most three), none when it raises. */
  function FileRows(query: string, o: AskOracles): seq<FileRow> {
    match o.files(query)
    case Ok(rows) => Take(rows, 3)
    case Err(_) => []
  }

  /** The context the decision selects. Local files are searched only when both the
      database and the embedding model are there. */
  function ToolContext(route: Route, filesReady: bool, o: AskOracles): Context {
    if route.kind == "files" && filesReady then
      Context("Local Files", FilesText(FileRows(route.query, o)))
    else if route.kind == "search" then
      Context("Internet", "--- Web Search Results ---\n" + WebSearchText(o.search(route.query)) + "\n")
    else if route.kind == "calc" then
      Context("Calculator", "--- Calculation Result ---\n" + CalcMessage(route.query, o.eval) + "\n")
    else Context("None", "")
  }

  /** The prompt for a context and the user's query. */
  function PromptOf(c: Context, query: string): Prompt {
    Prompt(c.source, if c.text == "" then "No context." else c.text, c.text == "", query)
  }

  /** What the main model's completion becomes. */
  function AnswerText(out: Result<string, string>): string {
    match out
    case Ok(t) => Strip(t)
    case Err(m) => "Error: " + m
  }

  /** `/ask` once the loader has run: `mainReady` and `initError` describe the main model,
      `fastReady` the fast one, `filesReady` the database and the embedding model. */
  function AskResponse(req: Request, mainReady: bool, initError: Option<string>, fastReady: bool,
                       filesReady: bool, o: AskOracles): Response<string>
  {
    if !mainReady then Response(200, "Error: Model failed to load. Reason: " + Show(initError))
    else match req
      case Malformed => Response(400, "Error: Bad JSON")
      case Body(fields) =>
        var query := Field(fields, "query", "");
        var c := ToolContext(Decide(query, fastReady, o), filesReady, o);
        Response(200, AnswerText(o.answer(PromptOf(c, query))))
  }

  /** The tool step of `/ask`: run the tool the decision names. The context is empty
      exactly when no tool ran or the file search found no rows. */
  method GatherContext(route: Route, filesReady: bool, o: AskOracles) returns (c: Context)
    ensures c == ToolContext(route, filesReady, o)
    ensures c.text == "" <==> c.source == "None" || (c.source == "Local Files" && FileRows(route.query, o) == [])
  {
    c := Context("None", "");
    if route.kind == "files" && filesReady {
      var text := BuildFilesContext(FileRows(route.query, o));
      c := Context("Local Files", text);
    } else if route.kind == "search" {
      var text := PerformWebSearch(o.search(route.query));
      c := Context("Internet", "--- Web Search Results ---\n" + text + "\n");
    } else if route.kind == "calc" {
      var text := PerformCalculation(route.query, o.eval);
      c := Context("Calculator", "--- Calculation Result ---\n" + text + "\n");
    }
  }

  /** The file-context loop: append each row's block. */
  method BuildFilesContext(rows: seq<FileRow>) returns (text: string)
    ensures text == FilesText(rows)
    ensures text == "" <==> rows == []
  {
    text := "";
    for i := 0 to |rows|
      invariant text == FilesText(rows[..i])
    {
      assert rows[..i + 1][..i] == rows[..i];
      text := text + FileEntry(rows[i]);
    }
    assert rows[..|rows|] == rows;
    FilesTextEmpty(rows);
  }

  // ---------------------------------------------------------------- properties

  /** The file context is empty exactly when there are no rows. */
  lemma FilesTextEmpty(rows: seq<FileRow>)
    ensures FilesText(rows) == "" <==> rows == []
  {
    if rows != [] {
      assert |FileEntry(rows[|rows| - 1])| > 0;
    }
  }

  /** Without a fence the routing reply is used as it is. */
  lemma UnfencedWithoutFence(raw: string)
    requires !Contains(raw, Fence)
    ensures Unfenced(raw) == raw
  {
    if Contains(raw, JsonFence) {
      var k := IndexOf(raw, JsonFence).value;
      assert raw[k..k + 7][..3] == raw[k..k + 3];
      assert OccursAt(raw, Fence, k);
      ContainsIff(raw, Fence);
    }
  }

  /** A reply fenced as "```json ... ```" (with no backtick before the fence or in the
      body, and none right after the closing fence) gives back the stripped body. */
  lemma UnfencedJson(pre: string, body: string, tail: string)
    requires forall i :: 0 <= i < |pre| ==> pre[i] != '`'
    requires forall i :: 0 <= i < |body| ==> body[i] != '`'
    requires tail == [] || tail[0] != '`'
    ensures Unfenced(pre + JsonFence + body + Fence + tail) == Strip(body)
  {
    var rest := body + Fence + tail;
    var raw := pre + JsonFence + rest;
    assert raw == pre + JsonFence + body + Fence + tail;
    forall k | 0 <= k < |pre|
      ensures !OccursAt(raw, JsonFence, k)
    {
      assert raw[k] == pre[k];
    }
    SplitAfterFirst(pre, JsonFence, rest);
    assert Split(raw, JsonFence)[1] == Split(rest, JsonFence)[0];
    PieceBeforeFence(body, tail);
  }

  /** The text up to the first "```json" of `body + "```" + tail` starts with `body`
      followed by a fence or by nothing, so its part before the first "```" is `body`. */
  lemma PieceBeforeFence(body: string, tail: string)
    requires forall i :: 0 <= i < |body| ==> body[i] != '`'
    requires tail == [] || tail[0] != '`'
    ensures Split(Split(body + Fence + tail, JsonFence)[0], Fence)[0] == body
  {
    var s := body + Fence + tail;
    SplitHead(s, JsonFence);
    match IndexOf(s, JsonFence)
    case None =>
      FenceAfter(body, tail);
    case Some(k) =>
      JsonFenceAfterBody(body, tail, k);
      if k == |body| {
        assert s[..k] == body;
        LeadAbsent(body, Fence);
      } else {
        var mid := s[|body| + 3..k];
        assert s[..k] == body + Fence + mid;
        FenceAfter(body, mid);
      }
  }

  /** In `body + "```" + tail`, "```json" can start only at the fence itself or after it. */
  lemma JsonFenceAfterBody(body: string, tail: string, k: nat)
    requires forall i :: 0 <= i < |body| ==> body[i] != '`'
    requires tail == [] || tail[0] != '`'
    requires OccursAt(body + Fence + tail, JsonFence, k)
    ensures k == |body| || k >= |body| + 3
  {
    var s := body + Fence + tail;
    forall j | k <= j < k + 3
      ensures s[j] == '`'
    {
      assert s[k..k + 7][j - k] == s[j];
    }
    assert s[k] == '`';
    assert forall i :: 0 <= i < |body| ==> s[i] == body[i];
    assert |s| > |body| + 3 ==> s[|body| + 3] == tail[0];
  }

  /** Splitting `body + "```" + rest` at "```" peels off `body` when `body` holds no
      backtick. */
  lemma FenceAfter(body: string, rest: string)
    requires forall i :: 0 <= i < |body| ==> body[i] != '`'
    ensures Split(body + Fence + rest, Fence) == [body] + Split(rest, Fence)
  {
    var s := body + Fence + rest;
    forall k | 0 <= k < |body|
      ensures !OccursAt(s, Fence, k)
    {
      assert s[k] == body[k];
    }
    SplitAfterFirst(body, Fence, rest);
  }

  /** A reply fenced as "``` ... ```" and holding no "```json" gives back the stripped
      body. */
  lemma UnfencedPlain(pre: string, body: string, tail: string)
    requires forall i :: 0 <= i < |pre| ==> pre[i] != '`'
    requires forall i :: 0 <= i < |body| ==> body[i] != '`'
    requires !Contains(pre + Fence + body + Fence + tail, JsonFence)
    ensures Unfenced(pre + Fence + body + Fence + tail) == Strip(body)
  {
    var rest := body + Fence + tail;
    var raw := pre + Fence + rest;
    assert raw == pre + Fence + body + Fence + tail;
    FenceAfter(pre, rest);
    FenceAfter(body, tail);
    assert OccursAt(raw, Fence, |pre|);
    ContainsIff(raw, Fence);
    assert Split(raw, Fence)[1] == Split(rest, Fence)[0] == body;
    LeadAbsent(body, Fence);
  }

  /** The decision departs from the defaults only when the fast model is there, answers,
      and its (unfenced) answer parses as a JSON object. */
  lemma DecisionDefaults(query: string, fastReady: bool, o: AskOracles)
    ensures Decide(query, fastReady, o) != Defaults(query) ==>
      && fastReady && o.decide(query).Ok?
      && o.parse(Unfenced(Strip(o.decide(query).value))).Object?
    ensures fastReady && o.decide(query).Ok? ==>
      var f := o.parse(Unfenced(Strip(o.decide(query).value)));
      f.Object? ==> Decide(query, fastReady, o).kind == Field(f.fields, "type", "knowledge")
  {
  }

  /** The context is empty, and so the app-launch instruction is included, exactly when
      the decision is neither "search" nor "calc" and it is not a "files" decision that
      found files. */
  lemma LaunchOnlyWithoutContext(route: Route, filesReady: bool, o: AskOracles, query: string)
    ensures PromptOf(ToolContext(route, filesReady, o), query).launch <==>
      && route.kind != "search" && route.kind != "calc"
      && !(route.kind == "files" && filesReady && FileRows(route.query, o) != [])
  {
    FilesTextEmpty(FileRows(route.query, o));
  }

  /** The context data of the prompt is never empty. */
  lemma PromptDataNonEmpty(c: Context, query: string)
    ensures PromptOf(c, query).data != ""
    ensures PromptOf(c, query).launch ==> PromptOf(c, query).data == "No context."
  {
  }

  /** Local files are consulted only when both the database and the embedding model are
      there. */
  lemma FilesNeedDatabase(route: Route, o: AskOracles)
    ensures ToolContext(route, false, o).source != "Local Files"
  {
  }

  /** With the main model there, a well-formed request is answered with status 200 and
      either the stripped completion or an error message. */
  lemma AskAnswerShape(fields: map<string, string>, initError: Option<string>, fastReady: bool,
                       filesReady: bool, o: AskOracles)
    ensures var r := AskResponse(Body(fields), true, initError, fastReady, filesReady, o);
      r.status == 200 && (Stripped(r.body) || StartsWith(r.body, "Error: "))
  {
    var r := AskResponse(Body(fields), true, initError, fastReady, filesReady, o);
    var query := Field(fields, "query", "");
    var out := o.answer(PromptOf(ToolContext(Decide(query, fastReady, o), filesReady, o), query));
    if out.Ok? {
      assert r.body == Strip(out.value);
    } else {
      assert r.body == "Error: " + out.error;
      assert r.body[..7] == "Error: ";
    }
  }
}
