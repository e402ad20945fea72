/** The server's mutable globals as one object: the model handles, the lock identities,
    the recorded load error, the database and embedding model, and the abort signal that
    `/ask` raises to stop the fast model's streams. Each endpoint is a method that runs
    the loader and then answers from the state it leaves. */
module Server {
  import opened Wrappers
  import opened PyStr
  import opened Requests
  import opened WebSearch
  import opened Calculator
  import opened Streaming
  import opened ActionPipeline
  import opened Loader
  import opened Router
  import opened Installer

  class Brain {
    var llm: Option<Handle>
    var fast: Option<Handle>
    var mainLock: nat
    var fastLock: nat
    var initError: Option<string>
    var dbConnected: bool
    var embedLoaded: bool
    /** `abort_fast_event`: raised while `/ask` wants the fast model's streams to stop. */
    var abortSet: bool

    /** The loader's view of the globals. */
    function State(): LoaderState
      reads this
    {
      LoaderState(llm, fast, mainLock, fastLock, initError, dbConnected, embedLoaded)
    }

    /** The globals at import time. */
    constructor()
      ensures State() == Initial && !abortSet
    {
      llm := None;
      fast := None;
      mainLock := 0;
      fastLock := 1;
      initError := None;
      dbConnected := false;
      embedLoaded := false;
      abortSet := false;
    }

    /** `ensure_model_loaded`, step by step on the fields. */
    method EnsureModelLoaded(env: LoadEnv)
      modifies this
      ensures State() == Load(old(State()), env)
      ensures Valid(old(State())) ==> Valid(State())
      ensures abortSet == old(abortSet)
    {
      ghost var s0 := State();
      if Valid(s0) {
        LoadKeepsValid(s0, env);
      }
      if llm.Some? && fast.Some? {
        return;
      }
      if !dbConnected && env.fileExists(env.dbPath) && env.dbConnects {
        dbConnected := true;
      }
      if env.importError.Some? {
        initError := env.importError;
        return;
      }
      var p := ResolvePaths(env);
      if p.main == p.fast {
        LoadOneModel(env, p.main);
      } else {
        LoadTwoModels(env, p);
      }
      if env.embedLoads {
        embedLoaded := true;
      }
    }

    /** The path resolution of the loader: the fast file falls back to the main one, and
        both are made absolute unless resolving either raises. */
    static method ResolvePaths(env: LoadEnv) returns (p: Paths)
      ensures p == Resolved(env)
      ensures !env.fileExists(env.fastPath) && env.fileExists(env.mainPath) ==> p.main == p.fast
    {
      var fastPath := env.fastPath;
      if !env.fileExists(fastPath) && env.fileExists(env.mainPath) {
        fastPath := env.mainPath;
      }
      p := Paths(env.mainPath, fastPath);
      var m, a := env.absPath(env.mainPath), env.absPath(fastPath);
      if m.Some? && a.Some? {
        p := Paths(m.value, a.value);
      }
    }

    /** Identical paths: one model in both slots, the fast lock rebound to the main lock. */
    method LoadOneModel(env: LoadEnv, path: string)
      modifies this
      ensures State() == LoadShared(old(State()), env, path) && abortSet == old(abortSet)
    {
      match env.loadError(path, MainContext)
      case None =>
        var h := Handle(path, MainContext);
        llm := Some(h);
        fast := Some(h);
        fastLock := mainLock;
      case Some(e) =>
        initError := Some(e);
    }

    /** Distinct paths: the fast model first, then the main model. */
    method LoadTwoModels(env: LoadEnv, p: Paths)
      modifies this
      ensures State() == LoadMain(LoadFast(old(State()), env, p.fast), env, p) && abortSet == old(abortSet)
    {
      if fast.None? && env.fileExists(p.fast) && env.loadError(p.fast, FastContext).None? {
        fast := Some(Handle(p.fast, FastContext));
      }
      if llm.None? {
        var target := if env.fileExists(p.main) then p.main else p.fast;
        match env.loadError(target, MainContext)
        case None =>
          llm := Some(Handle(target, MainContext));
        case Some(e) =>
          initError := Some(e);
      }
    }

    /** `/action`: run the loader, then answer with the fast model as it left it. Every
        check of the abort signal during the fast model's streams sees the signal as this
        request finds it. */
    method Action(req: Request, env: LoadEnv, o: ActionOracles) returns (r: Response<ActionReply>)
      requires forall turns :: SeesFlag(o.fast(turns), abortSet)
      modifies this
      ensures State() == Load(old(State()), env) && abortSet == old(abortSet)
      ensures r == ActionResponse(req, State().fast.Some?, o)
    {
      EnsureModelLoaded(env);
      r := HandleAction(req, fast.Some?, o);
    }

    /** `/ask` as the source is written: raise the abort signal, run the loader, and
        return early for a main model that failed to load or an unreadable body; only
        the way to the main model clears the signal, so the early returns leave it
        raised. */
    method AskAsWritten(req: Request, env: LoadEnv, o: AskOracles) returns (r: Response<string>)
      modifies this
      ensures State() == Load(old(State()), env)
      ensures abortSet == (llm.None? || req.Malformed?)
      ensures r == AskResponse(req, llm.Some?, initError, fast.Some?, dbConnected && embedLoaded, o)
    {
      abortSet := true;
      EnsureModelLoaded(env);
      if llm.None? {
        return Response(200, "Error: Model failed to load. Reason: " + Show(initError));
      }
      if req.Malformed? {
        return Response(400, "Error: Bad JSON");
      }
      var prompt := AskPrompt(Field(req.fields, "query", ""), o);
      abortSet := false;
      r := Response(200, AnswerText(o.answer(prompt)));
    }

    /** `/ask` corrected: as `AskAsWritten`, but the signal is cleared on every way out. */
    method Ask(req: Request, env: LoadEnv, o: AskOracles) returns (r: Response<string>)
      modifies this
      ensures State() == Load(old(State()), env) && !abortSet
      ensures r == AskResponse(req, llm.Some?, initError, fast.Some?, dbConnected && embedLoaded, o)
    {
      abortSet := true;
      EnsureModelLoaded(env);
      if llm.None? {
        abortSet := false;
        return Response(200, "Error: Model failed to load. Reason: " + Show(initError));
      }
      if req.Malformed? {
        abortSet := false;
        return Response(400, "Error: Bad JSON");
      }
      var prompt := AskPrompt(Field(req.fields, "query", ""), o);
      abortSet := false;
      r := Response(200, AnswerText(o.answer(prompt)));
    }

    /** The routing and tool steps of `/ask`: decide, gather the context, build the prompt. */
    method AskPrompt(query: string, o: AskOracles) returns (prompt: Prompt)
      ensures prompt == PromptOf(ToolContext(Decide(query, fast.Some?, o), dbConnected && embedLoaded, o), query)
    {
      var route := Decide(query, fast.Some?, o);
      var context := GatherContext(route, dbConnected && embedLoaded, o);
      prompt := PromptOf(context, query);
    }

    /** `/install_plan`: validate, run the loader, try Nixpkgs, then the web. The loader
        runs again before the web attempt; with the same observations it changes nothing. */
    method InstallPlan(req: Request, env: LoadEnv, o: InstallOracles) returns (r: Response<InstallReply>)
      modifies this
      ensures abortSet == old(abortSet)
      ensures State() == if req.Malformed? || Strip(Field(req.fields, "app_name", "")) == "" then old(State())
                         else Load(old(State()), env)
      ensures r == InstallResponse(req, Load(old(State()), env).fast.Some?, Load(old(State()), env).llm.Some?, o)
    {
      if req.Malformed? {
        return Response(400, Rejected("Bad JSON"));
      }
      var app := Strip(Field(req.fields, "app_name", ""));
      if app == "" {
        return Response(400, Rejected("No app name"));
      }
      EnsureModelLoaded(env);
      var cands := BuildCandidates(o.nixSearch(Lower(app), NormalizedName(app)));
      if cands != [] && fast.Some? {
        match o.choose(app, cands)
        case Ok(content) =>
          var choice := Strip(content);
          if Accepted(choice, cands) {
            return Response(200, Plan("nix", "Found '" + choice + "' in Nixpkgs", [NixInstall + choice]));
          }
        case Err(_) =>
      }
      var hits := Take(o.search(DownloadQuery(app)), 3);
      if !Listable(hits) {
        return Response(500, InternalError);
      }
      var context := Join(ResultLines(hits), "\n");
      EnsureModelLoaded(env);
      LoadIdempotent(old(State()), env);
      r := Response(200, WebPlan(app, context, llm.Some?, o));
    }
  }

  // ---------------------------------------------------------------- the abort signal

  /** Every check of the signal during a stream sees `flag`: no other request changes the
      signal while the stream runs. */
  predicate SeesFlag(run: StreamRun, flag: bool) {
    run.Ran? ==> forall i :: 0 <= i < |run.steps| ==> run.steps[i].abortSet == flag
  }

  /** As written: after one `/ask` that finds the main model missing, the signal stays
      raised, and a later `/action` that reaches the fast model aborts at its first chunk
      although the fast model is loaded and nobody is asking it to stop. */
  method AbortStuckAfterFailedAsk(b: Brain, req: Request, env: LoadEnv, askO: AskOracles,
                                  fields: map<string, string>, actO: ActionOracles)
    returns (r: Response<ActionReply>)
    requires Load(b.State(), env).llm.None? && Load(b.State(), env).fast.Some?
    requires Strip(Field(fields, "query", "")) != ""
    requires Lower(Strip(Field(fields, "query", ""))) !in Shortcuts
    requires forall turns :: SeesFlag(actO.fast(turns), true)
    requires var run := actO.fast(FirstTurns(Strip(Field(fields, "query", "")))); run.Ran? && |run.steps| > 0
    modifies b
    ensures b.abortSet
    ensures r == Response(200, Failed("Aborted"))
  {
    LoadIdempotent(b.State(), env);
    var answer := b.AskAsWritten(req, env, askO);
    r := b.Action(Body(fields), env, actO);
    var query := Strip(Field(fields, "query", ""));
    assert actO.fast(FirstTurns(query)).steps[0].abortSet;
    AbortInFirstPass(query, actO);
  }

  /** Corrected: after the corrected `/ask`, whatever its outcome, a later `/action`
      answers as `ActionResponse` and none of its streams is aborted. */
  method ActionAfterAsk(b: Brain, req: Request, env: LoadEnv, askO: AskOracles,
                        later: Request, actO: ActionOracles)
    returns (r: Response<ActionReply>)
    requires forall turns :: SeesFlag(actO.fast(turns), false)
    modifies b
    ensures !b.abortSet
    ensures r == ActionResponse(later, Load(old(b.State()), env).fast.Some?, actO)
    ensures forall turns :: actO.fast(turns).Ran? ==> Consume(actO.fast(turns).steps, actO.fast(turns).failure) != Aborted
  {
    LoadIdempotent(b.State(), env);
    var answer := b.Ask(req, env, askO);
    r := b.Action(later, env, actO);
    forall turns | actO.fast(turns).Ran?
      ensures Consume(actO.fast(turns).steps, actO.fast(turns).failure) != Aborted
    {
      ClearedSignalNeverAborts(actO.fast(turns));
    }
  }

  /** Corrected: with the signal cleared on every way out of `/ask`, a stream that only
      sees the cleared signal is never aborted. */
  lemma ClearedSignalNeverAborts(run: StreamRun)
    requires run.Ran? && SeesFlag(run, false)
    ensures Consume(run.steps, run.failure) != Aborted
    ensures Consume(run.steps, run.failure) == match run.failure
      case None => Finished(Deltas(run.steps))
      case Some(m) => Raised(Deltas(run.steps), m)
  {
    assert !AnyAbort(run.steps);
  }
}
