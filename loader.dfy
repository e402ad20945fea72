/** The smart loader (`ensure_model_loaded`) as a transition on the server's globals:
    connect the vector database, load the main and the fast model (one shared model when
    both resolve to the same file, with the fast lock rebound to the main lock) and the
    embedding model. File existence, path resolution and every load are observations
    supplied by a `LoadEnv`. */
module Loader {
  import opened Wrappers

  /** A loaded model: the file it was loaded from and the context size it was given. */
  datatype Handle = Handle(path: string, contextSize: nat)

  /** The context sizes of the main (and shared) model and of the separate fast model. */
  const MainContext: nat := 4096
  const FastContext: nat := 1024

  /** The loader's globals: the main handle `llm`, the fast handle, the identities of the
      two locks, the recorded error, and whether the database and the embedding model are
      there. */
  datatype LoaderState = LoaderState(
    llm: Option<Handle>,
    fast: Option<Handle>,
    mainLock: nat,
    fastLock: nat,
    initError: Option<string>,
    dbConnected: bool,
    embedLoaded: bool)

  /** The globals at start-up: nothing loaded, two distinct locks. */
  const Initial := LoaderState(None, None, 0, 1, None, false, false)

  /** What one loader run observes. `absPath` is None when resolving a path raises;
      `loadError` is the message of the exception loading a file with a context size
      raises, None when the load succeeds. */
  datatype LoadEnv = LoadEnv(
    dbPath: string,
    dbConnects: bool,
    importError: Option<string>,
    mainPath: string,
    fastPath: string,
    fileExists: string -> bool,
    absPath: string -> Option<string>,
    loadError: (string, nat) -> Option<string>,
    embedLoads: bool)

  /** The two resolved paths that are compared. */
  datatype Paths = Paths(main: string, fast: string)

  /** The fast model's file: its own, unless that is missing while the main one exists. */
  function FastFile(env: LoadEnv): string {
    if !env.fileExists(env.fastPath) && env.fileExists(env.mainPath) then env.mainPath else env.fastPath
  }

  /** The absolute paths, or the unresolved ones when resolving either raises. */
  function Resolved(env: LoadEnv): Paths {
    var f := FastFile(env);
    var m := env.absPath(env.mainPath);
    var a := env.absPath(f);
    if m.Some? && a.Some? then Paths(m.value, a.value) else Paths(env.mainPath, f)
  }

  /** The file the main model is loaded from in the distinct case. */
  function MainTarget(env: LoadEnv, p: Paths): string {
    if env.fileExists(p.main) then p.main else p.fast
  }

  /** Step 1: connect the database if it is not connected and its directory exists. */
  function ConnectDb(s: LoaderState, env: LoadEnv): LoaderState {
    if !s.dbConnected && env.fileExists(env.dbPath) && env.dbConnects then s.(dbConnected := true) else s
  }

  /** Identical paths: one model in both slots and one lock, or the error recorded. */
  function LoadShared(s: LoaderState, env: LoadEnv, path: string): LoaderState {
    match env.loadError(path, MainContext)
    case None =>
      var h := Handle(path, MainContext);
      s.(llm := Some(h), fast := Some(h), fastLock := s.mainLock)
    case Some(e) => s.(initError := Some(e))
  }

  /** Distinct paths, fast model first: only when absent and its file exists; a failure
      is only logged. */
  function LoadFast(s: LoaderState, env: LoadEnv, path: string): LoaderState {
    if s.fast.None? && env.fileExists(path) && env.loadError(path, FastContext).None? then
      s.(fast := Some(Handle(path, FastContext)))
    else s
  }

  /** Distinct paths, main model second: only when absent; a failure is recorded. */
  function LoadMain(s: LoaderState, env: LoadEnv, p: Paths): LoaderState {
    if s.llm.Some? then s
    else
      var target := MainTarget(env, p);
      match env.loadError(target, MainContext)
      case None => s.(llm := Some(Handle(target, MainContext)))
      case Some(e) => s.(initError := Some(e))
  }

  /** Step 4: the embedding model is (re)loaded; a failure is ignored. */
  function LoadEmbeddings(s: LoaderState, env: LoadEnv): LoaderState {
    if env.embedLoads then s.(embedLoaded := true) else s
  }

  /** One run of `ensure_model_loaded`. */
  function Load(s: LoaderState, env: LoadEnv): LoaderState {
    if s.llm.Some? && s.fast.Some? then s
    else
      var s1 := ConnectDb(s, env);
      if env.importError.Some? then s1.(initError := env.importError)
      else
        var p := Resolved(env);
        var s2 := if p.main == p.fast then LoadShared(s1, env, p.main)
                  else LoadMain(LoadFast(s1, env, p.fast), env, p);
        LoadEmbeddings(s2, env)
  }

  /** The loader's invariant: the main handle always has the main context size, a fast
      handle without the fast context size is the shared one, and the two locks are the
      same exactly when one model sits in both slots. */
  predicate Valid(s: LoaderState) {
    && (s.llm.Some? ==> s.llm.value.contextSize == MainContext)
    && (s.fast.Some? && s.fast.value.contextSize != FastContext ==> s.fast == s.llm)
    && (s.fastLock == s.mainLock <==> s.llm.Some? && s.fast == s.llm)
  }

  lemma InitialValid()
    ensures Valid(Initial) && Initial.llm.None? && Initial.fast.None?
  {
  }

  /** Every run keeps the invariant; in particular the fast lock is rebound to the main
      lock only together with the shared model. */
  lemma LoadKeepsValid(s: LoaderState, env: LoadEnv)
    requires Valid(s)
    ensures Valid(Load(s, env))
  {
    if !(s.llm.Some? && s.fast.Some?) && env.importError.None? {
      var p := Resolved(env);
      if p.main != p.fast {
        DistinctKeepsValid(ConnectDb(s, env), env, p);
      }
    }
  }

  /** The distinct branch keeps the invariant: the fast handle it adds has the fast
      context size and the main handle the main one, so the two never coincide. */
  lemma DistinctKeepsValid(s1: LoaderState, env: LoadEnv, p: Paths)
    requires Valid(s1) && !(s1.llm.Some? && s1.fast.Some?)
    ensures Valid(LoadMain(LoadFast(s1, env, p.fast), env, p))
  {
    var s2 := LoadFast(s1, env, p.fast);
    assert s2.fast.Some? ==> s2.fast.value.contextSize == FastContext;
    assert s2.fastLock != s2.mainLock;
  }

  /** A run with both handles set changes nothing; and a second run with the same
      observations changes nothing either. */
  lemma LoadIdempotent(s: LoaderState, env: LoadEnv)
    ensures s.llm.Some? && s.fast.Some? ==> Load(s, env) == s
    ensures Load(Load(s, env), env) == Load(s, env)
  {
    var r := Load(s, env);
    if !(s.llm.Some? && s.fast.Some?) && !(r.llm.Some? && r.fast.Some?) {
      var s1 := ConnectDb(s, env);
      assert ConnectDb(r, env) == r;
      if env.importError.None? {
        var p := Resolved(env);
        if p.main == p.fast {
          SharedIdempotent(s1, env, p.main);
        } else {
          DistinctIdempotent(s1, env, p);
        }
      }
    }
  }

  lemma SharedIdempotent(s1: LoaderState, env: LoadEnv, path: string)
    requires env.loadError(path, MainContext).Some?
    ensures var r := LoadEmbeddings(LoadShared(s1, env, path), env);
      LoadEmbeddings(LoadShared(r, env, path), env) == r
  {
  }

  lemma DistinctIdempotent(s1: LoaderState, env: LoadEnv, p: Paths)
    ensures var r := LoadEmbeddings(LoadMain(LoadFast(s1, env, p.fast), env, p), env);
      LoadEmbeddings(LoadMain(LoadFast(r, env, p.fast), env, p), env) == r
  {
    var s2 := LoadFast(s1, env, p.fast);
    var s3 := LoadMain(s2, env, p);
    var r := LoadEmbeddings(s3, env);
    assert LoadFast(r, env, p.fast) == r;
    assert LoadMain(r, env, p) == r;
  }

  /** Handles are never dropped. */
  lemma LoadKeepsHandles(s: LoaderState, env: LoadEnv)
    ensures s.llm.Some? ==> Load(s, env).llm.Some?
    ensures s.fast.Some? ==> Load(s, env).fast.Some?
  {
  }

  /** `init_error` is never reset and changes only to a recorded error: the import error
      or the failure of a load with the main context size (the shared or the main model);
      a failing fast-model load never sets it. */
  lemma OnlyMainFailureSetsInitError(s: LoaderState, env: LoadEnv)
    ensures var r := Load(s, env);
      || r.initError == s.initError
      || (&& r.initError.Some?
          && (|| r.initError == env.importError
              || r.initError == env.loadError(Resolved(env).main, MainContext)
              || r.initError == env.loadError(Resolved(env).fast, MainContext)))
  {
  }

  /** With identical resolved paths and a successful load, one handle sits in both slots
      and the fast lock is the main lock. */
  lemma SharedUnifies(s: LoaderState, env: LoadEnv)
    requires !(s.llm.Some? && s.fast.Some?) && env.importError.None?
    requires Resolved(env).main == Resolved(env).fast
    requires env.loadError(Resolved(env).main, MainContext).None?
    ensures var r := Load(s, env);
      && r.llm == r.fast == Some(Handle(Resolved(env).main, MainContext))
      && r.fastLock == r.mainLock == s.mainLock
  {
  }

  /** The path fallback: when the fast file is missing and the main one exists, both
      resolve to the same file, so a successful load unifies the two models. */
  lemma MissingFastFileShares(s: LoaderState, env: LoadEnv)
    requires !(s.llm.Some? && s.fast.Some?) && env.importError.None?
    requires !env.fileExists(env.fastPath) && env.fileExists(env.mainPath)
    requires env.loadError(Resolved(env).main, MainContext).None?
    ensures var r := Load(s, env); r.llm.Some? && r.llm == r.fast && r.fastLock == r.mainLock
  {
    assert FastFile(env) == env.mainPath;
    SharedUnifies(s, env);
  }

  /** With distinct paths, a fast model appears only when its file exists, loaded from
      that file with the fast context size. */
  lemma DistinctFastNeedsFile(s: LoaderState, env: LoadEnv)
    requires env.importError.None? && Resolved(env).main != Resolved(env).fast
    ensures var r := Load(s, env);
      r.fast != s.fast ==>
        env.fileExists(Resolved(env).fast) && r.fast == Some(Handle(Resolved(env).fast, FastContext))
  {
  }

  /** With distinct paths and no main model yet, the main model comes from the main file
      when it exists and from the fast file otherwise, or its failure is recorded. */
  lemma DistinctMainTarget(s: LoaderState, env: LoadEnv)
    requires !(s.llm.Some? && s.fast.Some?) && s.llm.None? && env.importError.None?
    requires Resolved(env).main != Resolved(env).fast
    ensures var p := Resolved(env);
      var target := if env.fileExists(p.main) then p.main else p.fast;
      var r := Load(s, env);
      match env.loadError(target, MainContext)
      case None => r.llm == Some(Handle(target, MainContext)) && r.initError == s.initError
      case Some(e) => r.llm.None? && r.initError == Some(e)
  {
  }

  /** A failed import records its message and loads no model. */
  lemma ImportFailureLoadsNothing(s: LoaderState, env: LoadEnv)
    requires !(s.llm.Some? && s.fast.Some?) && env.importError.Some?
    ensures var r := Load(s, env);
      && r.llm == s.llm && r.fast == s.fast && r.embedLoaded == s.embedLoaded
      && r.initError == env.importError
  {
  }
}
