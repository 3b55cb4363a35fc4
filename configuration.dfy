/** The `Config` component: database settings with a one-shot initialisation
    that either writes a default `hmc.ini` beside the executable or parses the
    one already there. The filesystem and the INI library are not called: what
    they would answer is an `Env` parameter, and what `init` asks of them is
    returned as a trace of `Effect`s. */
module Configuration {
  import opened Paths
  import opened Ini

  const ConfName: Component := "hmc.ini"
  const SqliteDefault: Component := "hmc.db"
  const SqliteType := "sqlite3"

  /** The failures of `init`; the payloads of the library errors are dropped. */
  datatype Error = IniError | IoError | AlreadyInit

  datatype Result<T> = Ok(value: T) | Err(error: Error)

  /** What `init` learns from its surroundings: the executable's path, whether
      the configuration file exists, whether writing it would succeed, and
      whether loading it (reading and parsing, both reported by the INI
      library as one error) would succeed. */
  datatype Env = Env(exe: Path, confExists: bool, writeOk: bool, loadOk: bool)

  /** A request `init` makes of the filesystem or the INI library. */
  datatype Effect =
    | CheckExists(path: string)
    | WriteFile(path: string, doc: Document)
    | LoadFile(path: string)

  /** The fields of a `Config`. */
  datatype State = State(dbType: string, dbPath: string, isInit: bool)

  /** One call of `init`: its result, the fields afterwards, the requests made. */
  datatype Step = Step(result: Result<bool>, post: State, effects: seq<Effect>)

  /** Where the configuration file lives: `get_path("hmc.ini")`. */
  function ConfPath(exe: Path): string
  {
    Render(Resolve(exe, FileName(ConfName)))
  }

  /** Where the database file lives: `get_path("hmc.db")`. */
  function DbPath(exe: Path): string
  {
    Render(Resolve(exe, FileName(SqliteDefault)))
  }

  /** The configuration file and the database file never share a path, so
      creating the one cannot overwrite the other. */
  lemma ConfAndDbPathsDiffer(exe: Path)
    ensures ConfPath(exe) != DbPath(exe)
  {
    ResolveInjective(exe, ConfName, SqliteDefault);
  }

  /** `init` as a transition on the fields: the guard, then the create branch
      or the load branch. */
  function InitStep(s: State, env: Env): (st: Step)
    // the error taxonomy, each outcome with the exact condition that gives it
    ensures st.result == Err(AlreadyInit) <==> s.isInit
    ensures st.result == Ok(true) <==> !s.isInit && !env.confExists && env.writeOk
    ensures st.result == Err(IoError) <==> !s.isInit && !env.confExists && !env.writeOk
    ensures st.result == Ok(false) <==> !s.isInit && env.confExists && env.loadOk
    ensures st.result == Err(IniError) <==> !s.isInit && env.confExists && !env.loadOk
    // the settings never change; the guard only moves from false to true, and
    // only on a successful create
    ensures st.post.dbType == s.dbType && st.post.dbPath == s.dbPath
    ensures s.isInit ==> st.post.isInit
    ensures st.post.isInit != s.isInit <==> st.result == Ok(true)
    ensures st.result.Ok? ==> st.result.value == st.post.isInit
    // a refused call makes no request at all
    ensures s.isInit ==> st.post == s && st.effects == []
    // otherwise: one existence check, then a write or a load of that same path
    ensures !s.isInit ==> |st.effects| == 2 && st.effects[0] == CheckExists(ConfPath(env.exe))
    ensures !s.isInit && !env.confExists ==>
      st.effects[1] == WriteFile(ConfPath(env.exe), DatabaseDocument(s.dbType, s.dbPath))
    ensures !s.isInit && env.confExists ==> st.effects[1] == LoadFile(ConfPath(env.exe))
  {
    if s.isInit then
      Step(Err(AlreadyInit), s, [])
    else
      var path := ConfPath(env.exe);
      if !env.confExists then
        var wrote := [CheckExists(path), WriteFile(path, DatabaseDocument(s.dbType, s.dbPath))];
        if env.writeOk then Step(Ok(true), s.(isInit := true), wrote)
        else Step(Err(IoError), s, wrote)
      else
        var loaded := [CheckExists(path), LoadFile(path)];
        if env.loadOk then Step(Ok(false), s, loaded)
        else Step(Err(IniError), s, loaded)
  }

  /** The steps of successive calls of `init` on one instance, one per
      environment, each starting from the state the previous one left. */
  function Run(s: State, envs: seq<Env>): (steps: seq<Step>)
    ensures |steps| == |envs|
    decreases |envs|
  {
    if envs == [] then []
    else
      var st := InitStep(s, envs[0]);
      [st] + Run(st.post, envs[1..])
  }

  /** How many of the steps created the configuration file. */
  function Creates(steps: seq<Step>): nat
    decreases |steps|
  {
    if steps == [] then 0
    else (if steps[0].result == Ok(true) then 1 else 0) + Creates(steps[1..])
  }

  /** On an initialised instance every further call is refused, makes no
      request and changes nothing. */
  lemma {:induction false} RefusedOnceInit(s: State, envs: seq<Env>)
    requires s.isInit
    ensures forall i :: 0 <= i < |envs| ==> Run(s, envs)[i] == Step(Err(AlreadyInit), s, [])
    decreases |envs|
  {
    if envs != [] {
      RefusedOnceInit(s, envs[1..]);
    }
  }

  /** Over any sequence of calls: at most one creates the file (none once the
      instance is initialised), every call after that one is refused without a
      request, and the settings stay as they were. */
  lemma {:induction false} CreateIsOneShot(s: State, envs: seq<Env>)
    ensures Creates(Run(s, envs)) <= (if s.isInit then 0 else 1)
    ensures forall i, j :: 0 <= i < j < |envs| && Run(s, envs)[i].result == Ok(true) ==>
      Run(s, envs)[j] == Step(Err(AlreadyInit), Run(s, envs)[i].post, [])
    ensures forall i :: 0 <= i < |envs| ==>
      Run(s, envs)[i].post.dbType == s.dbType && Run(s, envs)[i].post.dbPath == s.dbPath
    decreases |envs|
  {
    if envs != [] {
      var st := InitStep(s, envs[0]);
      var rest := Run(st.post, envs[1..]);
      assert Run(s, envs) == [st] + rest;
      assert Run(s, envs)[1..] == rest;
      CreateIsOneShot(st.post, envs[1..]);
      if st.result == Ok(true) {
        RefusedOnceInit(st.post, envs[1..]);
      }
    }
  }

  /** A `Config` instance. */
  class Config {
    var dbType: string
    var dbPath: string  // for SQLite, the database file
    var isInit: bool

    /** The fields as a value. */
    function Fields(): State
      reads this
    {
      State(dbType, dbPath, isInit)
    }

    /** `Config::default()`: the SQLite backend, its database file beside the
        executable, not yet initialised. */
    constructor Default(exe: Path)
      ensures dbType == SqliteType
      ensures dbPath == DbPath(exe)
      ensures !isInit
    {
      dbType := SqliteType;
      var p := GetPath(exe, FileName(SqliteDefault));
      dbPath := p;
      isInit := false;
    }

    /** `init`: it may change only `isInit`, and does what `InitStep` says,
        making the requests listed in `effects`. */
    method Init(env: Env) returns (r: Result<bool>, effects: seq<Effect>)
      modifies this`isInit
      ensures Step(r, Fields(), effects) == InitStep(old(Fields()), env)
      ensures dbType == old(dbType) && dbPath == old(dbPath)
      ensures old(isInit) ==> r == Err(AlreadyInit) && effects == [] && isInit
      ensures r.Ok? ==> r.value == isInit
    {
      if isInit {
        return Err(AlreadyInit), [];
      }
      var confPath := GetPath(env.exe, FileName(ConfName));
      effects := [CheckExists(confPath)];
      if !env.confExists {
        // the default document, from the current fields
        var conf := Empty();
        conf := Set(conf, DatabaseSection, TypeKey, dbType);
        conf := Set(conf, DatabaseSection, PathKey, dbPath);
        // the target path, computed again inline: pop, then push the name
        var absolute, comps := env.exe.absolute, env.exe.comps;
        if |comps| > 0 {
          comps := comps[..|comps| - 1];
        }
        comps := comps + [ConfName];
        var target := Render(Path(absolute, comps));
        effects := effects + [WriteFile(target, conf)];
        if !env.writeOk {
          return Err(IoError), effects;
        }
        isInit := true;
      } else {
        var loadPath := GetPath(env.exe, FileName(ConfName));
        effects := effects + [LoadFile(loadPath)];
        if !env.loadOk {
          return Err(IniError), effects;
        }
      }
      r := Ok(isInit);
    }
  }
}
