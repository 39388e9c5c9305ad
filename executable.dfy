/**
 * The patched Pod::Executable: the git hooks execute_command and
 * capture_command, and the helpers that find the private key for a git
 * command. `@repo_path`, the one piece of state the helpers keep between
 * calls, is the field of class Executable.
 */
module GitPrivateRepoExecutable {
  import opened Wrappers
  import opened RubyValues
  import RubyStrings
  import opened Host
  import opened FilePaths
  import opened PodfileWalk
  import opened KeyMapping
  import opened ConfigSearch
  import opened LineReader

  const Git := "git"
  /** The symbol :merge, capture_command's default for `capture:`. */
  const Merge := "merge"
  const SshVariable := "GIT_SSH_COMMAND"
  const SshPrefix := "ssh -i "
  const SshOptions := " -o IdentitiesOnly=yes"
  /** What get_origin_url asks when it has no directory to ask about. */
  const CwdRemoteUrlCommand := "git config --get remote.origin.url"

  /** `"ssh -i #{private_key_path} -o IdentitiesOnly=yes"`: the key path, between the ssh flags. */
  function SshCommand(key: Value): string {
    SshPrefix + KeyText(key) + SshOptions
  }

  /**
   * The key path can be read back from the ssh command: it is what lies
   * between the ssh flags, so different key paths give different commands.
   */
  lemma SshCommandHoldsKey(key: Value, other: Value)
    ensures var r := SshCommand(key);
      |r| == |SshPrefix| + |KeyText(key)| + |SshOptions| &&
      r[..|SshPrefix|] == SshPrefix && r[|r| - |SshOptions|..] == SshOptions &&
      r[|SshPrefix|..|r| - |SshOptions|] == KeyText(key)
    ensures SshCommand(key) == SshCommand(other) <==> KeyText(key) == KeyText(other)
  {
    var r, s := SshCommand(key), SshCommand(other);
    assert r[|SshPrefix|..|r| - |SshOptions|] == KeyText(key);
    assert s[|SshPrefix|..|s| - |SshOptions|] == KeyText(other);
  }

  /** `"#{bin} #{command.join(' ')}"`, the command line quoted in messages. */
  function FullCommand(bin: string, command: seq<string>): string {
    bin + " " + RubyStrings.Join(command, " ")
  }

  /** Position i holds the first occurrence of x in the command. */
  predicate FirstAt(command: seq<string>, x: string, i: int) {
    0 <= i < |command| && command[i] == x && x !in command[..i]
  }

  /** Two first occurrences are the same position. */
  lemma FirstAtUnique(command: seq<string>, x: string, i: int, j: int)
    requires FirstAt(command, x, i) && FirstAt(command, x, j)
    ensures i == j
  {
  }

  /** RubyStrings.IndexOf finds the first occurrence. */
  lemma IndexOfIsFirst(command: seq<string>, x: string)
    requires x in command
    ensures RubyStrings.IndexOf(command, x).Some?
    ensures forall i | FirstAt(command, x, i) :: i == RubyStrings.IndexOf(command, x).value
  {
    var m := RubyStrings.IndexOf(command, x).value;
    forall i | FirstAt(command, x, i) ensures i == m {
      FirstAtUnique(command, x, i, m);
    }
  }

  /**
   * `command[command.index(x) + k]` when that position exists, `otherwise`
   * when it does not.
   */
  function ArgumentAfter(command: seq<string>, x: string, k: nat, otherwise: Option<string>): (r: Option<string>)
    requires x in command
    ensures forall i | FirstAt(command, x, i) ::
      r == (if i + k < |command| then Some(command[i + k]) else otherwise)
  {
    IndexOfIsFirst(command, x);
    var idx := RubyStrings.IndexOf(command, x).value;
    if |command| > idx + k then Some(command[idx + k]) else otherwise
  }

  /**
   * get_origin_url(path): git's answer for the repository at `path` when
   * `path` is a directory, for the current directory otherwise; nil when
   * git prints nothing.
   */
  function OriginUrl(w: World, path: string): (r: Option<string>)
    ensures path in w.dirs ==> r == QueryOutput(w, RemoteUrlCommand(path))
    ensures path !in w.dirs ==> r == QueryOutput(w, CwdRemoteUrlCommand)
  {
    QueryOutput(w, if path in w.dirs then RemoteUrlCommand(path) else CwdRemoteUrlCommand)
  }

  /**
   * extract_repo_url_from_command's result: the argument after the first
   * "clone"; for a fetch or pull, the origin URL of the directory after the
   * first "-C"; nil otherwise. "clone" wins over "fetch" and "pull".
   */
  function RepoUrl(w: World, command: seq<string>): (r: Option<string>)
    ensures forall i | FirstAt(command, "clone", i) ::
      r == (if i + 1 < |command| then Some(command[i + 1]) else None)
    ensures "clone" !in command && ("fetch" in command || "pull" in command) ==>
      ("-C" !in command ==> r == None) &&
      forall i | FirstAt(command, "-C", i) ::
        r == (if i + 1 < |command| then OriginUrl(w, command[i + 1]) else None)
    ensures "clone" !in command && "fetch" !in command && "pull" !in command ==> r == None
  {
    if "clone" in command then
      ArgumentAfter(command, "clone", 1, None)
    else if "fetch" in command || "pull" in command then
      if "-C" !in command then None
      else match ArgumentAfter(command, "-C", 1, None)
        case None => None
        case Some(path) => OriginUrl(w, path)
    else
      None
  }

  /**
   * @repo_path after extract_repo_url_from_command: the argument two after
   * the first "clone" when there is one, otherwise what it was before.
   */
  function RepoPathAfter(command: seq<string>, repoPath: Option<string>): (r: Option<string>)
    ensures forall i | FirstAt(command, "clone", i) ::
      r == (if i + 2 < |command| then Some(command[i + 2]) else repoPath)
    ensures "clone" !in command ==> r == repoPath
  {
    if "clone" in command then ArgumentAfter(command, "clone", 2, repoPath) else repoPath
  }

  /**
   * The key find_private_key_for_command takes from the file at `path`:
   * the lookup's answer when the file parses to an array and the lookup
   * does not raise; nil on every error, which the method rescues.
   */
  function KeyFromConfig(w: World, path: string, url: string): (r: Option<Value>)
    ensures r.Some? ==> Truthy(r.value)
    ensures ReadJson(w, path).Unparsable? || !ReadJson(w, path).value.Arr? ==> r == None
    ensures ReadJson(w, path).Parsed? && ReadJson(w, path).value.Arr? ==>
      var lookup := KeyForUrl(ReadJson(w, path).value.items, url);
      r == (if lookup.Ok? then lookup.value else None)
  {
    match ReadJson(w, path)
    case Unparsable(_) => None
    case Parsed(v) =>
      if !v.Arr? then None
      else match KeyForUrl(v.items, url)
        case Ok(k) => k
        case Err(_) => None
  }

  /**
   * find_private_key_for_command, called with @repo_path equal to
   * `repoPath`: no URL, no keys.json and every failure to read it give nil;
   * it never raises.
   */
  function KeyForCommand(w: World, command: seq<string>, repoPath: Option<string>): (r: Option<Value>)
    ensures r.Some? ==> Truthy(r.value)
    ensures RepoUrl(w, command).None? ==> r == None
    ensures ConfigPath(w, RepoPathAfter(command, repoPath)).None? ==> r == None
    ensures RepoUrl(w, command).Some? && ConfigPath(w, RepoPathAfter(command, repoPath)).Some? ==>
      r == KeyFromConfig(w, ConfigPath(w, RepoPathAfter(command, repoPath)).value, RepoUrl(w, command).value)
  {
    match RepoUrl(w, command)
    case None => None
    case Some(url) =>
      match ConfigPath(w, RepoPathAfter(command, repoPath))
      case None => None
      case Some(path) => KeyFromConfig(w, path, url)
  }

  /**
   * On a well-formed keys.json the key for a command is the "key_path" of
   * the first entry whose "url" is the command's URL, when that is truthy;
   * a later entry with the same URL is never used.
   */
  lemma KeyIsFirstMatch(w: World, command: seq<string>, repoPath: Option<string>, i: nat)
    requires RepoUrl(w, command).Some? && ConfigPath(w, RepoPathAfter(command, repoPath)).Some?
    requires ReadJson(w, ConfigPath(w, RepoPathAfter(command, repoPath)).value).Parsed?
    requires ReadJson(w, ConfigPath(w, RepoPathAfter(command, repoPath)).value).value.Arr?
    requires var configs := ReadJson(w, ConfigPath(w, RepoPathAfter(command, repoPath)).value).value.items;
      WellFormed(configs) && IsFirstMatch(configs, RepoUrl(w, command).value, i)
    ensures var configs := ReadJson(w, ConfigPath(w, RepoPathAfter(command, repoPath)).value).value.items;
      KeyForCommand(w, command, repoPath) ==
        if Truthy(Field(configs[i], "key_path")) then Some(Field(configs[i], "key_path")) else None
  {
    var configs := ReadJson(w, ConfigPath(w, RepoPathAfter(command, repoPath)).value).value.items;
    WellFormedLookup(configs, RepoUrl(w, command).value);
  }

  /**
   * `env.merge({"GIT_SSH_COMMAND" => ...})`: the SSH command is set,
   * replacing any value the caller gave, and every other entry is kept.
   */
  function MergeSshEnv(env: map<string, string>, key: Value): (r: map<string, string>)
    ensures r.Keys == env.Keys + {SshVariable}
    ensures r[SshVariable] == SshCommand(key)
    ensures forall v | v in env && v != SshVariable :: r[v] == env[v]
  {
    env[SshVariable := SshCommand(key)]
  }

  /** A child process: its environment additions, the program and its arguments. */
  datatype Spawn = Spawn(env: map<string, string>, bin: string, args: seq<string>)

  /** How a spawned git behaves: the chunks each pipe yields, and whether it exits successfully. */
  datatype ProcessRun = ProcessRun(stdout: seq<string>, stderr: seq<string>, success: bool)

  /** How the patched execute_command ends. */
  datatype ExecOutcome =
    | Delegated(executable: string, command: seq<string>, raiseOnFailure: bool)  // original_execute_command
    | NotFound(executable: string)                                              // which! raised
    | Returned(spawn: Spawn, output: string)
    | Raised(spawn: Spawn, message: string)                                     // Informative

  /**
   * The arguments the patched capture_command passes to the original one:
   * the executable, the command, `capture:` (a symbol, by name), `env:`,
   * and the remaining keyword arguments by name.
   */
  datatype CaptureCall<A> = CaptureCall(executable: string, command: seq<string>, capture: string,
                                        env: map<string, string>, kwargs: map<string, A>)

  /**
   * What the patched execute_command promises once it has a key: git is
   * spawned through `which!` with GIT_SSH_COMMAND set and the arguments
   * unchanged; the output is the collected stdout followed by the collected
   * stderr; a failure raises, with the command line and the output, exactly
   * when `raise_on_failure` is set. A git that cannot be found raises in
   * `which!`.
   */
  predicate ExecutedWithKey(w: World, key: Value, command: seq<string>, raiseOnFailure: bool, run: ProcessRun,
                            outcome: ExecOutcome)
  {
    var output := Collected(RubyStrings.Concat(run.stdout)) + Collected(RubyStrings.Concat(run.stderr));
    if Git !in w.which then
      outcome == NotFound(Git)
    else
      var spawn := Spawn(map[SshVariable := SshCommand(key)], w.which[Git], command);
      if !run.success && raiseOnFailure then
        outcome == Raised(spawn, FullCommand(w.which[Git], command) + "\n\n" + output)
      else
        outcome == Returned(spawn, output)
  }

  /** The body of execute_command's `if private_key_path` branch (`run` stands for the child process). */
  method RunWithKey(w: World, key: Value, command: seq<string>, raiseOnFailure: bool, run: ProcessRun)
    returns (outcome: ExecOutcome)
    ensures ExecutedWithKey(w, key, command, raiseOnFailure, run, outcome)
    ensures outcome.Returned? || outcome.Raised? ==>
      outcome.spawn.env.Keys == {SshVariable} && outcome.spawn.args == command
  {
    if Git !in w.which {
      return NotFound(Git);
    }
    var bin := w.which[Git];
    var fullCommand := FullCommand(bin, command);
    var env := map[SshVariable := SshCommand(key)];
    var spawn := Spawn(env, bin, command);
    var stdout := Reader(run.stdout);
    var stderr := Reader(run.stderr);
    var output := RubyStrings.Concat(stdout) + RubyStrings.Concat(stderr);
    if !run.success && raiseOnFailure {
      return Raised(spawn, fullCommand + "\n\n" + output);
    }
    return Returned(spawn, output);
  }

  class Executable {
    /** @repo_path: the clone destination of the last clone command seen, nil before any. */
    var repoPath: Option<string>

    constructor ()
      ensures repoPath == None
    {
      repoPath := None;
    }

    /** extract_repo_url_from_command, which also records a clone's destination. */
    method ExtractRepoUrl(w: World, command: seq<string>) returns (url: Option<string>)
      modifies this
      ensures url == RepoUrl(w, command)
      ensures repoPath == RepoPathAfter(command, old(repoPath))
    {
      if "clone" in command {
        var idx := RubyStrings.IndexOf(command, "clone").value;
        url := if |command| > idx + 1 then Some(command[idx + 1]) else None;
        if |command| > idx + 2 {
          repoPath := Some(command[idx + 2]);
        }
      } else if "fetch" in command || "pull" in command {
        var path: Option<string> := None;
        var cIdx := RubyStrings.IndexOf(command, "-C");
        if cIdx.Some? && cIdx.value + 1 < |command| {
          path := Some(command[cIdx.value + 1]);
        }
        if path.None? {
          return None;
        }
        url := OriginUrl(w, path.value);
      } else {
        url := None;
      }
    }

    /**
     * find_podfile_path. Both loops stop at "/", or after checking
     * "./Podfile" at "."; wherever the loops as written end they return the
     * same (PodfileWalk.WalkAgreesWhereItEnds), and from an absolute
     * Dir.pwd they always end (PodfileWalk.WalkAgreesOnAbsolute).
     */
    method FindPodfilePath(w: World) returns (r: Option<string>)
      ensures r == PodfilePath(w, repoPath)
    {
      if w.installationRoot.Some? {
        var podfile := Join(w.installationRoot.value, PodfileName);
        if podfile in w.files {
          return Some(podfile);
        }
      }
      var current := w.pwd;
      while current != "/"
        invariant WalkFrom(current, w.files) == WalkFrom(w.pwd, w.files)
        decreases if current == "/" || current == "." then 0 else |current| + 1
      {
        var podfile := Join(current, PodfileName);
        if podfile in w.files {
          return Some(podfile);
        }
        if current == "." {
          break;
        }
        DirnameProgress(current);
        current := Dirname(current);
      }
      if repoPath.Some? {
        current := Dirname(repoPath.value);
        while current != "/"
          invariant WalkFrom(current, w.files) == WalkFrom(Dirname(repoPath.value), w.files)
          decreases if current == "/" || current == "." then 0 else |current| + 1
        {
          var podfile := Join(current, PodfileName);
          if podfile in w.files {
            return Some(podfile);
          }
          if current == "." {
            break;
          }
          DirnameProgress(current);
          current := Dirname(current);
        }
      }
      return None;
    }

    /** find_json_config_path. */
    method FindJsonConfigPath(w: World) returns (r: Option<string>)
      ensures r == ConfigPath(w, repoPath)
    {
      if KeysFile in w.files {
        return Some(KeysFile);
      }
      var podfile := FindPodfilePath(w);
      if podfile.None? {
        return None;
      }
      var dir := Dirname(podfile.value);
      var nextToPodfile := Join(dir, KeysFile);
      if nextToPodfile in w.files {
        return Some(nextToPodfile);
      }
      var cocoapods := Join(dir, CocoapodsDir);
      if cocoapods in w.dirs {
        var inCocoapods := Join(cocoapods, KeysFile);
        if inCocoapods in w.files {
          return Some(inCocoapods);
        }
      }
      var home := HomeConfig(w);
      if home in w.files {
        return Some(home);
      }
      return None;
    }

    /** find_private_key_for_command. */
    method FindPrivateKeyForCommand(w: World, command: seq<string>) returns (key: Option<Value>)
      modifies this
      ensures key == KeyForCommand(w, command, old(repoPath))
      ensures repoPath == RepoPathAfter(command, old(repoPath))
    {
      var url := ExtractRepoUrl(w, command);
      if url.None? {
        return None;
      }
      var configPath := FindJsonConfigPath(w);
      if configPath.None? || configPath.value !in w.files {
        return None;
      }
      key := KeyFromConfig(w, configPath.value, url.value);
    }

    /**
     * The patched execute_command. For git with a key it runs the command
     * with that key (RunWithKey); otherwise it hands the call to the
     * original unchanged.
     */
    method ExecuteCommand(w: World, run: ProcessRun, executable: string, command: seq<string>,
                          raiseOnFailure: bool := true)
      returns (outcome: ExecOutcome)
      modifies this
      ensures repoPath == if executable == Git then RepoPathAfter(command, old(repoPath)) else old(repoPath)
      ensures executable != Git || KeyForCommand(w, command, old(repoPath)).None? ==>
        outcome == Delegated(executable, command, raiseOnFailure)
      ensures executable == Git && KeyForCommand(w, command, old(repoPath)).Some? ==>
        ExecutedWithKey(w, KeyForCommand(w, command, old(repoPath)).value, command, raiseOnFailure, run, outcome)
    {
      if executable == Git {
        var key := FindPrivateKeyForCommand(w, command);
        if key.Some? {
          outcome := RunWithKey(w, key.value, command, raiseOnFailure, run);
          return;
        }
      }
      return Delegated(executable, command, raiseOnFailure);
    }

    /**
     * The patched capture_command (`capture:` defaults to :merge, `env:` to
     * an empty hash): for git with a key, the caller's environment with
     * GIT_SSH_COMMAND merged in; the rest of the call is passed on
     * unchanged.
     */
    method CaptureCommand<A>(w: World, executable: string, command: seq<string>, capture: string := Merge,
                             env: map<string, string> := map[], kwargs: map<string, A> := map[])
      returns (call: CaptureCall<A>)
      modifies this
      ensures repoPath == if executable == Git then RepoPathAfter(command, old(repoPath)) else old(repoPath)
      ensures call.executable == executable && call.command == command
      ensures call.capture == capture && call.kwargs == kwargs
      ensures call.env ==
        if executable == Git && KeyForCommand(w, command, old(repoPath)).Some?
        then MergeSshEnv(env, KeyForCommand(w, command, old(repoPath)).value)
        else env
    {
      var merged := env;
      if executable == Git {
        var key := FindPrivateKeyForCommand(w, command);
        if key.Some? {
          var sshEnv := map[SshVariable := SshCommand(key.value)];
          merged := env + sshEnv;
        }
      }
      call := CaptureCall(executable, command, capture, merged, kwargs);
    }
  }

  const ExampleUrl := "git@example.com:org/repo.git"

  /** A keys.json that maps one URL to /keys/id_rsa. */
  const ExampleKeys := Parsed(Arr([Obj(map["url" := Str(ExampleUrl), "key_path" := Str("/keys/id_rsa")])]))

  /**
   * With that keys.json in the current directory, cloning the mapped URL
   * into "dest" resolves /keys/id_rsa.
   */
  lemma CloneWithMappedKey(w: World)
    requires KeysFile in w.files && ReadJson(w, KeysFile) == ExampleKeys
    ensures KeyForCommand(w, ["clone", ExampleUrl, "dest"], None) == Some(Str("/keys/id_rsa"))
  {
    var command := ["clone", ExampleUrl, "dest"];
    assert FirstAt(command, "clone", 0);
    assert RepoUrl(w, command) == Some(ExampleUrl);
    assert ConfigPath(w, RepoPathAfter(command, None)) == Some(KeysFile);
    assert IsFirstMatch(ExampleKeys.value.items, ExampleUrl, 0);
    KeyIsFirstMatch(w, command, None, 0);
  }

  /** Cloning a URL that keys.json does not map resolves no key, so the call is delegated unchanged. */
  lemma CloneWithUnmappedUrl(w: World)
    requires KeysFile in w.files && ReadJson(w, KeysFile) == ExampleKeys
    ensures KeyForCommand(w, ["clone", "git@other.com:org/repo.git", "dest"], None) == None
  {
    var command := ["clone", "git@other.com:org/repo.git", "dest"];
    assert FirstAt(command, "clone", 0);
    assert RepoUrl(w, command) == Some("git@other.com:org/repo.git");
    assert ConfigPath(w, RepoPathAfter(command, None)) == Some(KeysFile);
    assert Field(ExampleKeys.value.items[0], "url") != Str("git@other.com:org/repo.git");
    WellFormedLookup(ExampleKeys.value.items, "git@other.com:org/repo.git");
  }

  /** ... and git is spawned with GIT_SSH_COMMAND=ssh -i /keys/id_rsa -o IdentitiesOnly=yes. */
  lemma CloneRunsWithMappedKey(w: World, run: ProcessRun, outcome: ExecOutcome)
    requires Git in w.which
    requires ExecutedWithKey(w, Str("/keys/id_rsa"), ["clone", ExampleUrl, "dest"], false, run, outcome)
    ensures outcome.Returned?
    ensures outcome.spawn.env == map[SshVariable := "ssh -i /keys/id_rsa -o IdentitiesOnly=yes"]
  {
    ExampleSshCommand();
  }

  /** The GIT_SSH_COMMAND value for /keys/id_rsa, spelt out. */
  lemma ExampleSshCommand()
    ensures SshCommand(Str("/keys/id_rsa")) == "ssh -i /keys/id_rsa -o IdentitiesOnly=yes"
  {
    assert KeyText(Str("/keys/id_rsa")) == "/keys/id_rsa";
    assert SshPrefix + "/keys/id_rsa" == "ssh -i /keys/id_rsa";
    assert "ssh -i /keys/id_rsa" + SshOptions == "ssh -i /keys/id_rsa -o IdentitiesOnly=yes";
  }
}
