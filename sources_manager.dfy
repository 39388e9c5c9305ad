/**
 * GitPrivateRepoSourceExtension, prepended to Pod::Source: a spec repo
 * whose remote URL has a key in ./keys.json is queried and updated through
 * a shell command carrying GIT_SSH_COMMAND; any other goes to the original
 * methods.
 */
module CocoapodsSourcesManager {
  import opened Wrappers
  import opened RubyValues
  import RubyStrings
  import opened Host
  import opened KeyMapping
  import ConfigSearch
  import GitPrivateRepoExecutable

  /** The only place find_private_key_for_repo looks: keys.json in the current directory. */
  const KeysFile := ConfigSearch.KeysFile

  const Pull := "pull"
  const Progress := "--progress"

  /** How a repo_git or update_git_repo call ends. */
  datatype SourceGit =
    | Shell(command: string, output: string)               // ran `command` in backticks; its stripped output
    | OriginalRepoGit(args: seq<string>, includeError: bool)
    | OriginalUpdate(showOutput: bool)

  /** get_git_remote_url(repo_path): nil without a path or when git prints nothing. */
  function GitRemoteUrl(w: World, repo: Option<string>): (r: Option<string>)
    ensures repo.None? ==> r.None?
    ensures repo.Some? ==> r == QueryOutput(w, RemoteUrlCommand(repo.value))
  {
    if repo.None? then None else QueryOutput(w, RemoteUrlCommand(repo.value))
  }

  /**
   * find_private_key_for_repo. Unlike the executable hook it rescues
   * nothing: a keys.json that cannot be read or parsed, or an entry that
   * cannot be indexed, raises to the caller.
   */
  function PrivateKeyForRepo(w: World, repo: Option<string>): (r: Result<Option<Value>, RubyError>)
    ensures r.Ok? && r.value.Some? ==> Truthy(r.value.value)
    ensures KeysFile !in w.files ==> r == Ok(None)
    ensures KeysFile in w.files && ReadJson(w, KeysFile).Unparsable? ==> r == Err(ReadJson(w, KeysFile).error)
    ensures KeysFile in w.files && ReadJson(w, KeysFile).Parsed? ==>
      var v := ReadJson(w, KeysFile).value;
      (!v.Arr? || GitRemoteUrl(w, repo).None? ==> r == Ok(None)) &&
      (v.Arr? && GitRemoteUrl(w, repo).Some? ==> r == KeyForUrl(v.items, GitRemoteUrl(w, repo).value))
  {
    if KeysFile !in w.files then Ok(None)
    else match ReadJson(w, KeysFile)
      case Unparsable(e) => Err(e)
      case Parsed(v) =>
        if !v.Arr? then Ok(None)
        else match GitRemoteUrl(w, repo)
          case None => Ok(None)
          case Some(url) => KeyForUrl(v.items, url)
  }

  /**
   * The two lookups disagree on a keys.json that does not parse: the
   * source hook raises, the executable hook quietly finds no key.
   */
  lemma UnparsableKeysFile(w: World, repo: Option<string>, url: string)
    requires KeysFile in w.files && ReadJson(w, KeysFile).Unparsable?
    ensures PrivateKeyForRepo(w, repo).Err?
    ensures GitPrivateRepoExecutable.KeyFromConfig(w, KeysFile, url).None?
  {
  }

  /**
   * On a well-formed keys.json the key is the "key_path" of the first entry
   * whose "url" is the repo's remote URL, when that is truthy.
   */
  lemma RepoKeyIsFirstMatch(w: World, repo: Option<string>, i: nat)
    requires KeysFile in w.files && ReadJson(w, KeysFile).Parsed? && ReadJson(w, KeysFile).value.Arr?
    requires GitRemoteUrl(w, repo).Some?
    requires var configs := ReadJson(w, KeysFile).value.items;
      WellFormed(configs) && IsFirstMatch(configs, GitRemoteUrl(w, repo).value, i)
    ensures var configs := ReadJson(w, KeysFile).value.items;
      PrivateKeyForRepo(w, repo) ==
        Ok(if Truthy(Field(configs[i], "key_path")) then Some(Field(configs[i], "key_path")) else None)
  {
    WellFormedLookup(ReadJson(w, KeysFile).value.items, GitRemoteUrl(w, repo).value);
  }

  /** `"#{repo}"`: a nil repo interpolates as the empty string. */
  function RepoText(repo: Option<string>): string {
    if repo.Some? then repo.value else ""
  }

  /** The start of repo_git's command: `GIT_SSH_COMMAND='<ssh command>' git -C "<repo>" `. */
  function ShellPrefix(key: Value, repo: Option<string>): string {
    "GIT_SSH_COMMAND='" + GitPrivateRepoExecutable.SshCommand(key) + "' git -C \"" + RepoText(repo) + "\" "
  }

  /** ` 2>&1` when the caller wants stderr in the output. */
  function Redirect(includeError: bool): string {
    if includeError then " 2>&1" else ""
  }

  /**
   * repo_git(args, include_error:). With a key it builds the command by
   * appending to the prefix and runs it; without one it calls the original
   * with the same arguments; a failed lookup raises.
   */
  method RepoGit(w: World, repo: Option<string>, args: seq<string>, includeError: bool := false)
    returns (r: Result<SourceGit, RubyError>)
    ensures PrivateKeyForRepo(w, repo).Err? ==> r == Err(PrivateKeyForRepo(w, repo).error)
    ensures PrivateKeyForRepo(w, repo) == Ok(None) ==> r == Ok(OriginalRepoGit(args, includeError))
    ensures PrivateKeyForRepo(w, repo).Ok? && PrivateKeyForRepo(w, repo).value.Some? ==>
      var command := ShellPrefix(PrivateKeyForRepo(w, repo).value.value, repo) +
        RubyStrings.Join(args, " ") + Redirect(includeError);
      r == Ok(Shell(command, RubyStrings.Strip(ShellOutput(w, command))))
  {
    var key := PrivateKeyForRepo(w, repo);
    if key.Err? {
      return Err(key.error);
    }
    if key.value.None? {
      return Ok(OriginalRepoGit(args, includeError));
    }
    var command := ShellPrefix(key.value.value, repo);
    command := command + RubyStrings.Join(args, " ");
    if includeError {
      command := command + " 2>&1";
    }
    assert command == ShellPrefix(key.value.value, repo) + RubyStrings.Join(args, " ") + Redirect(includeError);
    r := Ok(Shell(command, RubyStrings.Strip(ShellOutput(w, command))));
  }

  /**
   * The arguments can be read back from a repo_git command: between the
   * prefix and the redirection they are the space-separated fields, as
   * long as none of them contains a space.
   */
  lemma RepoGitArguments(key: Value, repo: Option<string>, args: seq<string>, includeError: bool)
    requires |args| >= 1 && forall i | 0 <= i < |args| :: ' ' !in args[i]
    ensures var command := ShellPrefix(key, repo) + RubyStrings.Join(args, " ") + Redirect(includeError);
      var start, end := |ShellPrefix(key, repo)|, |command| - |Redirect(includeError)|;
      start <= end && RubyStrings.SplitAt(command[start..end], ' ') == args
  {
    var prefix, joined, redirect := ShellPrefix(key, repo), RubyStrings.Join(args, " "), Redirect(includeError);
    var command := prefix + joined + redirect;
    assert command[|prefix|..|command| - |redirect|] == joined;
    RubyStrings.SplitJoin(args, ' ');
  }

  /**
   * update_git_repo(show_output). With a key it runs `git pull`, with
   * `--progress` exactly when show_output is set, through repo_git;
   * without one it calls the original.
   */
  method UpdateGitRepo(w: World, repo: Option<string>, showOutput: bool := false) returns (r: Result<SourceGit, RubyError>)
    ensures PrivateKeyForRepo(w, repo).Err? ==> r == Err(PrivateKeyForRepo(w, repo).error)
    ensures PrivateKeyForRepo(w, repo) == Ok(None) ==> r == Ok(OriginalUpdate(showOutput))
    ensures PrivateKeyForRepo(w, repo).Ok? && PrivateKeyForRepo(w, repo).value.Some? ==>
      var command := ShellPrefix(PrivateKeyForRepo(w, repo).value.value, repo) +
        Pull + (if showOutput then " " + Progress else "");
      r == Ok(Shell(command, RubyStrings.Strip(ShellOutput(w, command))))
  {
    var key := PrivateKeyForRepo(w, repo);
    if key.Err? {
      return Err(key.error);
    }
    if key.value.None? {
      return Ok(OriginalUpdate(showOutput));
    }
    var command := [Pull];
    if showOutput {
      command := command + [Progress];
    }
    PullCommandText(ShellPrefix(key.value.value, repo), command, showOutput);
    r := RepoGit(w, repo, command);
  }

  /** The command repo_git builds for update_git_repo's arguments. */
  lemma PullCommandText(prefix: string, command: seq<string>, showOutput: bool)
    requires command == if showOutput then [Pull, Progress] else [Pull]
    ensures prefix + RubyStrings.Join(command, " ") + Redirect(false) ==
      prefix + Pull + (if showOutput then " " + Progress else "")
  {
    if showOutput {
      assert command[1..] == [Progress];
    }
  }
}
