# cocoapods-git-private-repo in Dafny

A model of the CocoaPods plugin cocoapods-git-private-repo. The plugin lets
`pod install` and `pod repo update` reach private git repositories with a
per-repository SSH key. A `keys.json` file maps repository URLs to key
paths. Three hooks consult it:

- the patched `Pod::Executable.execute_command` and `capture_command`.
  They work out the repository URL of a git command, look for `keys.json`
  (in the current directory, next to the Podfile, in its `.cocoapods`
  directory, in `~/.cocoapods`) and run git with
  `GIT_SSH_COMMAND=ssh -i <key> -o IdentitiesOnly=yes`;
- the extension of `Pod::Source`. It asks git for a spec repo's remote URL
  and runs `repo_git` and `update_git_repo` through a shell command that
  carries the key;
- the `GitPrivateRepoDownloader`. It stores the key in its options hash
  when it is created and appends `-c core.sshCommand=ssh -i <key>` to every
  git command.

The file system, the parsed JSON documents, what shell commands print and
the executables on the search path form one value, `Host.World`. The child
process is a `ProcessRun`: the chunks each pipe yields, and whether git
succeeds.

Modules, one per file:

- `Wrappers`: Option and Result.
- `RubyValues`: parsed JSON as Ruby sees it, truthiness, `v[key]`.
- `RubyStrings`: strip, join, index.
- `FilePaths`: `File.dirname` and `File.join` as Ruby computes them on Unix.
- `Host`: the World.
- `KeyMapping`: the first-match lookup shared by the three hooks.
- `PodfileWalk`: the upward Podfile search, as written and corrected.
- `ConfigSearch`: the Podfile and keys.json search orders.
- `LineReader`: the line-splitting reader thread.
- `GitPrivateRepoExecutable`: the `Executable` hooks. A class holds `@repo_path`.
- `CocoapodsSourcesManager`: the `Pod::Source` extension.
- `GitPrivateRepoDownloader`: the downloader. A class holds the shared options hash.

Behaviour of the code worth noting:

- Without a Podfile, find_json_config_path returns nil at once. The home
  directory's keys.json is not tried (`ConfigSearch.NoPodfileOnlyCurrentDirectory`).
- An empty-string key_path is truthy in Ruby and is used as a key. Only nil
  and false count as absent.
- A fetch or pull without `-C` yields no URL. The code does not fall back
  to the current directory here; that fallback exists only inside
  get_origin_url, for a `-C` path that is not a directory.
- A keys.json that cannot be read or parsed is ignored only by the
  executable hook. The source extension and the downloader let the error
  propagate (`CocoapodsSourcesManager.UnparsableKeysFile`,
  `GitPrivateRepoDownloader.PresetKeyKept`).
- The error execute_command raises holds the command line and the output.
  It does not name the key.

## Model

| member | source | states |
|---|---|---|
| RubyValues.Index | lib/cocoapods-git-private-repo/git_private_repo_executable.rb:145 | `v["url"]` is the Hash entry or nil for an object, the key or nil (by substring occurrence) for a String, and raises for every other value |
| RubyStrings.Strip | lib/cocoapods-git-private-repo/git_private_repo_executable.rb:265 | the result is the input with a whitespace-only prefix and suffix cut off, has no strippable character at either end, and is empty exactly when the input is all whitespace |
| RubyStrings.StripDetermined | lib/cocoapods-git-private-repo/git_private_repo_executable.rb:265 | two non-empty strings that are both the input minus whitespace at its ends, with none left at theirs, are equal: Strip's contract fixes its value |
| RubyStrings.SplitJoin | lib/cocoapods-git-private-repo/cocoapods_sources_manager.rb:10 | space-joined arguments split back into the same arguments when none contains a space |
| RubyStrings.IndexOf | lib/cocoapods-git-private-repo/git_private_repo_executable.rb:224 | `Array#index` answers the first position holding the element, nil when there is none |
| FilePaths.DirnameOfAbsolute | lib/cocoapods-git-private-repo/git_private_repo_executable.rb:203 | File.dirname of an absolute path is absolute, "/" for "/", and strictly shorter otherwise |
| FilePaths.DirnameOfRelative | lib/cocoapods-git-private-repo/git_private_repo_executable.rb:208 | File.dirname of a relative path is "." or a shorter relative path |
| FilePaths.DirnameProgress | lib/cocoapods-git-private-repo/git_private_repo_executable.rb:199-213 | every path other than "/" and "." moves under File.dirname to "/", "." or a shorter path, so the walks end |
| FilePaths.DirnameFixedPoints | lib/cocoapods-git-private-repo/git_private_repo_executable.rb:208-212 | File.dirname leaves "/" and "." unchanged |
| FilePaths.FirstExisting | lib/cocoapods-git-private-repo/git_private_repo_executable.rb:160-183 | a chain of File.exist? checks returns the first existing path, nil exactly when none exists |
| Host.QueryOutput | lib/cocoapods-git-private-repo/git_private_repo_executable.rb:265-267 | a backtick answer is nil exactly when the output is all whitespace, otherwise the output with its leading and trailing whitespace cut off, non-empty |
| KeyMapping.FindByUrl | lib/cocoapods-git-private-repo/git_private_repo_executable.rb:145 | `configs.find` on `config["url"] == url`: the first entry whose url equals, none when every entry differs, or the error of the first entry that cannot be indexed |
| KeyMapping.KeyForUrl | lib/cocoapods-git-private-repo/git_private_repo_executable.rb:145-147 | a key is only ever returned when it is truthy |
| KeyMapping.WellFormedLookup | lib/cocoapods-git-private-repo/git_private_repo_executable.rb:144-147 | on an array of objects the lookup never raises, gives the first match's truthy key_path, and nothing when no entry matches; later matches are never used |
| PodfileWalk.WalkFrom | lib/cocoapods-git-private-repo/git_private_repo_executable.rb:199-204 | the walk returns only existing Podfiles; it checks `<dir>/Podfile` at every directory before "/", "." included |
| PodfileWalk.WalkFindsFirstPodfile | lib/cocoapods-git-private-repo/git_private_repo_executable.rb:200-204 | the walk returns the first existing `<dir>/Podfile` among the visited directories |
| PodfileWalk.AncestorsOfAbsolute | lib/cocoapods-git-private-repo/git_private_repo_executable.rb:199-203 | from an absolute directory every visited directory is absolute |
| PodfileWalk.NeverChecksRootPodfile | lib/cocoapods-git-private-repo/git_private_repo_executable.rb:200-202 | "/Podfile" is never checked |
| PodfileWalk.AsWrittenWalkStaysAtDot | lib/cocoapods-git-private-repo/git_private_repo_executable.rb:209-212 | the loop as written makes no progress at "." when there is no "./Podfile" |
| PodfileWalk.RelativeCloneDestinationHangs | lib/cocoapods-git-private-repo/git_private_repo_executable.rb:207-213 | a relative clone destination starts the loop at "." and the loop as written never ends |
| PodfileWalk.WalkAgreesOnAbsolute | lib/cocoapods-git-private-repo/git_private_repo_executable.rb:200-204 | from an absolute directory the loop as written ends within as many steps as the path has characters with the corrected walk's answer |
| PodfileWalk.WalkAgreesWhereItEnds | lib/cocoapods-git-private-repo/git_private_repo_executable.rb:200-213 | whenever the loop as written ends, from any directory, it returns what the corrected walk returns |
| ConfigSearch.PodfilePath | lib/cocoapods-git-private-repo/git_private_repo_executable.rb:187-217 | find_podfile_path only returns a Podfile that exists |
| ConfigSearch.PodfileSearchOrder | lib/cocoapods-git-private-repo/git_private_repo_executable.rb:187-217 | the installation root's Podfile, then the walk from Dir.pwd, then the walk from the parent of @repo_path: the first existing candidate in that order |
| ConfigSearch.ConfigCandidates | lib/cocoapods-git-private-repo/git_private_repo_executable.rb:160-180 | the keys.json search always starts with ./keys.json, and consists of it alone when there is no Podfile |
| ConfigSearch.ConfigPath | lib/cocoapods-git-private-repo/git_private_repo_executable.rb:158-184 | find_json_config_path only returns a file that exists |
| ConfigSearch.ConfigSearchOrder | lib/cocoapods-git-private-repo/git_private_repo_executable.rb:158-184 | keys.json, <podfile dir>/keys.json, <podfile dir>/.cocoapods/keys.json (when that directory exists), ~/.cocoapods/keys.json: the first existing candidate in that order |
| ConfigSearch.NoPodfileOnlyCurrentDirectory | lib/cocoapods-git-private-repo/git_private_repo_executable.rb:160-164 | without a Podfile only ./keys.json is consulted; the home keys.json is ignored even when it exists |
| LineReader.Partition | lib/cocoapods-git-private-repo/git_private_repo_executable.rb:282 | `partition(/[\r\n]/)`: the three parts make up the buffer, the first holds no separator, the middle is empty exactly when there is no separator and is otherwise one separator |
| LineReader.Remainder | lib/cocoapods-git-private-repo/git_private_repo_executable.rb:291 | what is left at end of file is the longest suffix of the text without a separator: it holds none, and the character before it is a separator |
| LineReader.RemainderEmpty | lib/cocoapods-git-private-repo/git_private_repo_executable.rb:291 | nothing is left at end of file exactly when the text is empty or ends in a separator |
| LineReader.Collected | lib/cocoapods-git-private-repo/git_private_repo_executable.rb:59-61 | the joined pieces are the stream's text, with one `$/` added exactly when the text is non-empty and does not end in a separator |
| LineReader.LinesShape | lib/cocoapods-git-private-repo/git_private_repo_executable.rb:281-288 | every piece handed on holds exactly one separator, at its end |
| LineReader.LinesConcat | lib/cocoapods-git-private-repo/git_private_repo_executable.rb:277-291 | the pieces put together are the text read, plus `$/` exactly when text remains after the last separator |
| LineReader.HandOnLines | lib/cocoapods-git-private-repo/git_private_repo_executable.rb:281-288 | the inner loop hands on the complete lines, keeps a buffer without separators, and changes nothing in what the stream yields |
| LineReader.Reader | lib/cocoapods-git-private-repo/git_private_repo_executable.rb:275-294 | whatever chunks the pipe is cut into, the reader hands on the pieces of their concatenation |
| GitPrivateRepoExecutable.SshCommandHoldsKey | lib/cocoapods-git-private-repo/git_private_repo_executable.rb:35 | the GIT_SSH_COMMAND value is `ssh -i ` + key + ` -o IdentitiesOnly=yes`; different keys give different values |
| GitPrivateRepoExecutable.ArgumentAfter | lib/cocoapods-git-private-repo/git_private_repo_executable.rb:224-225 | `command[command.index(x) + k]` when that position exists, the fallback otherwise |
| GitPrivateRepoExecutable.OriginUrl | lib/cocoapods-git-private-repo/git_private_repo_executable.rb:254-272 | git is asked about `path` when it is a directory and about the current directory otherwise |
| GitPrivateRepoExecutable.RepoUrl | lib/cocoapods-git-private-repo/git_private_repo_executable.rb:220-251 | clone: the element after the first "clone" (clone wins over fetch/pull); fetch/pull: the origin URL of the element after the first "-C", none without one; anything else: none |
| GitPrivateRepoExecutable.RepoPathAfter | lib/cocoapods-git-private-repo/git_private_repo_executable.rb:228-230 | @repo_path becomes the element two after the first "clone" when it exists and is otherwise unchanged |
| GitPrivateRepoExecutable.KeyFromConfig | lib/cocoapods-git-private-repo/git_private_repo_executable.rb:138-153 | an unreadable or unparsable file, a non-array document and a lookup that raises all give nil; a returned key is truthy |
| GitPrivateRepoExecutable.KeyForCommand | lib/cocoapods-git-private-repo/git_private_repo_executable.rb:129-154 | no URL or no keys.json gives nil; otherwise the key the first existing keys.json gives for the URL; never raises |
| GitPrivateRepoExecutable.KeyIsFirstMatch | lib/cocoapods-git-private-repo/git_private_repo_executable.rb:144-147 | the key is the truthy key_path of the first entry whose url is the command's URL, nil when that key_path is falsy |
| GitPrivateRepoExecutable.MergeSshEnv | lib/cocoapods-git-private-repo/git_private_repo_executable.rb:91-95 | GIT_SSH_COMMAND is set, overriding the caller's, and every other entry is kept |
| GitPrivateRepoExecutable.RunWithKey | lib/cocoapods-git-private-repo/git_private_repo_executable.rb:21-71 | git is spawned through which! with only GIT_SSH_COMMAND added and the arguments unchanged; output is stdout then stderr as the readers collect them; failure raises with "<full command>\n\n<output>" exactly when raise_on_failure |
| GitPrivateRepoExecutable.Executable.ExtractRepoUrl | lib/cocoapods-git-private-repo/git_private_repo_executable.rb:220-251 | returns RepoUrl and updates @repo_path as RepoPathAfter says |
| GitPrivateRepoExecutable.Executable.FindPodfilePath | lib/cocoapods-git-private-repo/git_private_repo_executable.rb:187-217 | the loops return what PodfilePath specifies; each checks `<dir>/Podfile` at "." before stopping there |
| GitPrivateRepoExecutable.Executable.FindJsonConfigPath | lib/cocoapods-git-private-repo/git_private_repo_executable.rb:158-184 | returns what ConfigPath specifies |
| GitPrivateRepoExecutable.Executable.FindPrivateKeyForCommand | lib/cocoapods-git-private-repo/git_private_repo_executable.rb:129-154 | returns KeyForCommand for the @repo_path it started with and records a clone's destination |
| GitPrivateRepoExecutable.Executable.ExecuteCommand | lib/cocoapods-git-private-repo/git_private_repo_executable.rb:12-78 | a non-git executable, or git without a key, is delegated unchanged with raise_on_failure (true by default); git with a key runs as RunWithKey says; @repo_path changes only for git |
| GitPrivateRepoExecutable.Executable.CaptureCommand | lib/cocoapods-git-private-repo/git_private_repo_executable.rb:81-103 | for git with a key the caller's env (empty by default) gets GIT_SSH_COMMAND merged in; otherwise env is passed on as given; executable, command, `capture:` (:merge by default) and the other keyword arguments pass through unchanged |
| GitPrivateRepoExecutable.CloneWithMappedKey | lib/cocoapods-git-private-repo/git_private_repo_executable.rb:222-232 | with the one-entry keys.json, `clone git@example.com:org/repo.git dest` resolves /keys/id_rsa |
| GitPrivateRepoExecutable.CloneWithUnmappedUrl | lib/cocoapods-git-private-repo/git_private_repo_executable.rb:144-153 | with the same keys.json, cloning git@other.com:org/repo.git resolves no key |
| GitPrivateRepoExecutable.CloneRunsWithMappedKey | lib/cocoapods-git-private-repo/git_private_repo_executable.rb:35-43 | that clone spawns git with exactly GIT_SSH_COMMAND=ssh -i /keys/id_rsa -o IdentitiesOnly=yes |
| GitPrivateRepoExecutable.ExampleSshCommand | lib/cocoapods-git-private-repo/git_private_repo_executable.rb:35 | the GIT_SSH_COMMAND value for /keys/id_rsa, spelt out |
| CocoapodsSourcesManager.GitRemoteUrl | lib/cocoapods-git-private-repo/cocoapods_sources_manager.rb:55-62 | nil without a path; otherwise git's stripped answer, nil when it is empty |
| CocoapodsSourcesManager.PrivateKeyForRepo | lib/cocoapods-git-private-repo/cocoapods_sources_manager.rb:34-52 | nil without ./keys.json, for a non-array document or without a remote URL; the parse error propagates; otherwise the lookup's answer, truthy when present |
| CocoapodsSourcesManager.UnparsableKeysFile | lib/cocoapods-git-private-repo/cocoapods_sources_manager.rb:39 | an unparsable keys.json raises here, while the executable hook finds no key |
| CocoapodsSourcesManager.RepoKeyIsFirstMatch | lib/cocoapods-git-private-repo/cocoapods_sources_manager.rb:47-48 | on a well-formed keys.json the key is the truthy key_path of the first entry whose url is the remote URL |
| CocoapodsSourcesManager.RepoGit | lib/cocoapods-git-private-repo/cocoapods_sources_manager.rb:6-18 | with a key: `GIT_SSH_COMMAND='ssh -i <key> -o IdentitiesOnly=yes' git -C "<repo>" ` + args joined by spaces + ` 2>&1` exactly when include_error (false by default), run and stripped; without one the original with the same arguments; a lookup error raises |
| CocoapodsSourcesManager.RepoGitArguments | lib/cocoapods-git-private-repo/cocoapods_sources_manager.rb:10 | the arguments can be read back from the command between the prefix and the redirection |
| CocoapodsSourcesManager.UpdateGitRepo | lib/cocoapods-git-private-repo/cocoapods_sources_manager.rb:20-30 | with a key, the result is repo_git's: `GIT_SSH_COMMAND='ssh -i <key> -o IdentitiesOnly=yes' git -C "<repo>" pull`, followed by ` --progress` exactly when show_output (false by default), run and stripped; without one the original is called with show_output; a lookup error raises |
| CocoapodsSourcesManager.PullCommandText | lib/cocoapods-git-private-repo/cocoapods_sources_manager.rb:23-25 | the command text repo_git builds for `['pull']` and `['pull', '--progress']` |
| GitPrivateRepoDownloader.ConfiguredOptions | lib/cocoapods-git-private-repo/git_private_repo_downloader.rb:13-26 | initialize only ever adds private_key_path, keeps every other option, and changes the options only when no key was preset |
| GitPrivateRepoDownloader.NoKeysFileLeavesOptions | lib/cocoapods-git-private-repo/git_private_repo_downloader.rb:13 | without ./keys.json the options are unchanged |
| GitPrivateRepoDownloader.PresetKeyKept | lib/cocoapods-git-private-repo/git_private_repo_downloader.rb:20 | a preset private_key_path is never overwritten; the only failure is an unreadable or unparsable keys.json |
| GitPrivateRepoDownloader.NonArrayLeavesOptions | lib/cocoapods-git-private-repo/git_private_repo_downloader.rb:20 | a non-array keys.json leaves the options unchanged |
| GitPrivateRepoDownloader.FirstMatchSetsKey | lib/cocoapods-git-private-repo/git_private_repo_downloader.rb:20-25 | with no preset key, private_key_path becomes the truthy key_path of the first entry whose url is the pod URL; unchanged otherwise |
| GitPrivateRepoDownloader.AugmentedCommand | lib/cocoapods-git-private-repo/git_private_repo_downloader.rb:34-38 | the command is a prefix of the result; exactly `-c core.sshCommand=ssh -i <key>` is appended for git with a key set, nothing otherwise |
| GitPrivateRepoDownloader.MappedUrlRunsWithKey | lib/cocoapods-git-private-repo/git_private_repo_downloader.rb:20-38 | a downloader for a mapped URL runs every git command with that key appended |
| GitPrivateRepoDownloader.Downloader.New | lib/cocoapods-git-private-repo/git_private_repo_downloader.rb:4-28 | the options are updated in place as ConfiguredOptions says, or left untouched when initialize raises |
| GitPrivateRepoDownloader.Downloader.ExecuteCommand | lib/cocoapods-git-private-repo/git_private_repo_downloader.rb:30-41 | super receives the executable, the augmented command and raise_on_failure (false by default) |

## Left out

- Process spawning, the reader threads, `t.value`, `sleep` and the pipes: `ProcessRun` stands for the child. Each stream is read by `LineReader.Reader` on its own, sequentially, so interleaving between the two streams is not modelled.
- `readpartial`'s 4096-byte limit and string encodings: a chunk is any string.
- `UI.message`, `UI.warn`, `puts`, `Indenter` and the verbose flag: logging only.
- `capture_command!`: its failure path calls `enhance_ssh_error_message`, which is not part of this model because no file defines it.
- `cocoapods-downloader.rb`, `alias_method`, `Source.prepend`: the wiring that installs the hooks. The original implementations are represented by the outcome values `Delegated`, `OriginalRepoGit`, `OriginalUpdate`, `CaptureCall` and `GitCall`.
- `Executable.which!`: looked up in `World.which`. A missing git gives `NotFound`, and the message which! raises is not modelled.
- Shell commands in backticks: their output is looked up in `World.shell`. A command with no recorded output prints nothing.
- `File.expand_path('~/.cocoapods/keys.json')`: modelled as `<home>/.cocoapods/keys.json`, without further normalisation.
- `RubyValues.KeyText`: an array or object used as a key path is interpolated by Ruby with `inspect`; the model renders it as "".
- `command.map(&:to_s)` and symbol option keys: command elements and option keys are strings from the start.
- `executable.to_s == 'git'`: executables are strings, so the Symbol `:git` is represented by "git", and what the original receives does not record whether a Symbol was passed.
- The symbols `capture:` takes and the keys of `**kwargs` are represented by their names as strings.
- The rescue around `Pod::Config` in find_podfile_path: the installation root is an optional input, and an exception there is the same as no root.
- JSON parsing: a document is either a parsed `Value` or an error.
- `GitPrivateRepoExecutable.Executable.FindPodfilePath`: both walks check `./Podfile` at "." and then stop, where the loops as written go on at "." for ever. Wherever the loops as written end, they return the same answer (`PodfileWalk.WalkAgreesWhereItEnds`). From an absolute directory they always end (`PodfileWalk.WalkAgreesOnAbsolute`), so for the usual absolute Dir.pwd the first walk is the loop as written. `World.pwd` is not required to be absolute, and from a relative one the difference is the correction listed under Findings.

## Findings

| source | as written | input that shows it | evidently intended | confidence | as-written member | corrected member |
|---|---|---|---|---|---|---|
| lib/cocoapods-git-private-repo/git_private_repo_executable.rb:207-213 | `while current_dir != '/'` over `File.dirname(@repo_path)`; a relative path reaches ".", and `File.dirname(".")` is "." | `git clone <url> dest`: @repo_path "dest", no Podfile found from Dir.pwd and no "./Podfile"; the loop never ends | check "./Podfile" at "." and then stop, returning nil when it does not exist | not executed | PodfileWalk.RelativeCloneDestinationHangs | PodfileWalk.WalkFindsFirstPodfile |
