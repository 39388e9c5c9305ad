/**
 * GitPrivateRepoDownloader, the git downloader CocoaPods uses for pods:
 * `initialize` stores the key for the pod's URL in the shared options
 * hash, and `execute_command` passes that key to every git command as
 * `-c core.sshCommand=...`.
 */
module GitPrivateRepoDownloader {
  import opened Wrappers
  import opened RubyValues
  import opened Host
  import opened KeyMapping
  import ConfigSearch

  /** initialize looks only in the current directory. */
  const KeysFile := ConfigSearch.KeysFile
  /** `options[:private_key_path]`. */
  const PrivateKeyOption := "private_key_path"
  const Git := "git"
  const SshCommandPrefix := "core.sshCommand=ssh -i "

  /** The options hash the downloader is created with and shares with its caller. */
  class OptionsHash {
    var entries: map<string, Value>

    constructor (entries: map<string, Value>)
      ensures this.entries == entries
    {
      this.entries := entries;
    }
  }

  /** `options[:private_key_path]` is truthy. */
  predicate KeyPreset(entries: map<string, Value>) {
    PrivateKeyOption in entries && Truthy(entries[PrivateKeyOption])
  }

  /**
   * The options after initialize: the key of the first entry matching
   * `url` is added when keys.json exists, parses to an array and no key is
   * preset; reading, parsing and the lookup may raise.
   */
  function ConfiguredOptions(w: World, url: string, entries: map<string, Value>): (r: Result<map<string, Value>, RubyError>)
    ensures r.Ok? ==> r.value.Keys <= entries.Keys + {PrivateKeyOption}
    ensures r.Ok? ==> forall k | k in entries && k != PrivateKeyOption :: k in r.value && r.value[k] == entries[k]
    ensures r.Ok? && r.value != entries ==> !KeyPreset(entries) && KeyPreset(r.value)
  {
    if KeysFile !in w.files then Ok(entries)
    else match ReadJson(w, KeysFile)
      case Unparsable(e) => Err(e)
      case Parsed(configs) =>
        if KeyPreset(entries) || !configs.Arr? then Ok(entries)
        else match KeyForUrl(configs.items, url)
          case Err(e) => Err(e)
          case Ok(None) => Ok(entries)
          case Ok(Some(k)) => Ok(entries[PrivateKeyOption := k])
  }

  /** Without ./keys.json the options are left as they are. */
  lemma NoKeysFileLeavesOptions(w: World, url: string, entries: map<string, Value>)
    requires KeysFile !in w.files
    ensures ConfiguredOptions(w, url, entries) == Ok(entries)
  {
  }

  /**
   * A preset key is never overwritten: initialize either leaves the
   * options as they are or raises because keys.json cannot be read or
   * parsed.
   */
  lemma PresetKeyKept(w: World, url: string, entries: map<string, Value>)
    requires KeyPreset(entries)
    ensures ConfiguredOptions(w, url, entries).Ok? ==> ConfiguredOptions(w, url, entries).value == entries
    ensures ConfiguredOptions(w, url, entries).Err? ==> ReadJson(w, KeysFile).Unparsable?
  {
  }

  /** A keys.json that parses to something other than an array leaves the options as they are. */
  lemma NonArrayLeavesOptions(w: World, url: string, entries: map<string, Value>)
    requires KeysFile in w.files && ReadJson(w, KeysFile).Parsed? && !ReadJson(w, KeysFile).value.Arr?
    ensures ConfiguredOptions(w, url, entries) == Ok(entries)
  {
  }

  /**
   * With no key preset and a well-formed keys.json, the options gain the
   * "key_path" of the first entry whose "url" is the pod's URL when that is
   * truthy, and stay as they are otherwise or when no entry matches.
   */
  lemma FirstMatchSetsKey(w: World, url: string, entries: map<string, Value>)
    requires KeysFile in w.files && ReadJson(w, KeysFile).Parsed? && ReadJson(w, KeysFile).value.Arr?
    requires WellFormed(ReadJson(w, KeysFile).value.items) && !KeyPreset(entries)
    ensures var configs := ReadJson(w, KeysFile).value.items;
      forall i | IsFirstMatch(configs, url, i) ::
        var k := Field(configs[i], "key_path");
        ConfiguredOptions(w, url, entries) == Ok(if Truthy(k) then entries[PrivateKeyOption := k] else entries)
    ensures var configs := ReadJson(w, KeysFile).value.items;
      (forall j | 0 <= j < |configs| :: Field(configs[j], "url") != Str(url)) ==>
        ConfiguredOptions(w, url, entries) == Ok(entries)
  {
    WellFormedLookup(ReadJson(w, KeysFile).value.items, url);
  }

  /**
   * The command execute_command hands to the original: for git with a key
   * set, the command followed by `-c core.sshCommand=ssh -i <key>`;
   * otherwise the command unchanged.
   */
  function AugmentedCommand(entries: map<string, Value>, executable: string, command: seq<string>): (r: seq<string>)
    ensures |r| >= |command| && r[..|command|] == command
    ensures executable == Git && KeyPreset(entries) ==>
      r[|command|..] == ["-c", SshCommandPrefix + KeyText(entries[PrivateKeyOption])]
    ensures !(executable == Git && KeyPreset(entries)) ==> r == command
  {
    if executable == Git && KeyPreset(entries) then
      command + ["-c", SshCommandPrefix + KeyText(entries[PrivateKeyOption])]
    else
      command
  }

  /**
   * A downloader created for a URL that keys.json maps to a truthy key,
   * with no key preset, runs every git command with that key.
   */
  lemma MappedUrlRunsWithKey(w: World, url: string, entries: map<string, Value>, i: nat, command: seq<string>)
    requires KeysFile in w.files && ReadJson(w, KeysFile).Parsed? && ReadJson(w, KeysFile).value.Arr?
    requires var configs := ReadJson(w, KeysFile).value.items;
      WellFormed(configs) && IsFirstMatch(configs, url, i) && Truthy(Field(configs[i], "key_path"))
    requires !KeyPreset(entries)
    ensures ConfiguredOptions(w, url, entries).Ok?
    ensures AugmentedCommand(ConfiguredOptions(w, url, entries).value, Git, command) ==
      command + ["-c", SshCommandPrefix + KeyText(Field(ReadJson(w, KeysFile).value.items[i], "key_path"))]
  {
    FirstMatchSetsKey(w, url, entries);
  }

  /** The arguments execute_command passes to the original (Pod::Downloader::Git's). */
  datatype GitCall = GitCall(executable: string, command: seq<string>, raiseOnFailure: bool)

  class Downloader {
    const targetPath: string
    const url: string
    const options: OptionsHash

    /** The part of initialize done by `super(target_path, url, options)`. */
    constructor (targetPath: string, url: string, options: OptionsHash)
      ensures this.targetPath == targetPath && this.url == url && this.options == options
    {
      this.targetPath := targetPath;
      this.url := url;
      this.options := options;
    }

    /**
     * GitPrivateRepoDownloader.new(target_path, url, options): the
     * downloader, with `options` updated in place as ConfiguredOptions
     * says, or the exception initialize raises, with `options` untouched.
     */
    static method New(w: World, targetPath: string, url: string, options: OptionsHash)
      returns (r: Result<Downloader, RubyError>)
      modifies options
      ensures r.Ok? <==> ConfiguredOptions(w, url, old(options.entries)).Ok?
      ensures r.Ok? ==>
        fresh(r.value) && r.value.targetPath == targetPath && r.value.url == url && r.value.options == options
      ensures options.entries ==
        if r.Ok? then ConfiguredOptions(w, url, old(options.entries)).value else old(options.entries)
    {
      var d := new Downloader(targetPath, url, options);
      if KeysFile !in w.files {
        return Ok(d);
      }
      match ReadJson(w, KeysFile) {
        case Unparsable(e) =>
          return Err(e);
        case Parsed(configs) =>
          if !KeyPreset(options.entries) && configs.Arr? {
            var matching := KeyForUrl(configs.items, url);
            if matching.Err? {
              return Err(matching.error);
            }
            if matching.value.Some? {
              options.entries := options.entries[PrivateKeyOption := matching.value.value];
            }
          }
          return Ok(d);
      }
    }

    /** execute_command(executable, command, raise_on_failure = false). */
    function ExecuteCommand(executable: string, command: seq<string>, raiseOnFailure: bool := false): (r: GitCall)
      reads options
      ensures r.executable == executable && r.raiseOnFailure == raiseOnFailure
      ensures r.command == AugmentedCommand(options.entries, executable, command)
    {
      GitCall(executable, AugmentedCommand(options.entries, executable, command), raiseOnFailure)
    }
  }
}
