/**
 * What the plugin learns from its surroundings, as one value: the file
 * system it probes, the parsed contents of the files it reads, what the
 * shell commands it runs in backticks print, and the executables on the
 * search path.
 */
module Host {
  import opened Wrappers
  import opened RubyValues
  import opened RubyStrings

  /** JSON.parse(File.read(path)): a value, or the exception one of the two raises. */
  datatype JsonFile = Parsed(value: Value) | Unparsable(error: RubyError)

  datatype World = World(
    pwd: string,                        // Dir.pwd
    home: string,                       // the directory `~` expands to
    installationRoot: Option<string>,   // Pod::Config.instance.installation_root, when set
    files: set<string>,                 // the paths File.exist? answers true for
    dirs: set<string>,                  // the paths Dir.exist? and File.directory? answer true for
    documents: map<string, JsonFile>,   // what reading and parsing each path gives
    shell: map<string, string>,         // what each command run in backticks prints
    which: map<string, string>          // the absolute path Executable.which! finds for a name
  )

  /** Reading and parsing `path`; a path with no recorded contents cannot be read. */
  function ReadJson(w: World, path: string): JsonFile {
    if path in w.documents then w.documents[path] else Unparsable(ReadError)
  }

  /** What a command run in backticks prints; nothing for a command with no recorded output. */
  function ShellOutput(w: World, command: string): string {
    if command in w.shell then w.shell[command] else ""
  }

  /** The shell command both hooks use to ask git for the origin URL of the repository at `path`. */
  function RemoteUrlCommand(path: string): string {
    "git -C \"" + path + "\" config --get remote.origin.url"
  }

  /**
   * `` `command`.strip `` treated as an answer: nil when git printed nothing
   * but white space, the stripped text otherwise.
   */
  function QueryOutput(w: World, command: string): (r: Option<string>)
    ensures r.None? <==> AllWhitespace(ShellOutput(w, command))
    ensures r.Some? ==> r.value != [] && Trimmed(r.value)
    ensures r.Some? ==> StripOf(ShellOutput(w, command), r.value)
  {
    var out := Strip(ShellOutput(w, command));
    if out == [] then None else Some(out)
  }
}
