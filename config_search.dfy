/**
 * find_podfile_path and find_json_config_path: where the plugin looks for
 * the Podfile, and from there for keys.json, over the existence checks of
 * a World.
 */
module ConfigSearch {
  import opened Wrappers
  import opened Host
  import opened FilePaths
  import opened PodfileWalk

  const KeysFile := "keys.json"
  const CocoapodsDir := ".cocoapods"

  /** File.expand_path('~/.cocoapods/keys.json'). */
  function HomeConfig(w: World): string {
    w.home + "/" + CocoapodsDir + "/" + KeysFile
  }

  /** `<installation_root>/Podfile`, when CocoaPods knows its installation root. */
  function RootPodfile(w: World): seq<string> {
    if w.installationRoot.Some? then [Join(w.installationRoot.value, PodfileName)] else []
  }

  /** The directories whose Podfile the repo walk checks: the parents of @repo_path, when it is set. */
  function RepoAncestors(repoPath: Option<string>): seq<string> {
    if repoPath.Some? then Ancestors(Dirname(repoPath.value)) else []
  }

  /**
   * find_podfile_path: the installation root's Podfile, else the first
   * Podfile walking up from Dir.pwd, else the first walking up from the
   * parent of @repo_path. Both walks stop before "/", or after "./Podfile"
   * once they reach "." (see PodfileWalk.WalkFrom for why "." is needed).
   */
  function PodfilePath(w: World, repoPath: Option<string>): (r: Option<string>)
    ensures r.Some? ==> r.value in w.files
  {
    if w.installationRoot.Some? && Join(w.installationRoot.value, PodfileName) in w.files then
      Some(Join(w.installationRoot.value, PodfileName))
    else if WalkFrom(w.pwd, w.files).Some? then
      WalkFrom(w.pwd, w.files)
    else if repoPath.Some? then
      WalkFrom(Dirname(repoPath.value), w.files)
    else
      None
  }

  /** Every Podfile path find_podfile_path may check, in the order it checks them. */
  function PodfileCandidates(w: World, repoPath: Option<string>): seq<string> {
    RootPodfile(w) + Podfiles(Ancestors(w.pwd)) + Podfiles(RepoAncestors(repoPath))
  }

  /** The first existing path of a concatenation is the first of the front part, if any, else of the back. */
  lemma {:induction false} FirstExistingAppend(a: seq<string>, b: seq<string>, files: set<string>)
    ensures FirstExisting(a + b, files) ==
      if FirstExisting(a, files).Some? then FirstExisting(a, files) else FirstExisting(b, files)
  {
    if a == [] {
      assert a + b == b;
    } else {
      assert (a + b)[1..] == a[1..] + b;
      FirstExistingAppend(a[1..], b, files);
    }
  }

  /** find_podfile_path returns the first existing candidate, in the order of PodfileCandidates. */
  lemma PodfileSearchOrder(w: World, repoPath: Option<string>)
    ensures PodfilePath(w, repoPath) == FirstExisting(PodfileCandidates(w, repoPath), w.files)
  {
    var root, fromPwd, fromRepo := RootPodfile(w), Podfiles(Ancestors(w.pwd)), Podfiles(RepoAncestors(repoPath));
    FirstExistingAppend(root + fromPwd, fromRepo, w.files);
    FirstExistingAppend(root, fromPwd, w.files);
    WalkFindsFirstPodfile(w.pwd, w.files);
    if repoPath.Some? {
      WalkFindsFirstPodfile(Dirname(repoPath.value), w.files);
    }
  }

  /**
   * The keys.json paths find_json_config_path checks once it has a Podfile:
   * next to it, in the .cocoapods directory beside it (only when that
   * directory exists), then in the home directory.
   */
  function ConfigCandidates(w: World, podfile: Option<string>): (r: seq<string>)
    ensures r != [] && r[0] == KeysFile
    ensures podfile.None? ==> r == [KeysFile]
  {
    if podfile.None? then [KeysFile]
    else
      var dir := Dirname(podfile.value);
      var cocoapods := Join(dir, CocoapodsDir);
      [KeysFile, Join(dir, KeysFile)] +
      (if cocoapods in w.dirs then [Join(cocoapods, KeysFile)] else []) +
      [HomeConfig(w)]
  }

  /**
   * find_json_config_path: `keys.json` in the current directory; otherwise,
   * once a Podfile is found, `<dir>/keys.json`, `<dir>/.cocoapods/keys.json`
   * (if that directory exists) and `~/.cocoapods/keys.json`; nil as soon as
   * there is no Podfile.
   */
  function ConfigPath(w: World, repoPath: Option<string>): (r: Option<string>)
    ensures r.Some? ==> r.value in w.files
  {
    if KeysFile in w.files then Some(KeysFile)
    else match PodfilePath(w, repoPath)
      case None => None
      case Some(podfile) =>
        var dir := Dirname(podfile);
        var cocoapods := Join(dir, CocoapodsDir);
        if Join(dir, KeysFile) in w.files then Some(Join(dir, KeysFile))
        else if cocoapods in w.dirs && Join(cocoapods, KeysFile) in w.files then Some(Join(cocoapods, KeysFile))
        else if HomeConfig(w) in w.files then Some(HomeConfig(w))
        else None
  }

  /** find_json_config_path returns the first existing candidate, in the order of ConfigCandidates. */
  lemma ConfigSearchOrder(w: World, repoPath: Option<string>)
    ensures ConfigPath(w, repoPath) == FirstExisting(ConfigCandidates(w, PodfilePath(w, repoPath)), w.files)
  {
    var podfile := PodfilePath(w, repoPath);
    if podfile.Some? {
      var dir := Dirname(podfile.value);
      var cocoapods := Join(dir, CocoapodsDir);
      var c := ConfigCandidates(w, podfile);
      var tail := [HomeConfig(w)];
      var mid := if cocoapods in w.dirs then [Join(cocoapods, KeysFile)] else [];
      FirstExistingAppend([KeysFile, Join(dir, KeysFile)] + mid, tail, w.files);
      FirstExistingAppend([KeysFile, Join(dir, KeysFile)], mid, w.files);
    }
  }

  /**
   * Without a Podfile only `./keys.json` is consulted: the home directory's
   * keys.json is not, even when it exists.
   */
  lemma NoPodfileOnlyCurrentDirectory(w: World, repoPath: Option<string>)
    requires PodfilePath(w, repoPath).None?
    ensures ConfigPath(w, repoPath) == (if KeysFile in w.files then Some(KeysFile) else None)
    ensures KeysFile !in w.files && HomeConfig(w) in w.files ==> ConfigPath(w, repoPath).None?
  {
  }
}
