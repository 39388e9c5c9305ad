/**
 * File.dirname and File.join as Ruby computes them on a Unix host, where
 * '/' is the only separator.
 */
module FilePaths {
  import opened Wrappers

  predicate IsAbsolute(p: string) {
    |p| > 0 && p[0] == '/'
  }

  /** The number of separators `p` starts with. */
  function LeadingSeparators(p: string): (k: nat)
    ensures k <= |p|
    ensures k > 0 <==> IsAbsolute(p)
    ensures k > 0 ==> p[k - 1] == '/'
  {
    if p != [] && p[0] == '/' then 1 + LeadingSeparators(p[1..]) else 0
  }

  /** The end of p[lo..e] once its trailing separators are dropped. */
  function TrimEnd(p: string, lo: nat, e: nat): (r: nat)
    requires lo <= e <= |p|
    ensures lo <= r <= e
    decreases e
  {
    if e > lo && p[e - 1] == '/' then TrimEnd(p, lo, e - 1) else e
  }

  /** The start of the last path component of p[lo..c]. */
  function ComponentStart(p: string, lo: nat, c: nat): (r: nat)
    requires lo <= c <= |p|
    ensures lo <= r <= c
    ensures r == lo || p[r - 1] == '/'
    decreases c
  {
    if c > lo && p[c - 1] != '/' then ComponentStart(p, lo, c - 1) else c
  }

  /** The start of the run of separators in p[lo..c] that ends at c. */
  function RunStart(p: string, lo: nat, c: nat): (r: nat)
    requires lo <= c <= |p|
    ensures lo <= r <= c
    ensures c > lo && p[c - 1] == '/' ==> r < c
    decreases c
  {
    if c > lo && p[c - 1] == '/' then RunStart(p, lo, c - 1) else c
  }

  /**
   * Where Ruby's `strrdirsep` leaves off when it scans p[root..]: the start
   * of the last run of separators that a non-separator follows, or `root`
   * when there is none.
   */
  function LastDirSeparator(p: string, root: nat): (r: nat)
    requires root <= |p|
    ensures root <= r <= |p|
    ensures r == root || r < |p|
  {
    RunStart(p, root, ComponentStart(p, root, TrimEnd(p, root, |p|)))
  }

  /**
   * File.dirname(p): everything before the last component, without the
   * separators in front of it; "." when nothing is left of a relative path.
   * Two or more leading separators count as one.
   */
  function Dirname(p: string): string {
    var root := LeadingSeparators(p);
    var start := if root > 1 then root - 1 else 0;
    var q := LastDirSeparator(p, root);
    if q == start then "." else p[start..q]
  }

  /** File.join(dir, name) for a `name` that does not start with a separator. */
  function Join(dir: string, name: string): (r: string)
    ensures |r| > |name| && r[|r| - |name|..] == name
  {
    if dir != [] && dir[|dir| - 1] == '/' then dir + name else dir + "/" + name
  }

  /** The directory of an absolute path is absolute, and shorter unless the path is "/". */
  lemma DirnameOfAbsolute(p: string)
    requires IsAbsolute(p)
    ensures IsAbsolute(Dirname(p))
    ensures p == "/" ==> Dirname(p) == "/"
    ensures p != "/" ==> |Dirname(p)| < |p|
  {
    var root := LeadingSeparators(p);
    var q := LastDirSeparator(p, root);
    if p != "/" && root == 1 {
      assert |p| > 1;
    }
  }

  /** The directory of a relative path is relative: "." or a shorter path. */
  lemma DirnameOfRelative(p: string)
    requires !IsAbsolute(p)
    ensures !IsAbsolute(Dirname(p))
    ensures Dirname(p) == "." || (Dirname(p) != [] && |Dirname(p)| < |p|)
  {
  }

  /**
   * Every path other than "/" and "." moves towards one of them under
   * Dirname: either it lands on "." or it gets shorter.
   */
  lemma DirnameProgress(p: string)
    requires p != "/" && p != "."
    ensures Dirname(p) != []
    ensures Dirname(p) == "." || Dirname(p) == "/" || |Dirname(p)| < |p|
  {
    if IsAbsolute(p) {
      DirnameOfAbsolute(p);
    } else {
      DirnameOfRelative(p);
    }
  }

  /** "/" and "." are the fixed points of Dirname. */
  lemma DirnameFixedPoints()
    ensures Dirname("/") == "/"
    ensures Dirname(".") == "."
  {
    assert LeadingSeparators("/") == 1;
    assert LeadingSeparators(".") == 0;
  }

  /** The first of `paths` that exists, as a chain of File.exist? checks returns it. */
  function FirstExisting(paths: seq<string>, files: set<string>): (r: Option<string>)
    ensures r.None? <==> forall i | 0 <= i < |paths| :: paths[i] !in files
    ensures r.Some? ==> exists i | 0 <= i < |paths| ::
      r.value == paths[i] && r.value in files && forall j | 0 <= j < i :: paths[j] !in files
  {
    if paths == [] then None
    else if paths[0] in files then Some(paths[0])
    else
      var r := FirstExisting(paths[1..], files);
      assert r.Some? ==> exists i | 0 <= i < |paths| ::
        r.value == paths[i] && r.value in files && forall j | 0 <= j < i :: paths[j] !in files by {
        if r.Some? {
          var i :| 0 <= i < |paths| - 1 && r.value == paths[1..][i] && r.value in files &&
            forall j | 0 <= j < i :: paths[1..][j] !in files;
          assert forall j | 0 <= j < i + 1 :: paths[j] !in files by {
            forall j | 0 <= j < i + 1 ensures paths[j] !in files {
              if j > 0 { assert paths[j] == paths[1..][j - 1]; }
            }
          }
        }
      }
      r
  }
}
