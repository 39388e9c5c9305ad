/**
 * The upward search for a Podfile in find_podfile_path: from a directory,
 * check `<dir>/Podfile`, then move to File.dirname(dir), until the root
 * (or, for a relative path, until "." has been checked).
 */
module PodfileWalk {
  import opened Wrappers
  import opened FilePaths

  const PodfileName := "Podfile"

  /**
   * The directories the walk visits from `dir`: dir, its parent, its
   * grandparent, ..., stopping before "/" (an absolute path) or after "."
   * (a relative one), the two places File.dirname cannot leave.
   */
  function Ancestors(dir: string): (r: seq<string>)
    ensures forall a | a in r :: a != "/"
    ensures dir != "/" ==> r != [] && r[0] == dir
    ensures forall i | 0 <= i < |r| - 1 :: r[i] != "."
    decreases if dir == "/" || dir == "." then 0 else |dir| + 1
  {
    if dir == "/" then []
    else if dir == "." then ["."]
    else
      DirnameProgress(dir);
      [dir] + Ancestors(Dirname(dir))
  }

  /** `<dir>/Podfile` for each directory, in order. */
  function Podfiles(dirs: seq<string>): (r: seq<string>)
    ensures |r| == |dirs|
    ensures forall i | 0 <= i < |dirs| :: r[i] == Join(dirs[i], PodfileName)
  {
    if dirs == [] then [] else [Join(dirs[0], PodfileName)] + Podfiles(dirs[1..])
  }

  /**
   * The Podfile the walk returns when it starts in `dir`: the first
   * `<d>/Podfile` that exists for d = dir, its parent, ..., stopping before
   * "/", or after checking "./Podfile" when the walk reaches ".".
   */
  function WalkFrom(dir: string, files: set<string>): (r: Option<string>)
    ensures r.Some? ==> r.value in files
    decreases if dir == "/" || dir == "." then 0 else |dir| + 1
  {
    if dir == "/" then None
    else if Join(dir, PodfileName) in files then Some(Join(dir, PodfileName))
    else if dir == "." then None
    else
      DirnameProgress(dir);
      WalkFrom(Dirname(dir), files)
  }

  /** The walk returns the first existing Podfile among the directories it visits. */
  lemma {:induction false} WalkFindsFirstPodfile(dir: string, files: set<string>)
    ensures WalkFrom(dir, files) == FirstExisting(Podfiles(Ancestors(dir)), files)
    decreases if dir == "/" || dir == "." then 0 else |dir| + 1
  {
    if dir == "." {
      assert Podfiles(Ancestors(dir)) == [Join(dir, PodfileName)];
    } else if dir != "/" {
      DirnameProgress(dir);
      var rest := Podfiles(Ancestors(Dirname(dir)));
      assert Podfiles(Ancestors(dir)) == [Join(dir, PodfileName)] + rest;
      assert (Podfiles(Ancestors(dir)))[1..] == rest;
      WalkFindsFirstPodfile(Dirname(dir), files);
    }
  }

  /** Starting from an absolute path, every directory visited is absolute. */
  lemma {:induction false} AncestorsOfAbsolute(dir: string)
    requires IsAbsolute(dir)
    ensures forall a | a in Ancestors(dir) :: IsAbsolute(a)
    decreases |dir|
  {
    if dir != "/" {
      DirnameOfAbsolute(dir);
      AncestorsOfAbsolute(Dirname(dir));
    }
  }

  /**
   * The walk never checks "/Podfile": it stops before "/", and starting
   * anywhere but "" it never reaches a directory that joins to "/Podfile".
   */
  lemma {:induction false} NeverChecksRootPodfile(dir: string)
    requires dir != []
    ensures "/" + PodfileName !in Podfiles(Ancestors(dir))
    decreases if dir == "/" || dir == "." then 0 else |dir| + 1
  {
    if dir == "." {
      assert Podfiles(Ancestors(dir)) == [Join(dir, PodfileName)];
      assert Join(dir, PodfileName)[0] == '.';
    } else if dir != "/" {
      DirnameProgress(dir);
      var j := Join(dir, PodfileName);
      NeverChecksRootPodfile(Dirname(dir));
      assert Podfiles(Ancestors(dir)) == [j] + Podfiles(Ancestors(Dirname(dir)));
    }
  }

  /**
   * The walk exactly as find_podfile_path writes it (`while current_dir !=
   * '/'`), run for at most `fuel` iterations: Some(result) when the loop has
   * returned or ended by then, None while it is still running.
   */
  function AsWrittenWalk(dir: string, files: set<string>, fuel: nat): Option<Option<string>>
    decreases fuel
  {
    if dir == "/" then Some(None)
    else if Join(dir, PodfileName) in files then Some(Some(Join(dir, PodfileName)))
    else if fuel == 0 then None
    else AsWrittenWalk(Dirname(dir), files, fuel - 1)
  }

  /**
   * The loop as written never ends once it reaches "." without finding
   * "./Podfile": File.dirname(".") is "." again and "." is never "/".
   */
  lemma {:induction false} AsWrittenWalkStaysAtDot(files: set<string>, fuel: nat)
    requires Join(".", PodfileName) !in files
    ensures AsWrittenWalk(".", files, fuel) == None
  {
    DirnameFixedPoints();
    if fuel > 0 {
      AsWrittenWalkStaysAtDot(files, fuel - 1);
    }
  }

  /**
   * A clone into the relative destination "dest" (`git clone <url> dest`)
   * starts the walk at File.dirname("dest") == "."; when there is no
   * "./Podfile" the as-written loop runs for ever.
   */
  lemma RelativeCloneDestinationHangs(files: set<string>, fuel: nat)
    requires "./Podfile" !in files
    ensures Dirname("dest") == "."
    ensures AsWrittenWalk(Dirname("dest"), files, fuel) == None
  {
    assert LeadingSeparators("dest") == 0;
    assert Join(".", PodfileName) == "./Podfile";
    AsWrittenWalkStaysAtDot(files, fuel);
  }

  /**
   * Wherever the as-written loop ends, it returns what the corrected walk
   * returns: the two differ only on the runs that never end.
   */
  lemma {:induction false} WalkAgreesWhereItEnds(dir: string, files: set<string>, fuel: nat)
    ensures AsWrittenWalk(dir, files, fuel).Some? ==> AsWrittenWalk(dir, files, fuel) == Some(WalkFrom(dir, files))
    decreases fuel
  {
    if dir == "." && Join(dir, PodfileName) !in files {
      AsWrittenWalkStaysAtDot(files, fuel);
    } else if dir != "/" && Join(dir, PodfileName) !in files && fuel > 0 {
      var f: nat := fuel - 1;
      AsWrittenWalkStep(dir, files, fuel, f);
      WalkFromStep(dir, files);
      WalkAgreesWhereItEnds(Dirname(dir), files, f);
    }
  }

  /**
   * From an absolute directory the as-written loop ends within |dir|
   * iterations and returns what the corrected walk returns: the correction
   * changes nothing where the original terminates.
   */
  lemma {:induction false} WalkAgreesOnAbsolute(dir: string, files: set<string>, fuel: nat)
    requires IsAbsolute(dir) && fuel >= |dir|
    ensures AsWrittenWalk(dir, files, fuel) == Some(WalkFrom(dir, files))
    decreases |dir|
  {
    if dir != "/" && Join(dir, PodfileName) !in files {
      var parent := Dirname(dir);
      var f: nat := fuel - 1;
      ParentOfAbsolute(dir);
      AsWrittenWalkStep(dir, files, fuel, f);
      WalkFromStep(dir, files);
      WalkAgreesOnAbsolute(parent, files, f);
      AgreementStep(dir, parent, files, fuel, f);
    }
  }

  /** One step of the agreement: equal continuations give equal results. */
  lemma AgreementStep(dir: string, parent: string, files: set<string>, fuel: nat, f: nat)
    requires AsWrittenWalk(dir, files, fuel) == AsWrittenWalk(parent, files, f)
    requires AsWrittenWalk(parent, files, f) == Some(WalkFrom(parent, files))
    requires WalkFrom(dir, files) == WalkFrom(parent, files)
    ensures AsWrittenWalk(dir, files, fuel) == Some(WalkFrom(dir, files))
  {
  }

  /** The parent of an absolute path other than "/" is absolute and at least one character shorter. */
  lemma ParentOfAbsolute(dir: string)
    requires IsAbsolute(dir) && dir != "/"
    ensures |dir| >= 2 && IsAbsolute(Dirname(dir)) && |Dirname(dir)| < |dir|
  {
    DirnameOfAbsolute(dir);
  }

  /** Without a Podfile in `dir`, the as-written loop goes on from its parent. */
  lemma AsWrittenWalkStep(dir: string, files: set<string>, fuel: nat, f: nat)
    requires dir != "/" && fuel == f + 1 && Join(dir, PodfileName) !in files
    ensures AsWrittenWalk(dir, files, fuel) == AsWrittenWalk(Dirname(dir), files, f)
  {
    assert AsWrittenWalk(dir, files, fuel) == AsWrittenWalk(Dirname(dir), files, fuel - 1);
  }

  /** Without a Podfile in `dir`, the corrected walk goes on from its parent. */
  lemma WalkFromStep(dir: string, files: set<string>)
    requires dir != "/" && dir != "." && Join(dir, PodfileName) !in files
    ensures WalkFrom(dir, files) == WalkFrom(Dirname(dir), files)
  {
  }
}
