/** The IDE model a module's configuration fills in and the IML rewrite reads:
  * eight independent sets of folders, dependencies and outputs. */
module HatchejModel {

  /** Names the eight collections; `Get` is the live collection a getter returns. */
  datatype Collection =
    | ExcludeFolders
    | SourceFolders
    | TestSourceFolders
    | ProjectDependencies
    | ProjectTestDependencies
    | LibraryDependencies
    | LibraryTestDependencies
    | ProjectOutputs

  /** The contents of every collection at one moment. */
  datatype Snapshot = Snapshot(
    excludeFolders: set<string>,
    sourceFolders: set<string>,
    testSourceFolders: set<string>,
    projectDependencies: set<string>,
    projectTestDependencies: set<string>,
    libraryDependencies: set<string>,
    libraryTestDependencies: set<string>,
    projectOutputs: set<string>)
  {
    function Get(c: Collection): set<string> {
      match c
      case ExcludeFolders => excludeFolders
      case SourceFolders => sourceFolders
      case TestSourceFolders => testSourceFolders
      case ProjectDependencies => projectDependencies
      case ProjectTestDependencies => projectTestDependencies
      case LibraryDependencies => libraryDependencies
      case LibraryTestDependencies => libraryTestDependencies
      case ProjectOutputs => projectOutputs
    }

    /** The snapshot after adding all of `es` to collection `c`: only that collection grows. */
    function Grown(c: Collection, es: set<string>): (r: Snapshot)
      ensures r.Get(c) == Get(c) + es
      ensures forall d: Collection :: d != c ==> r.Get(d) == Get(d)
    {
      match c
      case ExcludeFolders => this.(excludeFolders := excludeFolders + es)
      case SourceFolders => this.(sourceFolders := sourceFolders + es)
      case TestSourceFolders => this.(testSourceFolders := testSourceFolders + es)
      case ProjectDependencies => this.(projectDependencies := projectDependencies + es)
      case ProjectTestDependencies => this.(projectTestDependencies := projectTestDependencies + es)
      case LibraryDependencies => this.(libraryDependencies := libraryDependencies + es)
      case LibraryTestDependencies => this.(libraryTestDependencies := libraryTestDependencies + es)
      case ProjectOutputs => this.(projectOutputs := projectOutputs + es)
    }

    /** The snapshot after adding `e` to collection `c`: only that collection grows. */
    function Added(c: Collection, e: string): (r: Snapshot)
      ensures r.Get(c) == Get(c) + {e}
      ensures forall d: Collection :: d != c ==> r.Get(d) == Get(d)
    {
      match c
      case ExcludeFolders => this.(excludeFolders := excludeFolders + {e})
      case SourceFolders => this.(sourceFolders := sourceFolders + {e})
      case TestSourceFolders => this.(testSourceFolders := testSourceFolders + {e})
      case ProjectDependencies => this.(projectDependencies := projectDependencies + {e})
      case ProjectTestDependencies => this.(projectTestDependencies := projectTestDependencies + {e})
      case LibraryDependencies => this.(libraryDependencies := libraryDependencies + {e})
      case LibraryTestDependencies => this.(libraryTestDependencies := libraryTestDependencies + {e})
      case ProjectOutputs => this.(projectOutputs := projectOutputs + {e})
    }
  }

  /** The snapshot in which every collection is empty. */
  const EmptySnapshot := Snapshot({}, {}, {}, {}, {}, {}, {}, {})

  /** The snapshot `t` is `s` with `es` added to collection `c`. */
  lemma GrownBy(s: Snapshot, t: Snapshot, c: Collection, es: set<string>)
    requires t.Get(c) == s.Get(c) + es
    requires forall d: Collection :: d != c ==> t.Get(d) == s.Get(d)
    ensures t == s.Grown(c, es)
  {
    SnapshotsEqual(t, s.Grown(c, es));
  }

  /** Adding nothing changes nothing. */
  lemma GrownByNothing(s: Snapshot, c: Collection)
    ensures s.Grown(c, {}) == s
  {
    assert s.Get(c) + {} == s.Get(c);
    SnapshotsEqual(s.Grown(c, {}), s);
  }

  /** Two snapshots with the same collections are the same. */
  lemma SnapshotsEqual(s: Snapshot, t: Snapshot)
    requires forall c: Collection :: s.Get(c) == t.Get(c)
    ensures s == t
  {
    assert s.Get(ExcludeFolders) == t.Get(ExcludeFolders);
    assert s.Get(SourceFolders) == t.Get(SourceFolders);
    assert s.Get(TestSourceFolders) == t.Get(TestSourceFolders);
    assert s.Get(ProjectDependencies) == t.Get(ProjectDependencies);
    assert s.Get(ProjectTestDependencies) == t.Get(ProjectTestDependencies);
    assert s.Get(LibraryDependencies) == t.Get(LibraryDependencies);
    assert s.Get(LibraryTestDependencies) == t.Get(LibraryTestDependencies);
    assert s.Get(ProjectOutputs) == t.Get(ProjectOutputs);
  }

  /** Collections are sets: adding an element that is already there changes nothing. */
  lemma AddedPresent(s: Snapshot, c: Collection, e: string)
    requires e in s.Get(c)
    ensures s.Added(c, e) == s
  {
    assert s.Get(c) + {e} == s.Get(c);
    SnapshotsEqual(s.Added(c, e), s);
  }

  /** So adding the same element twice is adding it once. */
  lemma AddedTwice(s: Snapshot, c: Collection, e: string)
    ensures s.Added(c, e).Added(c, e) == s.Added(c, e)
  {
    AddedPresent(s.Added(c, e), c, e);
  }

  /** The order of additions does not matter. */
  lemma AddedCommutes(s: Snapshot, c: Collection, e: string, d: Collection, f: string)
    ensures s.Added(c, e).Added(d, f) == s.Added(d, f).Added(c, e)
  {
    var l, r := s.Added(c, e).Added(d, f), s.Added(d, f).Added(c, e);
    forall x: Collection ensures l.Get(x) == r.Get(x) {
      if x == c && x == d {
        assert s.Get(x) + {e} + {f} == s.Get(x) + {f} + {e};
      }
    }
    SnapshotsEqual(l, r);
  }

  class HatchejModel {
    var excludeFolders: set<string>
    var sourceFolders: set<string>
    var testSourceFolders: set<string>
    var projectDependencies: set<string>
    var projectTestDependencies: set<string>
    var libraryDependencies: set<string>
    var libraryTestDependencies: set<string>
    var projectOutputs: set<string>

    /** Every collection starts empty. */
    constructor ()
      ensures forall c: Collection :: Get(c) == {}
      ensures Contents() == EmptySnapshot
    {
      excludeFolders, sourceFolders, testSourceFolders := {}, {}, {};
      projectDependencies, projectTestDependencies := {}, {};
      libraryDependencies, libraryTestDependencies := {}, {};
      projectOutputs := {};
    }

    /** The live collections. */
    function Contents(): Snapshot
      reads this
    {
      Snapshot(excludeFolders, sourceFolders, testSourceFolders, projectDependencies,
               projectTestDependencies, libraryDependencies, libraryTestDependencies, projectOutputs)
    }

    /** The collection a getter returns. */
    function Get(c: Collection): set<string>
      reads this
    {
      Contents().Get(c)
    }

    /** `getX().add(e)` through the live collection: only that collection grows. */
    method Add(c: Collection, e: string)
      modifies this
      ensures Contents() == old(Contents()).Added(c, e)
      ensures Get(c) == old(Get(c)) + {e}
      ensures forall d: Collection :: d != c ==> Get(d) == old(Get(d))
    {
      match c
      case ExcludeFolders => excludeFolders := excludeFolders + {e};
      case SourceFolders => sourceFolders := sourceFolders + {e};
      case TestSourceFolders => testSourceFolders := testSourceFolders + {e};
      case ProjectDependencies => projectDependencies := projectDependencies + {e};
      case ProjectTestDependencies => projectTestDependencies := projectTestDependencies + {e};
      case LibraryDependencies => libraryDependencies := libraryDependencies + {e};
      case LibraryTestDependencies => libraryTestDependencies := libraryTestDependencies + {e};
      case ProjectOutputs => projectOutputs := projectOutputs + {e};
    }

    /** `getX().addAll(es)`. */
    method AddAll(c: Collection, es: set<string>)
      modifies this
      ensures Get(c) == old(Get(c)) + es
      ensures forall d: Collection :: d != c ==> Get(d) == old(Get(d))
      ensures Contents() == old(Contents()).Grown(c, es)
    {
      var todo := es;
      while todo != {}
        invariant todo <= es
        invariant Get(c) == old(Get(c)) + (es - todo)
        invariant forall d: Collection :: d != c ==> Get(d) == old(Get(d))
        decreases |todo|
      {
        var e :| e in todo;
        Add(c, e);
        todo := todo - {e};
      }
      forall d: Collection | d != c
        ensures Contents().Get(d) == old(Contents()).Get(d)
      {
        assert Get(d) == old(Get(d));
      }
      GrownBy(old(Contents()), Contents(), c, es);
    }
  }
}
