/**
 * What resolving a profile promises: the documents and the overrides take
 * effect in order, the profile holds exactly the kept projects, in order,
 * the first project that cannot be built decides the error, and only the
 * two named exceptions leave from_yaml_files unwrapped.
 */
module ResolveFacts {
  import opened Wrappers
  import opened Dicts
  import opened Text
  import opened Tree
  import opened Overrides
  import opened OverrideFacts
  import opened Merge
  import opened MergeFacts
  import opened Project
  import opened Resolve

  /** The names of the kept project entries, in document order. */
  function KeptNames(nodes: Dict<Node>, ignored: seq<string>): (names: seq<string>)
    ensures forall n :: n in names ==> n !in ignored
    ensures forall n :: n in names <==> exists i :: 0 <= i < |nodes| && nodes[i].0 == n && Kept(nodes[i], ignored)
    ensures |names| <= |nodes|
  {
    if nodes == [] then []
    else if Kept(nodes[0], ignored) then [nodes[0].0] + KeptNames(nodes[1..], ignored)
    else KeptNames(nodes[1..], ignored)
  }

  /** The node the profile builds project k from, if k is kept. */
  function Chosen(nodes: Dict<Node>, ignored: seq<string>, k: string): Option<Node> {
    match Get(nodes, k)
    case Some(n) => if Kept((k, n), ignored) then Some(n) else None
    case None => None
  }

  /** A kept project entry whose project cannot be built. */
  predicate Failing(entry: (string, Node), ignored: seq<string>, baseEnv: Node, dictText: Dict<Node> -> string) {
    Kept(entry, ignored) && ProjectFromNode(entry.0, entry.1, baseEnv, dictText).Err?
  }

  // ---- Order -------------------------------------------------------------

  /** Merging a + b merges a first and then b on top of the result. */
  lemma {:induction false} MergeAllAppend(root: Node, a: seq<Node>, b: seq<Node>)
    ensures MergeAll(root, a + b) == match MergeAll(root, a)
                                     case Ok(mid) => MergeAll(mid, b)
                                     case Err(e) => Err(e)
    decreases |a|
  {
    if a == [] {
      assert a + b == b;
    } else {
      assert (a + b)[0] == a[0];
      assert (a + b)[1..] == a[1..] + b;
      match Merged(root, a[0]) {
        case Ok(next) => MergeAllAppend(next, a[1..], b);
        case Err(_) =>
      }
    }
  }

  /** Applying os + [o] applies o last, to what os produced. */
  lemma {:induction false} ApplyAllSnoc(root: Dict<Node>, os: seq<Override>, o: Override)
    requires Constructed(os) && |o.path| >= 1
    ensures Constructed(os + [o])
    ensures ApplyAll(root, os + [o]) == match ApplyAll(root, os)
                                        case Ok(mid) => ApplyAt(mid, o.path, o.op, o.rep)
                                        case Err(e) => Err(e)
    decreases |os|
  {
    assert forall i :: 0 <= i < |os + [o]| ==> (os + [o])[i] == if i < |os| then os[i] else o;
    if os == [] {
      assert [o][1..] == [];
    } else {
      assert (os + [o])[0] == os[0];
      assert (os + [o])[1..] == os[1..] + [o];
      match ApplyAt(root, os[0].path, os[0].op, os[0].rep) {
        case Ok(next) => ApplyAllSnoc(next, os[1..], o);
        case Err(_) =>
      }
    }
  }

  /**
   * A later file wins: a top-level key that the last document sets to a
   * non-mapping value (other than a configure string) has that value.
   */
  lemma LastDocumentWins(docs: seq<Node>, d: Node, j: nat)
    requires d.Mapping? && Unique(d.entries) && j < |d.entries| && !d.entries[j].1.Mapping?
    requires !(d.entries[j].0 == "configure" && d.entries[j].1.Str?)
    requires MergeAll(Mapping([]), docs + [d]).Ok?
    ensures Get(MergeAll(Mapping([]), docs + [d]).value.entries, d.entries[j].0) == Some(d.entries[j].1)
  {
    MergeAllAppend(Mapping([]), docs, [d]);
    var mid := MergeAll(Mapping([]), docs).value;
    assert [d][1..] == [];
    ScalarReplaces(mid, d, j);
  }

  /** A later override wins: a last replacement that is not blocked writes its value. */
  lemma LastOverrideWins(root: Dict<Node>, os: seq<Override>, o: Override)
    requires Constructed(os) && |o.path| >= 1 && o.op == Replace
    requires ApplyAll(root, os).Ok? && !Blocked(ApplyAll(root, os).value, o.path)
    ensures Constructed(os + [o])
    ensures ApplyAll(root, os + [o]).Ok?
    ensures Lookup(Mapping(ApplyAll(root, os + [o]).value), o.path) == Some(RepNode(o.rep))
  {
    ApplyAllSnoc(root, os, o);
    ReplaceWrites(ApplyAll(root, os).value, o.path, o.rep);
  }

  // ---- Error kinds of the two first stages --------------------------------

  /** Merging raises TypeError and nothing else. */
  lemma {:induction false} MergeAllErrors(root: Node, docs: seq<Node>)
    ensures MergeAll(root, docs).Err? ==> MergeAll(root, docs).error == TypeError
    decreases |docs|
  {
    if docs != [] {
      match Merged(root, docs[0]) {
        case Ok(next) => MergeAllErrors(next, docs[1..]);
        case Err(_) =>
      }
    }
  }

  /** An override never raises one of the two exceptions from_yaml_files lets through. */
  lemma {:induction false} ApplyAtUnnamed(m: Dict<Node>, path: seq<string>, op: Op, rep: Option<string>)
    requires |path| >= 1
    ensures ApplyAt(m, path, op, rep).Err? ==>
              !ApplyAt(m, path, op, rep).error.UnknownSourceFormat? && !ApplyAt(m, path, op, rep).error.InvalidProfile?
    decreases |path|
  {
    if |path| >= 2 {
      match Get<Node>(m, path[0]) {
        case Some(Mapping(sub)) => ApplyAtUnnamed(sub, path[1..], op, rep);
        case Some(_) =>
        case None => if op != Remove { CreateUnnamed(path[1..], op, rep); }
      }
    }
  }

  lemma {:induction false} CreateUnnamed(keys: seq<string>, op: Op, rep: Option<string>)
    requires |keys| >= 1
    ensures Create(keys, op, rep).Err? ==>
              !Create(keys, op, rep).error.UnknownSourceFormat? && !Create(keys, op, rep).error.InvalidProfile?
    decreases |keys|
  {
    if |keys| > 1 {
      CreateUnnamed(keys[1..], op, rep);
    }
  }

  lemma {:induction false} ApplyAllUnnamed(root: Dict<Node>, os: seq<Override>)
    requires Constructed(os)
    ensures ApplyAll(root, os).Err? ==>
              !ApplyAll(root, os).error.UnknownSourceFormat? && !ApplyAll(root, os).error.InvalidProfile?
    decreases |os|
  {
    if os != [] {
      ApplyAtUnnamed(root, os[0].path, os[0].op, os[0].rep);
      match ApplyAt(root, os[0].path, os[0].op, os[0].rep) {
        case Ok(next) => ApplyAllUnnamed(next, os[1..]);
        case Err(_) =>
      }
    }
  }

  // ---- Deriving the projects ----------------------------------------------

  lemma UniqueTail<V>(d: Dict<V>)
    requires Unique(d) && d != []
    ensures Unique(d[1..])
    ensures Get(d[1..], d[0].0).None?
  {
    assert forall j :: 0 <= j < |d[1..]| ==> d[1..][j] == d[j + 1];
  }

  /**
   * The derivation fails exactly when some kept entry cannot be built, and
   * then with the error of the first such entry.
   */
  lemma {:induction false} ProjectsFromFails(acc: Dict<ProjectRecord>, nodes: Dict<Node>, ignored: seq<string>,
                                             baseEnv: Node, dictText: Dict<Node> -> string)
    ensures ProjectsFrom(acc, nodes, ignored, baseEnv, dictText).Err? <==>
              exists i :: 0 <= i < |nodes| && Failing(nodes[i], ignored, baseEnv, dictText)
    ensures ProjectsFrom(acc, nodes, ignored, baseEnv, dictText).Err? ==>
              exists i :: 0 <= i < |nodes| && Failing(nodes[i], ignored, baseEnv, dictText)
                          && (forall j :: 0 <= j < i ==> !Failing(nodes[j], ignored, baseEnv, dictText))
                          && ProjectsFrom(acc, nodes, ignored, baseEnv, dictText).error
                             == ProjectFromNode(nodes[i].0, nodes[i].1, baseEnv, dictText).error
    decreases |nodes|
  {
    if nodes != [] {
      var rest := nodes[1..];
      assert forall i :: 0 <= i < |rest| ==> rest[i] == nodes[i + 1];
      if Failing(nodes[0], ignored, baseEnv, dictText) {
      } else {
        var acc' := if Kept(nodes[0], ignored)
                    then Set(acc, nodes[0].0, ProjectFromNode(nodes[0].0, nodes[0].1, baseEnv, dictText).value)
                    else acc;
        assert ProjectsFrom(acc, nodes, ignored, baseEnv, dictText) == ProjectsFrom(acc', rest, ignored, baseEnv, dictText);
        ProjectsFromFails(acc', rest, ignored, baseEnv, dictText);
        if ProjectsFrom(acc', rest, ignored, baseEnv, dictText).Err? {
          var i :| 0 <= i < |rest| && Failing(rest[i], ignored, baseEnv, dictText)
                   && (forall j :: 0 <= j < i ==> !Failing(rest[j], ignored, baseEnv, dictText))
                   && ProjectsFrom(acc', rest, ignored, baseEnv, dictText).error
                      == ProjectFromNode(rest[i].0, rest[i].1, baseEnv, dictText).error;
          FirstFailureShift(nodes, i, ignored, baseEnv, dictText);
        } else {
          NoFailureShift(nodes, ignored, baseEnv, dictText);
        }
      }
    }
  }

  /** The first failing entry of the tail, behind a head that does not fail, is the first of the whole. */
  lemma FirstFailureShift(nodes: Dict<Node>, i: nat, ignored: seq<string>, baseEnv: Node, dictText: Dict<Node> -> string)
    requires nodes != [] && i < |nodes| - 1 && !Failing(nodes[0], ignored, baseEnv, dictText)
    requires Failing(nodes[1..][i], ignored, baseEnv, dictText)
    requires forall j :: 0 <= j < i ==> !Failing(nodes[1..][j], ignored, baseEnv, dictText)
    ensures Failing(nodes[i + 1], ignored, baseEnv, dictText) && nodes[i + 1] == nodes[1..][i]
    ensures forall j :: 0 <= j < i + 1 ==> !Failing(nodes[j], ignored, baseEnv, dictText)
  {
    forall j | 0 < j < i + 1 ensures !Failing(nodes[j], ignored, baseEnv, dictText) {
      assert nodes[1..][j - 1] == nodes[j];
    }
  }

  /** A head that does not fail, in front of a tail none of whose entries fail. */
  lemma NoFailureShift(nodes: Dict<Node>, ignored: seq<string>, baseEnv: Node, dictText: Dict<Node> -> string)
    requires nodes != [] && !Failing(nodes[0], ignored, baseEnv, dictText)
    requires !exists i :: 0 <= i < |nodes[1..]| && Failing(nodes[1..][i], ignored, baseEnv, dictText)
    ensures forall i :: 0 <= i < |nodes| ==> !Failing(nodes[i], ignored, baseEnv, dictText)
  {
    forall i | 0 < i < |nodes| ensures !Failing(nodes[i], ignored, baseEnv, dictText) {
      assert nodes[1..][i - 1] == nodes[i];
    }
  }

  /** Each name ends up holding the project built from its node, when it is kept. */
  lemma {:induction false} ProjectsFromByName(acc: Dict<ProjectRecord>, nodes: Dict<Node>, ignored: seq<string>,
                                              baseEnv: Node, dictText: Dict<Node> -> string, k: string)
    requires Unique(nodes) && ProjectsFrom(acc, nodes, ignored, baseEnv, dictText).Ok?
    ensures Chosen(nodes, ignored, k).None? ==>
              Get(ProjectsFrom(acc, nodes, ignored, baseEnv, dictText).value, k) == Get(acc, k)
    ensures Chosen(nodes, ignored, k).Some? ==>
              ProjectFromNode(k, Chosen(nodes, ignored, k).value, baseEnv, dictText).Ok? &&
              Get(ProjectsFrom(acc, nodes, ignored, baseEnv, dictText).value, k)
              == Some(ProjectFromNode(k, Chosen(nodes, ignored, k).value, baseEnv, dictText).value)
    decreases |nodes|
  {
    if nodes != [] {
      var rest := nodes[1..];
      var (k0, n0) := nodes[0];
      UniqueTail(nodes);
      var acc' := if Kept(nodes[0], ignored)
                  then Set(acc, k0, ProjectFromNode(k0, n0, baseEnv, dictText).value)
                  else acc;
      assert ProjectsFrom(acc, nodes, ignored, baseEnv, dictText) == ProjectsFrom(acc', rest, ignored, baseEnv, dictText);
      ProjectsFromByName(acc', rest, ignored, baseEnv, dictText, k);
      if k == k0 {
        assert Chosen(rest, ignored, k).None?;
      } else {
        assert Chosen(nodes, ignored, k) == Chosen(rest, ignored, k);
      }
    }
  }

  /** acc once the entry is taken in, when it is kept and builds. */
  function Added(acc: Dict<ProjectRecord>, entry: (string, Node), ignored: seq<string>, baseEnv: Node,
                 dictText: Dict<Node> -> string): Dict<ProjectRecord>
  {
    if Kept(entry, ignored) && ProjectFromNode(entry.0, entry.1, baseEnv, dictText).Ok?
    then Set(acc, entry.0, ProjectFromNode(entry.0, entry.1, baseEnv, dictText).value)
    else acc
  }

  lemma ProjectsFromStep(acc: Dict<ProjectRecord>, nodes: Dict<Node>, ignored: seq<string>,
                         baseEnv: Node, dictText: Dict<Node> -> string)
    requires nodes != [] && !Failing(nodes[0], ignored, baseEnv, dictText)
    ensures ProjectsFrom(acc, nodes, ignored, baseEnv, dictText)
            == ProjectsFrom(Added(acc, nodes[0], ignored, baseEnv, dictText), nodes[1..], ignored, baseEnv, dictText)
  {
  }

  lemma HeadBuilds(acc: Dict<ProjectRecord>, nodes: Dict<Node>, ignored: seq<string>,
                   baseEnv: Node, dictText: Dict<Node> -> string)
    requires nodes != [] && ProjectsFrom(acc, nodes, ignored, baseEnv, dictText).Ok?
    ensures !Failing(nodes[0], ignored, baseEnv, dictText)
  {
  }

  lemma AddedKeys(acc: Dict<ProjectRecord>, entry: (string, Node), ignored: seq<string>, baseEnv: Node,
                  dictText: Dict<Node> -> string)
    requires Get(acc, entry.0).None? && !Failing(entry, ignored, baseEnv, dictText)
    ensures Keys(Added(acc, entry, ignored, baseEnv, dictText)) == Keys(acc) + if Kept(entry, ignored) then [entry.0] else []
    ensures forall k :: k != entry.0 ==> Get(Added(acc, entry, ignored, baseEnv, dictText), k) == Get(acc, k)
  {
    if !Kept(entry, ignored) {
      assert Keys(acc) + [] == Keys(acc);
    } else {
      SetKeys(acc, entry.0, ProjectFromNode(entry.0, entry.1, baseEnv, dictText).value);
    }
  }

  /** The later names of a duplicate-free list are still fresh once the first is added. */
  lemma FreshAfterAdded(acc: Dict<ProjectRecord>, nodes: Dict<Node>, ignored: seq<string>,
                        baseEnv: Node, dictText: Dict<Node> -> string)
    requires Unique(nodes) && nodes != [] && !Failing(nodes[0], ignored, baseEnv, dictText)
    requires forall i :: 0 <= i < |nodes| ==> Get(acc, nodes[i].0).None?
    ensures forall i :: 0 <= i < |nodes[1..]| ==>
              Get(Added(acc, nodes[0], ignored, baseEnv, dictText), nodes[1..][i].0).None?
  {
    AddedKeys(acc, nodes[0], ignored, baseEnv, dictText);
    forall i | 0 <= i < |nodes[1..]|
      ensures Get(Added(acc, nodes[0], ignored, baseEnv, dictText), nodes[1..][i].0).None?
    {
      assert nodes[1..][i] == nodes[i + 1];
      assert nodes[0].0 != nodes[i + 1].0;
    }
  }

  lemma KeptNamesHead(prefix: seq<string>, nodes: Dict<Node>, ignored: seq<string>)
    requires nodes != []
    ensures prefix + (if Kept(nodes[0], ignored) then [nodes[0].0] else []) + KeptNames(nodes[1..], ignored)
            == prefix + KeptNames(nodes, ignored)
  {
    var h := if Kept(nodes[0], ignored) then [nodes[0].0] else [];
    var t := KeptNames(nodes[1..], ignored);
    assert KeptNames(nodes, ignored) == h + t;
    assert prefix + h + t == prefix + (h + t);
  }

  /** The profile's projects are the kept names, in document order. */
  lemma {:induction false} ProjectsFromKeys(acc: Dict<ProjectRecord>, nodes: Dict<Node>, ignored: seq<string>,
                                            baseEnv: Node, dictText: Dict<Node> -> string)
    requires Unique(nodes) && ProjectsFrom(acc, nodes, ignored, baseEnv, dictText).Ok?
    requires forall i :: 0 <= i < |nodes| ==> Get(acc, nodes[i].0).None?
    ensures Keys(ProjectsFrom(acc, nodes, ignored, baseEnv, dictText).value) == Keys(acc) + KeptNames(nodes, ignored)
    decreases |nodes|
  {
    if nodes == [] {
      assert Keys(acc) + [] == Keys(acc);
    } else {
      var rest := nodes[1..];
      HeadBuilds(acc, nodes, ignored, baseEnv, dictText);
      UniqueTail(nodes);
      ProjectsFromStep(acc, nodes, ignored, baseEnv, dictText);
      AddedKeys(acc, nodes[0], ignored, baseEnv, dictText);
      var acc' := Added(acc, nodes[0], ignored, baseEnv, dictText);
      FreshAfterAdded(acc, nodes, ignored, baseEnv, dictText);
      ProjectsFromKeys(acc', rest, ignored, baseEnv, dictText);
      KeptNamesHead(Keys(acc), nodes, ignored);
    }
  }

  // ---- The profile ---------------------------------------------------------

  /** A project that cannot be built decides the outcome: the first one, in document order. */
  lemma ProfileOfFails(root: Dict<Node>, nodes: Dict<Node>, ignored: seq<string>, dictText: Dict<Node> -> string, i: nat)
    requires ProjectNodes(root) == Ok(nodes)
    requires i < |nodes| && Failing(nodes[i], ignored, Get(root, "build-env").GetOr(Mapping([])), dictText)
    requires forall j :: 0 <= j < i ==> !Failing(nodes[j], ignored, Get(root, "build-env").GetOr(Mapping([])), dictText)
    ensures ProfileOf(root, ignored, dictText)
            == Err(ProjectFromNode(nodes[i].0, nodes[i].1, Get(root, "build-env").GetOr(Mapping([])), dictText).error)
  {
    var baseEnv := Get(root, "build-env").GetOr(Mapping([]));
    ProjectsFromFails([], nodes, ignored, baseEnv, dictText);
    var i' :| 0 <= i' < |nodes| && Failing(nodes[i'], ignored, baseEnv, dictText)
              && (forall j :: 0 <= j < i' ==> !Failing(nodes[j], ignored, baseEnv, dictText))
              && ProjectsFrom([], nodes, ignored, baseEnv, dictText).error
                 == ProjectFromNode(nodes[i'].0, nodes[i'].1, baseEnv, dictText).error;
    assert i' == i;
  }

  /**
   * Once every project builds, the profile is valid exactly when every kept
   * name is known; otherwise the first unknown kept name is reported.
   * Ignored and null projects are never validated.
   */
  lemma ProfileOfValidates(root: Dict<Node>, nodes: Dict<Node>, ignored: seq<string>, dictText: Dict<Node> -> string)
    requires WellFormed(Mapping(root)) && ProjectNodes(root) == Ok(nodes)
    requires forall j :: 0 <= j < |nodes| ==> !Failing(nodes[j], ignored, Get(root, "build-env").GetOr(Mapping([])), dictText)
    ensures var names := KeptNames(nodes, ignored);
            && (ProfileOf(root, ignored, dictText).Ok? <==> forall j :: 0 <= j < |names| ==> names[j] in ValidNames)
            && (ProfileOf(root, ignored, dictText).Err? ==>
                  exists j :: 0 <= j < |names| && names[j] !in ValidNames
                              && ProfileOf(root, ignored, dictText).error == InvalidProfile(names[j])
                              && forall x :: 0 <= x < j ==> names[x] in ValidNames)
  {
    var baseEnv := Get(root, "build-env").GetOr(Mapping([]));
    ProjectsFromFails([], nodes, ignored, baseEnv, dictText);
    GetWellFormed(root, "projects");
    ProjectsFromKeys([], nodes, ignored, baseEnv, dictText);
    var projects := ProjectsFrom([], nodes, ignored, baseEnv, dictText);
    assert Keys<ProjectRecord>([]) + KeptNames(nodes, ignored) == KeptNames(nodes, ignored);
    var v := ValidateProjects(Keys(projects.value));
    assert ProfileOf(root, ignored, dictText).Ok? <==> v.Ok?;
    assert ProfileOf(root, ignored, dictText).Err? ==> ProfileOf(root, ignored, dictText).error == v.error;
  }

  /**
   * A resolved profile: its environments come from the root (an empty
   * mapping when absent), and each kept name holds the project built from
   * its node with the profile's build environment as the base.
   */
  lemma ProfileOfProjects(root: Dict<Node>, nodes: Dict<Node>, ignored: seq<string>, dictText: Dict<Node> -> string,
                          p: Profile, k: string)
    requires WellFormed(Mapping(root)) && ProjectNodes(root) == Ok(nodes)
    requires ProfileOf(root, ignored, dictText) == Ok(p)
    ensures p.buildEnv == Get(root, "build-env").GetOr(Mapping([]))
    ensures p.virtEnv == Get(root, "virt-env").GetOr(Mapping([]))
    ensures Keys(p.projects) == KeptNames(nodes, ignored)
    ensures Chosen(nodes, ignored, k).None? ==> Get(p.projects, k) == None
    ensures Chosen(nodes, ignored, k).Some? ==>
              k in ValidNames &&
              ProjectFromNode(k, Chosen(nodes, ignored, k).value, p.buildEnv, dictText).Ok? &&
              Get(p.projects, k) == Some(ProjectFromNode(k, Chosen(nodes, ignored, k).value, p.buildEnv, dictText).value)
  {
    var baseEnv := Get(root, "build-env").GetOr(Mapping([]));
    GetWellFormed(root, "projects");
    ProjectsFromKeys([], nodes, ignored, baseEnv, dictText);
    assert Keys<ProjectRecord>([]) + KeptNames(nodes, ignored) == KeptNames(nodes, ignored);
    ProjectsFromByName([], nodes, ignored, baseEnv, dictText, k);
    if Chosen(nodes, ignored, k).Some? {
      var names := Keys(p.projects);
      var j :| 0 <= j < |names| && names[j] == k;
    }
  }

  // ---- from_yaml_files ------------------------------------------------------

  /** Merging keeps documents well formed. */
  lemma {:induction false} MergeAllWellFormed(root: Node, docs: seq<Node>)
    requires WellFormed(root) && forall i :: 0 <= i < |docs| ==> WellFormed(docs[i])
    requires MergeAll(root, docs).Ok?
    ensures WellFormed(MergeAll(root, docs).value)
    decreases |docs|
  {
    if docs != [] {
      MergedWellFormed(root, docs[0]);
      MergeAllWellFormed(Merged(root, docs[0]).value, docs[1..]);
    }
  }

  /** Overrides keep the root well formed. */
  lemma {:induction false} ApplyAllWellFormed(root: Dict<Node>, os: seq<Override>)
    requires Constructed(os) && WellFormed(Mapping(root)) && ApplyAll(root, os).Ok?
    ensures WellFormed(Mapping(ApplyAll(root, os).value))
    decreases |os|
  {
    if os != [] {
      ApplyKeepsWellFormed(root, os[0].path, os[0].op, os[0].rep);
      ApplyAllWellFormed(ApplyAt(root, os[0].path, os[0].op, os[0].rep).value, os[1..]);
    }
  }

  /**
   * A merge error and an override error reach the caller as ParseError;
   * past them, the profile is the one the well-formed merged and
   * overridden root describes, with its errors funneled.
   */
  lemma LoadedStages(docs: seq<Node>, ignored: seq<string>, overrides: seq<Override>, dictText: Dict<Node> -> string)
    requires Constructed(overrides)
    requires forall i :: 0 <= i < |docs| ==> WellFormed(docs[i])
    ensures MergeAll(Mapping([]), docs).Err? ==> Loaded(docs, ignored, overrides, dictText) == Err(ParseError(TypeError))
    ensures MergeAll(Mapping([]), docs).Ok? ==>
              var root := MergeAll(Mapping([]), docs).value;
              && root.Mapping?
              && (ApplyAll(root.entries, overrides).Err? ==>
                    Loaded(docs, ignored, overrides, dictText) == Err(ParseError(ApplyAll(root.entries, overrides).error)))
              && (ApplyAll(root.entries, overrides).Ok? ==>
                    var entries := ApplyAll(root.entries, overrides).value;
                    && WellFormed(Mapping(entries))
                    && Loaded(docs, ignored, overrides, dictText)
                       == match ProfileOf(entries, ignored, dictText)
                          case Ok(p) => Ok(p)
                          case Err(e) => Err(Funnel(e)))
  {
    MergeAllErrors(Mapping([]), docs);
    if MergeAll(Mapping([]), docs).Ok? {
      var root := MergeAll(Mapping([]), docs).value;
      ApplyAllUnnamed(root.entries, overrides);
      if ApplyAll(root.entries, overrides).Ok? {
        MergeAllWellFormed(Mapping([]), docs);
        ApplyAllWellFormed(root.entries, overrides);
      }
    }
  }

  /** A root without projects raises KeyError, reported as ParseError. */
  lemma MissingProjects(docs: seq<Node>, ignored: seq<string>, overrides: seq<Override>, dictText: Dict<Node> -> string)
    requires Constructed(overrides)
    requires MergeAll(Mapping([]), docs).Ok? && ApplyAll(MergeAll(Mapping([]), docs).value.entries, overrides).Ok?
    requires Get(ApplyAll(MergeAll(Mapping([]), docs).value.entries, overrides).value, "projects").None?
    ensures Loaded(docs, ignored, overrides, dictText) == Err(ParseError(KeyError("projects")))
  {
  }

  // ---- An example: two files ------------------------------------------------

  const UrcuSource: Node := Mapping([("source", Str("https://example/urcu.tar.gz"))])
  const UrcuConfigure: Node := Mapping([("configure", Str("--disable-debug"))])
  const UrcuMerged: Node := Mapping([("source", Str("https://example/urcu.tar.gz")), ("configure", Str(" --disable-debug"))])
  const FileA: Node := Mapping([("projects", Mapping([("urcu", UrcuSource)]))])
  const FileB: Node := Mapping([("projects", Mapping([("urcu", UrcuConfigure)]))])
  const MergedRoot: Node := Mapping([("projects", Mapping([("urcu", UrcuMerged)]))])

  /** The configure string of the second file is new to urcu, so it gains a leading space. */
  lemma ExampleUrcuMerge()
    ensures Merged(UrcuSource, UrcuConfigure) == Ok(UrcuMerged)
  {
    assert "" + " " + "--disable-debug" == " --disable-debug";
    assert Get(UrcuSource.entries, "configure") == None;
    assert Incoming(None, "configure", Str("--disable-debug")) == Ok(Str(" --disable-debug"));
    assert Set(UrcuSource.entries, "configure", Str(" --disable-debug")) == UrcuMerged.entries;
    assert MergeEntry(UrcuSource.entries, UrcuConfigure, 0) == Ok(UrcuMerged.entries);
    StepSucceeds(UrcuSource.entries, UrcuMerged.entries, UrcuConfigure, 0);
  }

  lemma ExampleMerge()
    ensures MergeAll(Mapping([]), [FileA, FileB]) == Ok(MergedRoot)
  {
    MergeIntoEmpty(FileA.entries);
    assert MergeAll(Mapping([]), [FileA, FileB]) == MergeAll(FileA, [FileB]);
    var bp := FileB.entries[0].1;
    var pa := Mapping([("urcu", UrcuSource)]);
    var pm := Mapping([("urcu", UrcuMerged)]);
    ExampleUrcuMerge();
    assert Get(pa.entries, "urcu") == Some(UrcuSource);
    assert Incoming(Some(UrcuSource), "urcu", UrcuConfigure) == Ok(UrcuMerged);
    assert Set(pa.entries, "urcu", UrcuMerged) == pm.entries;
    assert MergeEntry(pa.entries, bp, 0) == Ok(pm.entries);
    StepSucceeds(pa.entries, pm.entries, bp, 0);
    assert Merged(pa, bp) == Ok(pm);
    assert Get(FileA.entries, "projects") == Some(pa);
    assert Incoming(Some(pa), "projects", bp) == Ok(pm);
    assert Set(FileA.entries, "projects", pm) == MergedRoot.entries;
    assert MergeEntry(FileA.entries, FileB, 0) == Ok(MergedRoot.entries);
    StepSucceeds(FileA.entries, MergedRoot.entries, FileB, 0);
    assert [FileB][1..] == [];
  }

  lemma ExampleProject(dictText: Dict<Node> -> string)
    ensures ProjectFromNode("urcu", UrcuMerged, Mapping([]), dictText)
            == Ok(ProjectRecord("urcu", HttpFtpSource("https://example/urcu.tar.gz"), " --disable-debug", Mapping([])))
  {
    assert StartsWith("https://example/urcu.tar.gz", "https://");
    var url := "https://example/urcu.tar.gz";
    assert url[0] == 'h' && url[|url| - 1] == 'z';
    assert !EndsWith(url, ".git");
    assert !StartsWith(url, "git://");
    assert "checkout" !in Keys(UrcuMerged.entries);
    assert "build-env" !in Keys(UrcuMerged.entries);
  }

  /**
   * Two files: the first names the source of urcu, the second its
   * configure options.  The merged configure string starts with a space.
   */
  lemma TwoFileExample(dictText: Dict<Node> -> string)
    ensures Loaded([FileA, FileB], [], [], dictText)
            == Ok(Profile(Mapping([]), Mapping([]),
                          [("urcu", ProjectRecord("urcu", HttpFtpSource("https://example/urcu.tar.gz"), " --disable-debug", Mapping([])))]))
  {
    ExampleMerge();
    ExampleProfile(dictText);
  }

  lemma ExampleProjects(dictText: Dict<Node> -> string)
    ensures ProjectsFrom([], [("urcu", UrcuMerged)], [], Mapping([]), dictText)
            == Ok([("urcu", ProjectRecord("urcu", HttpFtpSource("https://example/urcu.tar.gz"), " --disable-debug", Mapping([])))])
  {
    ExampleProject(dictText);
    var p := ProjectRecord("urcu", HttpFtpSource("https://example/urcu.tar.gz"), " --disable-debug", Mapping([]));
    var nodes := [("urcu", UrcuMerged)];
    assert Kept(nodes[0], []);
    assert Set<ProjectRecord>([], "urcu", p) == [("urcu", p)];
    assert nodes[1..] == [];
  }

  lemma ExampleProfile(dictText: Dict<Node> -> string)
    ensures ProfileOf(MergedRoot.entries, [], dictText)
            == Ok(Profile(Mapping([]), Mapping([]),
                          [("urcu", ProjectRecord("urcu", HttpFtpSource("https://example/urcu.tar.gz"), " --disable-debug", Mapping([])))]))
  {
    ExampleProjects(dictText);
    var p := ProjectRecord("urcu", HttpFtpSource("https://example/urcu.tar.gz"), " --disable-debug", Mapping([]));
    assert ProjectNodes(MergedRoot.entries) == Ok([("urcu", UrcuMerged)]);
    assert Keys([("urcu", p)]) == ["urcu"];
    assert ValidateProjects(["urcu"]) == Ok(());
  }
}
