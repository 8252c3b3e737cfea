/**
 * _from_yaml_files and from_yaml_files: parsed documents are merged in
 * order, the overrides are applied in order, and the projects are derived
 * and checked.  Reading and parsing the YAML files is not modelled: the
 * documents arrive parsed.
 */
module Resolve {
  import opened Wrappers
  import opened Dicts
  import opened Tree
  import opened Overrides
  import opened Merge
  import opened Project

  /** Every Override the constructor lets through has a non-empty path. */
  predicate Constructed(overrides: seq<Override>) {
    forall i :: 0 <= i < |overrides| ==> |overrides[i].path| >= 1
  }

  /** The documents merged, left to right, into root. */
  function MergeAll(root: Node, docs: seq<Node>): (r: Result<Node, Error>)
    ensures r.Ok? ==> r.value.Mapping? == root.Mapping?
    decreases |docs|
  {
    if docs == [] then Ok(root)
    else
      var next :- Merged(root, docs[0]);
      MergeAll(next, docs[1..])
  }

  /** The overrides applied, in order, to the mapping root. */
  function ApplyAll(root: Dict<Node>, overrides: seq<Override>): Result<Dict<Node>, Error>
    requires Constructed(overrides)
    decreases |overrides|
  {
    if overrides == [] then Ok(root)
    else
      var o := overrides[0];
      var next :- ApplyAt(root, o.path, o.op, o.rep);
      ApplyAll(next, overrides[1..])
  }

  /** A project entry taken into the profile: not ignored and not null. */
  predicate Kept(entry: (string, Node), ignored: seq<string>) {
    entry.0 !in ignored && !entry.1.Null?
  }

  /** The projects of nodes, in order, added to acc. */
  function ProjectsFrom(acc: Dict<ProjectRecord>, nodes: Dict<Node>, ignored: seq<string>, baseEnv: Node,
                        dictText: Dict<Node> -> string): Result<Dict<ProjectRecord>, Error>
    decreases |nodes|
  {
    if nodes == [] then Ok(acc)
    else if !Kept(nodes[0], ignored) then ProjectsFrom(acc, nodes[1..], ignored, baseEnv, dictText)
    else
      var p :- ProjectFromNode(nodes[0].0, nodes[0].1, baseEnv, dictText);
      ProjectsFrom(Set(acc, nodes[0].0, p), nodes[1..], ignored, baseEnv, dictText)
  }

  /** root['projects'].items(): a KeyError when absent, AttributeError when not a mapping. */
  function ProjectNodes(root: Dict<Node>): (r: Result<Dict<Node>, Error>)
    ensures r.Ok? <==> Get(root, "projects").Some? && Get(root, "projects").value.Mapping?
    ensures r.Ok? ==> Get(root, "projects") == Some(Mapping(r.value))
    ensures r.Err? ==> r.error == if Get(root, "projects").None? then KeyError("projects") else AttributeError
  {
    match Get(root, "projects")
    case None => Err(KeyError("projects"))
    case Some(n) => if n.Mapping? then Ok(n.entries) else Err(AttributeError)
  }

  /** The profile a merged and overridden root describes. */
  function ProfileOf(root: Dict<Node>, ignored: seq<string>, dictText: Dict<Node> -> string): Result<Profile, Error> {
    var buildEnv := Get(root, "build-env").GetOr(Mapping([]));
    var virtEnv := Get(root, "virt-env").GetOr(Mapping([]));
    var nodes :- ProjectNodes(root);
    var projects :- ProjectsFrom([], nodes, ignored, buildEnv, dictText);
    var _ :- ValidateProjects(Keys(projects));
    Ok(Profile(virtEnv, buildEnv, projects))
  }

  /** _from_yaml_files, on parsed documents. */
  function Resolved(docs: seq<Node>, ignored: seq<string>, overrides: seq<Override>,
                    dictText: Dict<Node> -> string): Result<Profile, Error>
    requires Constructed(overrides)
  {
    var root :- MergeAll(Mapping([]), docs);
    var entries :- ApplyAll(root.entries, overrides);
    ProfileOf(entries, ignored, dictText)
  }

  /** from_yaml_files: its two named errors pass through, any other becomes ParseError. */
  function Funnel(e: Error): (r: Error)
    ensures e.UnknownSourceFormat? || e.InvalidProfile? ==> r == e
    ensures !(e.UnknownSourceFormat? || e.InvalidProfile?) ==> r == ParseError(e)
  {
    if e.UnknownSourceFormat? || e.InvalidProfile? then e else ParseError(e)
  }

  function Loaded(docs: seq<Node>, ignored: seq<string>, overrides: seq<Override>,
                  dictText: Dict<Node> -> string): (r: Result<Profile, Error>)
    requires Constructed(overrides)
    ensures r.Err? ==> r.error.UnknownSourceFormat? || r.error.InvalidProfile?
                       || (r.error.ParseError? && !r.error.cause.UnknownSourceFormat? && !r.error.cause.InvalidProfile?)
  {
    match Resolved(docs, ignored, overrides, dictText)
    case Ok(p) => Ok(p)
    case Err(e) => Err(Funnel(e))
  }

  /** The first loop of _from_yaml_files: every document merged into the root. */
  method MergeDocuments(docs: seq<Node>) returns (r: Result<Node, Error>)
    ensures r == MergeAll(Mapping([]), docs)
    ensures r.Ok? ==> r.value.Mapping?
  {
    var root := Mapping([]);
    var i := 0;
    while i < |docs|
      invariant 0 <= i <= |docs| && root.Mapping?
      invariant MergeAll(root, docs[i..]) == MergeAll(Mapping([]), docs)
    {
      assert docs[i..][1..] == docs[i + 1..];
      var next := MergeNodes(root, docs[i]);
      if next.Err? {
        return Err(next.error);
      }
      root := next.value;
      i := i + 1;
    }
    assert docs[i..] == [];
    r := Ok(root);
  }

  /** The second loop: every override applied to the root. */
  method ApplyOverrides(root: Dict<Node>, overrides: seq<Override>) returns (r: Result<Dict<Node>, Error>)
    requires Constructed(overrides)
    ensures r == ApplyAll(root, overrides)
  {
    var entries := root;
    var i := 0;
    while i < |overrides|
      invariant 0 <= i <= |overrides|
      invariant ApplyAll(entries, overrides[i..]) == ApplyAll(root, overrides)
    {
      assert overrides[i..][1..] == overrides[i + 1..];
      var next := Apply(entries, overrides[i]);
      if next.Err? {
        return Err(next.error);
      }
      entries := next.value;
      i := i + 1;
    }
    assert overrides[i..] == [];
    r := Ok(entries);
  }

  /** The third loop: the projects derived, skipping ignored names and null nodes. */
  method CollectProjects(nodes: Dict<Node>, ignored: seq<string>, baseEnv: Node, dictText: Dict<Node> -> string)
    returns (r: Result<Dict<ProjectRecord>, Error>)
    ensures r == ProjectsFrom([], nodes, ignored, baseEnv, dictText)
  {
    var projects: Dict<ProjectRecord> := [];
    var i := 0;
    while i < |nodes|
      invariant 0 <= i <= |nodes|
      invariant ProjectsFrom(projects, nodes[i..], ignored, baseEnv, dictText)
             == ProjectsFrom([], nodes, ignored, baseEnv, dictText)
    {
      var name := nodes[i].0;
      var node := nodes[i].1;
      assert nodes[i..][0] == nodes[i];
      assert nodes[i..][1..] == nodes[i + 1..];
      if name in ignored || node.Null? {
        i := i + 1;
        continue;
      }
      var p := ProjectFromNode(name, node, baseEnv, dictText);
      if p.Err? {
        return Err(p.error);
      }
      projects := Set(projects, name, p.value);
      i := i + 1;
    }
    assert nodes[i..] == [];
    r := Ok(projects);
  }

  /** from_yaml_files: _from_yaml_files, then the exception funnel. */
  method FromYamlFiles(docs: seq<Node>, ignored: seq<string>, overrides: seq<Override>,
                       dictText: Dict<Node> -> string) returns (r: Result<Profile, Error>)
    requires Constructed(overrides)
    ensures r == Loaded(docs, ignored, overrides, dictText)
  {
    var root := MergeDocuments(docs);
    if root.Err? {
      return Err(Funnel(root.error));
    }
    var entries := ApplyOverrides(root.value.entries, overrides);
    if entries.Err? {
      return Err(Funnel(entries.error));
    }
    var buildEnv := Get(entries.value, "build-env").GetOr(Mapping([]));
    var virtEnv := Get(entries.value, "virt-env").GetOr(Mapping([]));
    var nodes := ProjectNodes(entries.value);
    if nodes.Err? {
      return Err(Funnel(nodes.error));
    }
    var projects := CollectProjects(nodes.value, ignored, buildEnv, dictText);
    if projects.Err? {
      return Err(Funnel(projects.error));
    }
    var valid := ValidateProjects(Keys(projects.value));
    if valid.Err? {
      return Err(Funnel(valid.error));
    }
    r := Ok(Profile(virtEnv, buildEnv, projects.value));
  }
}
