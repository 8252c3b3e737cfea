/**
 * The records of profile.py and the derivation of one project from its
 * node in the merged document.
 */
module Project {
  import opened Wrappers
  import opened Dicts
  import opened Text
  import opened Tree

  /** Where a project's source comes from. */
  datatype Source =
    | GitSource(cloneUrl: string, checkout: Node)  // checkout is whatever the document holds there
    | HttpFtpSource(url: string)

  /** A project to build: its configure options and its own build environment. */
  datatype ProjectRecord = ProjectRecord(name: string, source: Source, configure: string, buildEnv: Node)

  /** The resolved profile. */
  datatype Profile = Profile(virtEnv: Node, buildEnv: Node, projects: Dict<ProjectRecord>)

  /** node[key] on a project node: TypeError when it is not a mapping, KeyError when the key is missing. */
  function Subscript(node: Node, key: string): (r: Result<Node, Error>)
    ensures r.Ok? <==> node.Mapping? && key in Keys(node.entries)
    ensures r.Ok? ==> Get(node.entries, key) == Some(r.value)
    ensures r.Err? ==> r.error == if node.Mapping? then KeyError(key) else TypeError
  {
    if !node.Mapping? then Err(TypeError)
    else match Get(node.entries, key)
      case Some(v) => Ok(v)
      case None => Err(KeyError(key))
  }

  /** The source string of a project node, when it has one. */
  function SourceText(node: Node): Option<string> {
    if node.Mapping? && Get(node.entries, "source").Some? && Get(node.entries, "source").value.Str?
    then Some(Get(node.entries, "source").value.s) else None
  }

  predicate IsGitUrl(s: string) {
    StartsWith(s, "git://") || EndsWith(s, ".git")
  }

  predicate IsHttpFtpUrl(s: string) {
    StartsWith(s, "http://") || StartsWith(s, "https://") || StartsWith(s, "ftp://")
  }

  /**
   * _source_from_project_node.  A source that is not a string raises
   * AttributeError (it has no startswith).
   */
  function SourceFromNode(node: Node): (r: Result<Source, Error>)
    ensures !node.Mapping? ==> r == Err(TypeError)
    ensures node.Mapping? && "source" !in Keys(node.entries) ==> r == Err(KeyError("source"))
    ensures SourceText(node).None? && node.Mapping? && "source" in Keys(node.entries) ==> r == Err(AttributeError)
    ensures SourceText(node).Some? ==>
              var s := SourceText(node).value;
              (r.Ok? && r.value.GitSource? <==> IsGitUrl(s) || "checkout" in Keys(node.entries)) &&
              (r.Ok? && r.value.HttpFtpSource? <==> !IsGitUrl(s) && "checkout" !in Keys(node.entries) && IsHttpFtpUrl(s)) &&
              (r.Err? <==> !IsGitUrl(s) && "checkout" !in Keys(node.entries) && !IsHttpFtpUrl(s)) &&
              (r.Ok? && r.value.GitSource? ==> r.value.cloneUrl == s) &&
              (r.Ok? && r.value.HttpFtpSource? ==> r.value.url == s) &&
              (r.Err? ==> r.error == UnknownSourceFormat(s))
    ensures r.Ok? && r.value.GitSource? ==>
              r.value.checkout == match Get(node.entries, "checkout")
                                  case Some(c) => if c.Null? then Str("master") else c
                                  case None => Str("master")
  {
    var source :- Subscript(node, "source");
    if !source.Str? then Err(AttributeError)
    else
      var s := source.s;
      if IsGitUrl(s) || "checkout" in Keys(node.entries) then
        var checkout := Get(node.entries, "checkout");
        Ok(GitSource(s, if checkout.None? || checkout.value.Null? then Str("master") else checkout.value))
      else if IsHttpFtpUrl(s) then Ok(HttpFtpSource(s))
      else Err(UnknownSourceFormat(s))
  }

  /**
   * _merge_envs: a copy of enva updated with envb.  dict.update accepts a
   * mapping, and an empty string as an empty sequence of pairs; any other
   * string is a sequence of one-character items and raises ValueError; any
   * other scalar is not iterable.  A base that is not a mapping has no
   * update method.
   */
  function MergeEnvs(enva: Node, envb: Node): (r: Result<Node, Error>)
    ensures r.Ok? <==> enva.Mapping? && (envb.Mapping? || envb == Str(""))
    ensures r.Err? ==> r.error == if !enva.Mapping? then AttributeError else if envb.Str? then ValueError else TypeError
    ensures r.Ok? ==> r.value.Mapping?
    ensures r.Ok? && envb.Mapping? && Unique(envb.entries) ==>
              forall k :: Get(r.value.entries, k) == if k in Keys(envb.entries) then Get(envb.entries, k) else Get(enva.entries, k)
    ensures r.Ok? && envb == Str("") ==> r.value == enva
  {
    if !enva.Mapping? then Err(AttributeError)
    else match envb
      case Mapping(e) => Ok(Mapping(Update(enva.entries, e)))
      case Str(s) => if s == "" then Ok(enva) else Err(ValueError)
      case _ => Err(TypeError)
  }

  /** _project_from_project_node; str() of a mapping is dictText. */
  function ProjectFromNode(name: string, node: Node, baseEnv: Node, dictText: Dict<Node> -> string): (r: Result<ProjectRecord, Error>)
    ensures SourceFromNode(node).Err? ==> r == Err(SourceFromNode(node).error)
    ensures r.Ok? ==> r.value.name == name && SourceFromNode(node) == Ok(r.value.source)
    ensures r.Ok? && Get(node.entries, "configure") in {None, Some(Null)} ==> r.value.configure == ""
    ensures r.Ok? && Get(node.entries, "configure").Some? && Get(node.entries, "configure") != Some(Null) ==>
              r.value.configure == PyStr(Get(node.entries, "configure").value, dictText)
    ensures SourceFromNode(node).Ok? && "build-env" !in Keys(node.entries) ==>
              r.Ok? && r.value.buildEnv == baseEnv
    ensures SourceFromNode(node).Ok? && Get(node.entries, "build-env") == Some(Null) ==>
              r.Ok? && r.value.buildEnv == Mapping([])
    ensures SourceFromNode(node).Ok? && Get(node.entries, "build-env").Some? && Get(node.entries, "build-env") != Some(Null) ==>
              var env := MergeEnvs(baseEnv, Get(node.entries, "build-env").value);
              (r.Ok? <==> env.Ok?) && (r.Ok? ==> r.value.buildEnv == env.value) && (r.Err? ==> r.error == env.error)
  {
    var source :- SourceFromNode(node);
    var configure := match Get(node.entries, "configure")
      case Some(c) => if c.Null? then "" else PyStr(c, dictText)
      case None => "";
    var buildEnv :- match Get(node.entries, "build-env")
      case None => Ok(baseEnv)
      case Some(e) => if e.Null? then Ok(Mapping([])) else MergeEnvs(baseEnv, e);
    Ok(ProjectRecord(name, source, configure, buildEnv))
  }

  /** The project names the profile format knows. */
  const ValidNames: seq<string> := ["babeltrace", "elfutils", "glib", "libxml2", "lttng-analyses", "lttng-modules",
                                    "lttng-tools", "lttng-ust", "popt", "tracecompass", "urcu"]

  /** _validate_projects: the first name, in order, outside the known set raises InvalidProfile. */
  function ValidateProjects(names: seq<string>): (r: Result<(), Error>)
    ensures r.Ok? <==> forall i :: 0 <= i < |names| ==> names[i] in ValidNames
    ensures r.Err? ==> exists i :: 0 <= i < |names| && names[i] !in ValidNames && r.error == InvalidProfile(names[i])
                                   && forall j :: 0 <= j < i ==> names[j] in ValidNames
  {
    if names == [] then Ok(())
    else if names[0] !in ValidNames then Err(InvalidProfile(names[0]))
    else ValidateProjects(names[1..])
  }
}
