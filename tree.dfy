/**
 * The document tree: what yaml.load returns for a profile document,
 * and the exceptions the profile code can raise.
 */
module Tree {
  import opened Wrappers
  import opened Dicts

  datatype Node =
    | Str(s: string)               // a YAML string
    | Scalar(text: string)         // any other YAML scalar (int, float, bool, date), as str() prints it
    | Mapping(entries: Dict<Node>) // a YAML mapping, i.e. a Python dict
    | Null                         // YAML null, i.e. None

  /** What an Override may be asked to overlook (profile.py:124-125, 153-155). */
  datatype OverrideProblem = EmptyPath | NotAMapping(key: string)

  /** The exceptions raised while a profile is resolved. */
  datatype Error =
    | UnknownSourceFormat(source: string)
    | InvalidProfile(name: string)
    | InvalidOverride(problem: OverrideProblem)
    | KeyError(key: string)
    | TypeError
    | AttributeError
    | ValueError
    | ParseError(cause: Error)

  /** The node reached from n by following the keys of q through mappings. */
  function Lookup(n: Node, q: seq<string>): Option<Node>
    decreases |q|
  {
    if q == [] then Some(n)
    else match n
      case Mapping(m) => (match Get(m, q[0])
                          case Some(v) => Lookup(v, q[1..])
                          case None => None)
      case _ => None
  }

  /** Every mapping in the tree has distinct keys, as parsed YAML has. */
  predicate WellFormed(n: Node) {
    match n
    case Mapping(m) => Unique(m) && forall i :: 0 <= i < |m| ==> WellFormed(m[i].1)
    case _ => true
  }

  /**
   * str(n).  For a mapping Python prints its dict repr; that builtin is not
   * modelled and is passed in as dictText.
   */
  function PyStr(n: Node, dictText: Dict<Node> -> string): string {
    match n
    case Str(s) => s
    case Scalar(t) => t
    case Mapping(m) => dictText(m)
    case Null => "None"
  }

  /** A value found in a well-formed mapping is well formed. */
  lemma GetWellFormed(m: Dict<Node>, k: string)
    requires WellFormed(Mapping(m)) && Get(m, k).Some?
    ensures WellFormed(Get(m, k).value)
  {
    var j :| 0 <= j < |m| && m[j] == (k, Get(m, k).value);
  }

  /** Assigning a well-formed value keeps a mapping well formed. */
  lemma SetWellFormed(m: Dict<Node>, k: string, v: Node)
    requires WellFormed(Mapping(m)) && WellFormed(v)
    ensures WellFormed(Mapping(Set(m, k, v)))
  {
    var r := Set(m, k, v);
    SetKeepsUnique(m, k, v);
    SetEntries(m, k, v);
    forall i | 0 <= i < |r| ensures WellFormed(r[i].1) {
      assert r[i] in r;
      if r[i] in m {
        var j :| 0 <= j < |m| && m[j] == r[i];
      }
    }
  }

  /** Deleting a key keeps a mapping well formed. */
  lemma DelWellFormed(m: Dict<Node>, k: string)
    requires WellFormed(Mapping(m))
    ensures WellFormed(Mapping(Del(m, k)))
  {
    var r := Del(m, k);
    DelKeepsUnique(m, k);
    forall i | 0 <= i < |r| ensures WellFormed(r[i].1) {
      assert r[i] in r;
      var j :| 0 <= j < |m| && m[j] == r[i];
    }
  }
}
