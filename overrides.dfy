/**
 * The override engine of profile.py: an Override names a key path into the
 * merged document and replaces, appends to or removes what sits there.
 */
module Overrides {
  import opened Wrappers
  import opened Dicts
  import opened Tree

  datatype Op = Replace | Append | Remove

  /** The replacement is a string, or None for a removal. */
  datatype Override = Override(path: seq<string>, op: Op, rep: Option<string>)

  /** Override(path, op, rep): an empty path is refused. */
  function NewOverride(path: seq<string>, op: Op, rep: Option<string>): (r: Result<Override, Error>)
    ensures r.Ok? <==> |path| > 0
    ensures r.Ok? ==> r.value == Override(path, op, rep)
    ensures r.Err? ==> r.error == InvalidOverride(EmptyPath)
  {
    if |path| == 0 then Err(InvalidOverride(EmptyPath)) else Ok(Override(path, op, rep))
  }

  function Last(path: seq<string>): string
    requires |path| > 0
  {
    path[|path| - 1]
  }

  /** What `append` puts between the old text and the new one. */
  function Separator(key: string): string {
    if key == "configure" then " " else ""
  }

  /** The node a replacement writes: the string, or None. */
  function RepNode(rep: Option<string>): Node {
    match rep
    case Some(s) => Str(s)
    case None => Null
  }

  /** The operation on key k of the mapping m where the walk ended. */
  function Leaf(m: Dict<Node>, k: string, op: Op, rep: Option<string>): Result<Dict<Node>, Error> {
    match op
    case Replace => Ok(Set(m, k, RepNode(rep)))
    case Append =>
      (match (Get(m, k).GetOr(Str("")), rep)
       case (Str(prior), Some(r)) => Ok(Set(m, k, Str(prior + Separator(k) + r)))
       case _ => Err(TypeError))
    case Remove => if k in Keys(m) then Ok(Del(m, k)) else Err(KeyError(k))
  }

  /** A fresh chain of mappings named by keys, with the leaf written at its end. */
  function Create(keys: seq<string>, op: Op, rep: Option<string>): Result<Dict<Node>, Error>
    requires |keys| >= 1
    decreases |keys|
  {
    if |keys| == 1 then Leaf([], keys[0], op, rep)
    else
      var sub :- Create(keys[1..], op, rep);
      Ok([(keys[0], Mapping(sub))])
  }

  /**
   * The walk stopped in m because path[0] is absent and more keys follow:
   * replace and append create the rest of the path, remove deletes the
   * last key of the path from m itself.
   */
  function Below(m: Dict<Node>, path: seq<string>, op: Op, rep: Option<string>): Result<Dict<Node>, Error>
    requires |path| >= 2
  {
    if op == Remove then Leaf(m, Last(path), op, rep)
    else
      var chain :- Create(path[1..], op, rep);
      Ok(Set(m, path[0], Mapping(chain)))
  }

  /** The work done at the node where the walk stopped. */
  function Stop(m: Dict<Node>, path: seq<string>, op: Op, rep: Option<string>): Result<Dict<Node>, Error>
    requires |path| >= 1
  {
    if |path| == 1 then Leaf(m, path[0], op, rep) else Below(m, path, op, rep)
  }

  /** Override.apply on the mapping m, as a value. */
  function ApplyAt(m: Dict<Node>, path: seq<string>, op: Op, rep: Option<string>): Result<Dict<Node>, Error>
    requires |path| >= 1
    decreases |path|
  {
    if |path| == 1 then Leaf(m, path[0], op, rep)
    else match Get<Node>(m, path[0])
      case Some(Mapping(sub)) =>
        var sub' :- ApplyAt(sub, path[1..], op, rep);
        Ok(Set(m, path[0], Mapping(sub')))
      case Some(_) => Err(InvalidOverride(NotAMapping(path[0])))
      case None => Below(m, path, op, rep)
  }

  /** The mapping reached from m through the keys of p, each naming a mapping. */
  function Descend(m: Dict<Node>, p: seq<string>): Option<Dict<Node>>
    decreases |p|
  {
    if p == [] then Some(m)
    else match Get<Node>(m, p[0])
      case Some(Mapping(sub)) => Descend(sub, p[1..])
      case _ => None
  }

  /** m with the mapping reached through p replaced by c. */
  function Graft(m: Dict<Node>, p: seq<string>, c: Dict<Node>): Dict<Node>
    decreases |p|
  {
    if p == [] then c
    else match Get<Node>(m, p[0])
      case Some(Mapping(sub)) => Set(m, p[0], Mapping(Graft(sub, p[1..], c)))
      case _ => m
  }

  /**
   * Override.apply.  The loop is the walk of lines 149-160: it descends
   * while the next key of path[..|path|-1] is present, and fails on a
   * present key that does not hold a mapping.  The in-place writes of
   * lines 163-184 become a Graft of the updated node into the root.
   */
  method Apply(root: Dict<Node>, o: Override) returns (r: Result<Dict<Node>, Error>)
    requires |o.path| >= 1
    ensures r == ApplyAt(root, o.path, o.op, o.rep)
  {
    var path := o.path;
    var n := |path|;
    var common := root;
    var depth := 0;
    while depth < n - 1
      invariant 0 <= depth <= n - 1
      invariant Descend(root, path[..depth]) == Some(common)
    {
      var next := Get(common, path[depth]);
      if next.None? {
        break;
      }
      if !next.value.Mapping? {
        ApplyThrough(root, path, depth, common, o.op, o.rep);
        return Err(InvalidOverride(NotAMapping(path[depth])));
      }
      DescendStep(root, path[..depth], common, path[depth]);
      assert path[..depth + 1] == path[..depth] + [path[depth]];
      common := next.value.entries;
      depth := depth + 1;
    }
    var remaining := path[depth..];
    var updated := Stop(common, remaining, o.op, o.rep);
    ApplyThrough(root, path, depth, common, o.op, o.rep);
    StopIsApplyAt(common, remaining, o.op, o.rep);
    if updated.Err? {
      return Err(updated.error);
    }
    r := Ok(Graft(root, path[..depth], updated.value));
  }

  lemma DescendStep(m: Dict<Node>, p: seq<string>, c: Dict<Node>, k: string)
    requires Descend(m, p) == Some(c)
    requires Get(c, k).Some? && Get(c, k).value.Mapping?
    ensures Descend(m, p + [k]) == Some(Get(c, k).value.entries)
    decreases |p|
  {
    if p != [] {
      assert (p + [k])[1..] == p[1..] + [k];
      DescendStep(Get(m, p[0]).value.entries, p[1..], c, k);
    }
  }

  /** Where the walk stops, ApplyAt does the work of Stop. */
  lemma StopIsApplyAt(m: Dict<Node>, path: seq<string>, op: Op, rep: Option<string>)
    requires |path| == 1 || (|path| >= 2 && path[0] !in Keys(m))
    ensures ApplyAt(m, path, op, rep) == Stop(m, path, op, rep)
  {
  }

  /** Applying through an existing chain of mappings is applying below it and grafting. */
  lemma {:induction false} ApplyThrough(m: Dict<Node>, path: seq<string>, d: nat, c: Dict<Node>, op: Op, rep: Option<string>)
    requires d < |path|
    requires Descend(m, path[..d]) == Some(c)
    ensures ApplyAt(m, path, op, rep) ==
              match ApplyAt(c, path[d..], op, rep)
              case Ok(c') => Ok(Graft(m, path[..d], c'))
              case Err(e) => Err(e)
    decreases d
  {
    if d == 0 {
      assert path[d..] == path;
    } else {
      var sub := Get(m, path[0]).value.entries;
      assert path[..d][1..] == path[1..][..d - 1];
      assert path[1..][d - 1..] == path[d..];
      ApplyThrough(sub, path[1..], d - 1, c, op, rep);
    }
  }
}

/** Properties of Override.apply, stated on the tree it returns. */
module OverrideFacts {
  import opened Wrappers
  import opened Dicts
  import opened Tree
  import opened Overrides

  /** The walk along path[..|path|-1] meets a present key that does not hold a mapping. */
  predicate Blocked(m: Dict<Node>, path: seq<string>)
    decreases |path|
  {
    |path| >= 2 &&
    match Get<Node>(m, path[0])
    case Some(Mapping(sub)) => Blocked(sub, path[1..])
    case Some(_) => true
    case None => false
  }

  /** The walk along path[..|path|-1] stops at an absent key before reaching the last key. */
  predicate StopsShort(m: Dict<Node>, path: seq<string>)
    decreases |path|
  {
    |path| >= 2 &&
    match Get<Node>(m, path[0])
    case Some(Mapping(sub)) => StopsShort(sub, path[1..])
    case Some(_) => false
    case None => true
  }

  /** q leaves path: at some index both have, they name different keys. */
  predicate Diverges(q: seq<string>, path: seq<string>)
    decreases |q|
  {
    |q| > 0 && |path| > 0 && (q[0] != path[0] || Diverges(q[1..], path[1..]))
  }

  /** Looking up through a mapping: one step of Lookup. */
  lemma LookupStep(m: Dict<Node>, q: seq<string>)
    requires |q| > 0
    ensures Lookup(Mapping(m), q) == match Get(m, q[0]) case Some(v) => Lookup(v, q[1..]) case None => None
  {
  }

  /** A present key holding a string or null on the way raises InvalidOverride naming it. */
  lemma {:induction false} NonMappingOnWalkRaises(m: Dict<Node>, path: seq<string>, d: nat, c: Dict<Node>, op: Op, rep: Option<string>)
    requires d < |path| - 1
    requires Descend(m, path[..d]) == Some(c)
    requires Get(c, path[d]).Some? && !Get(c, path[d]).value.Mapping?
    ensures ApplyAt(m, path, op, rep) == Err(InvalidOverride(NotAMapping(path[d])))
  {
    ApplyThrough(m, path, d, c, op, rep);
    assert path[d..][0] == path[d];
  }

  /** Nothing but a blocked walk makes apply raise InvalidOverride. */
  lemma {:induction false} BlockedRaises(m: Dict<Node>, path: seq<string>, op: Op, rep: Option<string>)
    requires |path| >= 1
    ensures Blocked(m, path) <==> (ApplyAt(m, path, op, rep).Err? && ApplyAt(m, path, op, rep).error.InvalidOverride?)
    decreases |path|
  {
    if |path| >= 2 {
      match Get<Node>(m, path[0])
      case Some(Mapping(sub)) => BlockedRaises(sub, path[1..], op, rep);
      case Some(_) =>
      case None => CreateNeverInvalid(path[1..], op, rep); LeafNeverInvalid(m, Last(path), op, rep);
    }
    else {
      LeafNeverInvalid(m, path[0], op, rep);
    }
  }

  lemma LeafNeverInvalid(m: Dict<Node>, k: string, op: Op, rep: Option<string>)
    ensures Leaf(m, k, op, rep).Err? ==> !Leaf(m, k, op, rep).error.InvalidOverride?
  {
  }

  lemma {:induction false} CreateNeverInvalid(keys: seq<string>, op: Op, rep: Option<string>)
    requires |keys| >= 1
    ensures Create(keys, op, rep).Err? ==> !Create(keys, op, rep).error.InvalidOverride?
    decreases |keys|
  {
    LeafNeverInvalid([], keys[0], op, rep);
    if |keys| > 1 {
      CreateNeverInvalid(keys[1..], op, rep);
    }
  }

  /** The chain Create builds holds, at each level, only the next key of the path. */
  lemma {:induction false} CreateOffPath(keys: seq<string>, op: Op, rep: Option<string>, q: seq<string>)
    requires |keys| >= 1 && Create(keys, op, rep).Ok?
    requires Diverges(q, keys)
    ensures Lookup(Mapping(Create(keys, op, rep).value), q) == None
    decreases |keys|
  {
    var c := Create(keys, op, rep).value;
    if |keys| == 1 {
      assert Keys(c) == [keys[0]] by {
        assert Keys<Node>([]) == [];
      }
    } else {
      var sub := Create(keys[1..], op, rep).value;
      assert c == [(keys[0], Mapping(sub))];
      if q[0] == keys[0] {
        CreateOffPath(keys[1..], op, rep, q[1..]);
      }
    }
  }

  /** Creating a chain fails exactly when writing its leaf into an empty mapping does. */
  lemma {:induction false} CreateOk(keys: seq<string>, op: Op, rep: Option<string>)
    requires |keys| >= 1
    ensures Create(keys, op, rep).Ok? <==> Leaf([], Last(keys), op, rep).Ok?
    decreases |keys|
  {
    if |keys| > 1 {
      CreateOk(keys[1..], op, rep);
      assert Last(keys[1..]) == Last(keys);
    }
  }

  /** Create builds a mapping at every prefix of keys and puts the leaf at their end. */
  lemma {:induction false} CreateReaches(keys: seq<string>, op: Op, rep: Option<string>)
    requires |keys| >= 1 && Create(keys, op, rep).Ok?
    ensures Leaf([], Last(keys), op, rep).Ok?
    ensures Lookup(Mapping(Create(keys, op, rep).value), keys) == Lookup(Mapping(Leaf([], Last(keys), op, rep).value), [Last(keys)])
    ensures forall j :: 0 <= j < |keys| ==> (Lookup(Mapping(Create(keys, op, rep).value), keys[..j]).Some?
                                         && Lookup(Mapping(Create(keys, op, rep).value), keys[..j]).value.Mapping?)
    decreases |keys|
  {
    var c := Create(keys, op, rep).value;
    if |keys| > 1 {
      var sub := Create(keys[1..], op, rep).value;
      CreateReaches(keys[1..], op, rep);
      assert Last(keys[1..]) == Last(keys);
      forall j | 0 <= j < |keys|
        ensures Lookup(Mapping(c), keys[..j]).Some? && Lookup(Mapping(c), keys[..j]).value.Mapping?
      {
        if j > 0 {
          assert keys[..j][1..] == keys[1..][..j - 1];
        }
      }
    } else {
      assert keys[..0] == [];
    }
  }

  /**
   * replace: unless the walk is blocked it succeeds, puts rep at path,
   * and leaves a mapping at every proper prefix of path (the missing ones
   * are created).
   */
  lemma {:induction false} ReplaceWrites(m: Dict<Node>, path: seq<string>, rep: Option<string>)
    requires |path| >= 1 && !Blocked(m, path)
    ensures ApplyAt(m, path, Replace, rep).Ok?
    ensures Lookup(Mapping(ApplyAt(m, path, Replace, rep).value), path) == Some(RepNode(rep))
    ensures forall j :: 0 <= j < |path| ==> (Lookup(Mapping(ApplyAt(m, path, Replace, rep).value), path[..j]).Some?
                                         && Lookup(Mapping(ApplyAt(m, path, Replace, rep).value), path[..j]).value.Mapping?)
    decreases |path|
  {
    if |path| > 1 {
      match Get<Node>(m, path[0])
      case Some(Mapping(sub)) =>
        ReplaceWrites(sub, path[1..], rep);
        var r := ApplyAt(m, path, Replace, rep).value;
        var sub' := ApplyAt(sub, path[1..], Replace, rep).value;
        assert Lookup(Mapping(r), path) == Lookup(Mapping(sub'), path[1..]);
      case None =>
        CreateOk(path[1..], Replace, rep);
        CreateReaches(path[1..], Replace, rep);
        assert Last(path[1..]) == Last(path);
    }
    WritesAlongPath(m, path, Replace, rep);
  }

  /**
   * The shared part of replace and append: on success a mapping sits at
   * every proper prefix of path, and the node at path is the one the leaf
   * operation wrote.
   */
  lemma {:induction false} WritesAlongPath(m: Dict<Node>, path: seq<string>, op: Op, rep: Option<string>)
    requires |path| >= 1 && op != Remove && ApplyAt(m, path, op, rep).Ok?
    ensures forall j :: 0 <= j < |path| ==> (Lookup(Mapping(ApplyAt(m, path, op, rep).value), path[..j]).Some?
                                         && Lookup(Mapping(ApplyAt(m, path, op, rep).value), path[..j]).value.Mapping?)
    decreases |path|
  {
    var r := ApplyAt(m, path, op, rep).value;
    assert path[..0] == [];
    if |path| > 1 {
      var child: Dict<Node>;
      match Get<Node>(m, path[0]) {
        case Some(Mapping(sub)) =>
          WritesAlongPath(sub, path[1..], op, rep);
          child := ApplyAt(sub, path[1..], op, rep).value;
        case None =>
          CreateReaches(path[1..], op, rep);
          child := Create(path[1..], op, rep).value;
      }
      assert r == Set(m, path[0], Mapping(child));
      forall j | 0 < j < |path|
        ensures Lookup(Mapping(r), path[..j]).Some? && Lookup(Mapping(r), path[..j]).value.Mapping?
      {
        PrefixThrough(r, child, path, j);
      }
    }
  }

  /** Below a key that holds a mapping, a walk along path continues in that mapping. */
  lemma PrefixThrough(m: Dict<Node>, child: Dict<Node>, path: seq<string>, j: nat)
    requires 0 < j <= |path| && Get(m, path[0]) == Some(Mapping(child))
    ensures Lookup(Mapping(m), path[..j]) == Lookup(Mapping(child), path[1..][..j - 1])
  {
    assert path[..j][0] == path[0];
    assert path[..j][1..] == path[1..][..j - 1];
  }

  /**
   * append: unless the walk is blocked, it succeeds exactly when the value
   * at path (or '' when there is none) is a string and rep is one; the new
   * value is the old text, a space when the key is configure, then rep.
   */
  lemma {:induction false} AppendWrites(m: Dict<Node>, path: seq<string>, rep: Option<string>)
    requires |path| >= 1 && !Blocked(m, path)
    ensures var prior := Lookup(Mapping(m), path).GetOr(Str(""));
            ApplyAt(m, path, Append, rep).Ok? <==> (prior.Str? && rep.Some?)
    ensures var prior := Lookup(Mapping(m), path).GetOr(Str(""));
            ApplyAt(m, path, Append, rep).Ok? ==>
              Lookup(Mapping(ApplyAt(m, path, Append, rep).value), path) == Some(Str(prior.s + Separator(Last(path)) + rep.value))
    decreases |path|
  {
    if |path| > 1 {
      match Get<Node>(m, path[0])
      case Some(Mapping(sub)) =>
        AppendWrites(sub, path[1..], rep);
        assert Last(path[1..]) == Last(path);
      case None =>
        CreateOk(path[1..], Append, rep);
        if rep.Some? {
          CreateReaches(path[1..], Append, rep);
          assert Last(path[1..]) == Last(path);
        }
    }
  }

  /**
   * remove, with every key before the last one present: it succeeds
   * exactly when the last key is present, deletes it, and otherwise
   * raises KeyError for that key.
   */
  lemma {:induction false} RemoveWholePath(m: Dict<Node>, path: seq<string>, rep: Option<string>)
    requires |path| >= 1 && !Blocked(m, path) && !StopsShort(m, path)
    ensures ApplyAt(m, path, Remove, rep).Ok? <==> Lookup(Mapping(m), path).Some?
    ensures ApplyAt(m, path, Remove, rep).Err? ==> ApplyAt(m, path, Remove, rep).error == KeyError(Last(path))
    ensures ApplyAt(m, path, Remove, rep).Ok? ==> Lookup(Mapping(ApplyAt(m, path, Remove, rep).value), path) == None
    decreases |path|
  {
    if |path| > 1 {
      var sub := Get(m, path[0]).value.entries;
      RemoveWholePath(sub, path[1..], rep);
      assert Last(path[1..]) == Last(path);
    }
  }

  /**
   * remove, when the walk stops at an absent key before the last one:
   * the last key of path is deleted from the mapping where the walk
   * stopped, whatever it holds there, or KeyError is raised.
   */
  lemma RemoveStopsShort(m: Dict<Node>, path: seq<string>, d: nat, c: Dict<Node>, rep: Option<string>)
    requires d < |path| - 1
    requires Descend(m, path[..d]) == Some(c) && path[d] !in Keys(c)
    ensures ApplyAt(m, path, Remove, rep) ==
              if Last(path) in Keys(c) then Ok(Graft(m, path[..d], Del(c, Last(path))))
              else Err(KeyError(Last(path)))
  {
    ApplyThrough(m, path, d, c, Remove, rep);
    assert path[d..][0] == path[d];
    assert Last(path[d..]) == Last(path);
  }

  /** The remove quirk: `!a.b.x` with no `a.b` deletes the `x` beside it in `a`. */
  lemma RemoveQuirkExample()
    ensures ApplyAt([("a", Mapping([("x", Str("1")), ("y", Str("2"))]))], ["a", "b", "x"], Remove, None)
         == Ok([("a", Mapping([("y", Str("2"))]))])
  {
    var inner: Dict<Node> := [("x", Str("1")), ("y", Str("2"))];
    var root: Dict<Node> := [("a", Mapping(inner))];
    assert ["a", "b", "x"][..1] == ["a"];
    assert Descend(root, ["a"]) == Some(inner);
    assert Keys(inner) == ["x", "y"];
    RemoveStopsShort(root, ["a", "b", "x"], 1, inner, None);
    var left: Dict<Node> := [("y", Str("2"))];
    assert Del(inner, "x") == left;
    assert Graft(inner, [], left) == left;
    assert Graft(root, ["a"], left) == Set(root, "a", Mapping(left));
    assert Set(root, "a", Mapping(left)) == [("a", Mapping(left))];
  }

  /**
   * Keys off the path keep their values: replace and append always, and
   * remove when it deletes at the end of the path.
   */
  lemma {:induction false} OffPathUnchanged(m: Dict<Node>, path: seq<string>, op: Op, rep: Option<string>, q: seq<string>)
    requires |path| >= 1 && ApplyAt(m, path, op, rep).Ok?
    requires op != Remove || !StopsShort(m, path)
    requires Diverges(q, path)
    ensures Lookup(Mapping(ApplyAt(m, path, op, rep).value), q) == Lookup(Mapping(m), q)
    decreases |path|
  {
    var r := ApplyAt(m, path, op, rep).value;
    if |path| == 1 {
      assert q[0] != path[0];
    } else {
      match Get<Node>(m, path[0])
      case Some(Mapping(sub)) =>
        if q[0] == path[0] {
          OffPathUnchanged(sub, path[1..], op, rep, q[1..]);
        }
      case None =>
        if q[0] == path[0] {
          CreateOffPath(path[1..], op, rep, q[1..]);
        }
    }
  }

  /**
   * Grafting c' where Descend finds c, when c' differs from c at most under
   * the key k, changes nothing off the path p + [k].
   */
  lemma {:induction false} GraftBesideKey(m: Dict<Node>, p: seq<string>, c: Dict<Node>, c': Dict<Node>, k: string,
                                          q: seq<string>)
    requires Descend(m, p) == Some(c)
    requires forall k' :: k' != k ==> Get(c', k') == Get(c, k')
    requires Diverges(q, p + [k])
    ensures Lookup(Mapping(Graft(m, p, c')), q) == Lookup(Mapping(m), q)
    decreases |p|
  {
    if p == [] {
      assert [] + [k] == [k];
      assert q[0] != k;
    } else if q[0] == p[0] {
      assert (p + [k])[1..] == p[1..] + [k];
      GraftBesideKey(Get(m, p[0]).value.entries, p[1..], c, c', k, q[1..]);
    }
  }

  /**
   * A remove that stops short deletes Last(path) in the deepest mapping c
   * the walk reached, at path[..d], and changes nothing off path[..d] + [Last(path)].
   */
  lemma RemoveShortOffPath(m: Dict<Node>, path: seq<string>, d: nat, c: Dict<Node>, rep: Option<string>,
                           q: seq<string>)
    requires d < |path| - 1
    requires Descend(m, path[..d]) == Some(c) && path[d] !in Keys(c)
    requires ApplyAt(m, path, Remove, rep).Ok?
    requires Diverges(q, path[..d] + [Last(path)])
    ensures Lookup(Mapping(ApplyAt(m, path, Remove, rep).value), q) == Lookup(Mapping(m), q)
  {
    RemoveStopsShort(m, path, d, c, rep);
    GraftBesideKey(m, path[..d], c, Del(c, Last(path)), Last(path), q);
  }

  /** Graft puts c where Descend finds the old mapping. */
  lemma {:induction false} GraftReaches(m: Dict<Node>, p: seq<string>, c: Dict<Node>)
    requires Descend(m, p).Some?
    ensures Descend(Graft(m, p, c), p) == Some(c)
    decreases |p|
  {
    if p != [] {
      GraftReaches(Get(m, p[0]).value.entries, p[1..], c);
    }
  }

  /** Graft changes nothing off p. */
  lemma {:induction false} GraftOffPath(m: Dict<Node>, p: seq<string>, c: Dict<Node>, q: seq<string>)
    requires Descend(m, p).Some? && Diverges(q, p)
    ensures Lookup(Mapping(Graft(m, p, c)), q) == Lookup(Mapping(m), q)
    decreases |p|
  {
    if q[0] == p[0] {
      GraftOffPath(Get(m, p[0]).value.entries, p[1..], c, q[1..]);
    }
  }

  /** apply keeps the tree well formed: no key appears twice in a mapping. */
  lemma {:induction false} ApplyKeepsWellFormed(m: Dict<Node>, path: seq<string>, op: Op, rep: Option<string>)
    requires |path| >= 1 && WellFormed(Mapping(m)) && ApplyAt(m, path, op, rep).Ok?
    ensures WellFormed(Mapping(ApplyAt(m, path, op, rep).value))
    decreases |path|
  {
    if |path| == 1 {
      LeafKeepsWellFormed(m, path[0], op, rep);
    } else {
      match Get<Node>(m, path[0])
      case Some(Mapping(sub)) =>
        GetWellFormed(m, path[0]);
        ApplyKeepsWellFormed(sub, path[1..], op, rep);
        SetWellFormed(m, path[0], Mapping(ApplyAt(sub, path[1..], op, rep).value));
      case None =>
        if op == Remove {
          LeafKeepsWellFormed(m, Last(path), op, rep);
        } else {
          CreateWellFormed(path[1..], op, rep);
          SetWellFormed(m, path[0], Mapping(Create(path[1..], op, rep).value));
        }
    }
  }

  lemma LeafKeepsWellFormed(m: Dict<Node>, k: string, op: Op, rep: Option<string>)
    requires WellFormed(Mapping(m)) && Leaf(m, k, op, rep).Ok?
    ensures WellFormed(Mapping(Leaf(m, k, op, rep).value))
  {
    match op
    case Replace => SetWellFormed(m, k, RepNode(rep));
    case Append =>
      var prior := Get(m, k).GetOr(Str(""));
      SetWellFormed(m, k, Str(prior.s + Separator(k) + rep.value));
    case Remove => DelWellFormed(m, k);
  }

  lemma {:induction false} CreateWellFormed(keys: seq<string>, op: Op, rep: Option<string>)
    requires |keys| >= 1 && Create(keys, op, rep).Ok?
    ensures WellFormed(Mapping(Create(keys, op, rep).value))
    decreases |keys|
  {
    if |keys| == 1 {
      LeafKeepsWellFormed([], keys[0], op, rep);
    } else {
      CreateWellFormed(keys[1..], op, rep);
    }
  }
}
