/**
 * _merge_nodes: a later profile document is deep-merged into the document
 * built so far.  The Python code mutates base in place; here the merge
 * returns the new base.
 */
module Merge {
  import opened Wrappers
  import opened Dicts
  import opened Tree

  /**
   * The merge of patch into base.  Two mappings merge key by key, in the
   * patch's order; anything else leaves base as it is.
   */
  function Merged(base: Node, patch: Node): (r: Result<Node, Error>)
    ensures !(base.Mapping? && patch.Mapping?) ==> r == Ok(base)
    ensures r.Ok? ==> r.value.Mapping? == base.Mapping?
    ensures r.Err? ==> r.error == TypeError
    decreases patch, 3, 0
  {
    if base.Mapping? && patch.Mapping? then
      var entries :- MergeFrom(base.entries, patch, 0);
      Ok(Mapping(entries))
    else Ok(base)
  }

  /** The entries patch.entries[i..] merged, one after the other, into b. */
  function MergeFrom(b: Dict<Node>, patch: Node, i: nat): (r: Result<Dict<Node>, Error>)
    requires patch.Mapping? && i <= |patch.entries|
    ensures r.Err? ==> r.error == TypeError
    decreases patch, 2, |patch.entries| - i
  {
    if i == |patch.entries| then Ok(b)
    else
      var b' :- MergeEntry(b, patch, i);
      MergeFrom(b', patch, i + 1)
  }

  /** One step of the merge: key i of the patch receives its new value. */
  function MergeEntry(b: Dict<Node>, patch: Node, i: nat): (r: Result<Dict<Node>, Error>)
    requires patch.Mapping? && i < |patch.entries|
    ensures r.Err? ==> r.error == TypeError
    decreases patch, 1, 0
  {
    var k := patch.entries[i].0;
    var v := patch.entries[i].1;
    assert v < patch;
    var x :- Incoming(Get(b, k), k, v);
    Ok(Set(b, k, x))
  }

  /**
   * The value key k receives when the patch gives it v and base held prior
   * (None when the key is absent): a mapping meeting an existing value is
   * merged into it; a string configure is appended after one space to the
   * old text, or to '' when the key is new (a non-string old value raises
   * TypeError); any other value is v itself.
   */
  function Incoming(prior: Option<Node>, k: string, v: Node): (r: Result<Node, Error>)
    ensures r.Err? ==> r.error == TypeError
    decreases v, 4, 0
  {
    if v.Mapping? && prior.Some? then Merged(prior.value, v)
    else if k == "configure" && v.Str? then
      match prior.GetOr(Str(""))
      case Str(text) => Ok(Str(text + " " + v.s))
      case _ => Err(TypeError)
    else Ok(v)
  }

  /** A step that succeeds hands the rest of the merge its new base. */
  lemma StepSucceeds(b: Dict<Node>, b': Dict<Node>, patch: Node, i: nat)
    requires patch.Mapping? && i < |patch.entries| && MergeEntry(b, patch, i) == Ok(b')
    ensures MergeFrom(b, patch, i) == MergeFrom(b', patch, i + 1)
  {
  }

  /** A step that fails makes the whole merge fail with its error. */
  lemma StepFails(b: Dict<Node>, patch: Node, i: nat)
    requires patch.Mapping? && i < |patch.entries| && MergeEntry(b, patch, i).Err?
    ensures MergeFrom(b, patch, i) == Err(MergeEntry(b, patch, i).error)
  {
  }

  /**
   * _merge_nodes.  The loop is the `for k, v in patch.items()` of the
   * source; each step leaves the rest of the fold unchanged.
   */
  method MergeNodes(base: Node, patch: Node) returns (r: Result<Node, Error>)
    ensures r == Merged(base, patch)
    decreases patch
  {
    if !(base.Mapping? && patch.Mapping?) {
      return Ok(base);
    }
    var b := base.entries;
    var i := 0;
    while i < |patch.entries|
      invariant 0 <= i <= |patch.entries|
      invariant MergeFrom(b, patch, i) == MergeFrom(base.entries, patch, 0)
    {
      var k := patch.entries[i].0;
      var v := patch.entries[i].1;
      assert v < patch;
      var prior := Get(b, k);
      var x: Result<Node, Error>;
      if v.Mapping? && prior.Some? {
        x := MergeNodes(prior.value, v);
      } else if k == "configure" && v.Str? {
        var text := prior.GetOr(Str(""));
        x := if text.Str? then Ok(Str(text.s + " " + v.s)) else Err(TypeError);
      } else {
        x := Ok(v);
      }
      assert x == Incoming(prior, k, v);
      if x.Err? {
        StepFails(b, patch, i);
        return Err(x.error);
      }
      var next := Set(b, k, x.value);
      StepSucceeds(b, next, patch, i);
      b, i := next, i + 1;
    }
    r := Ok(Mapping(b));
  }
}

/** What a merge does to each key. */
module MergeFacts {
  import opened Wrappers
  import opened Dicts
  import opened Tree
  import opened Merge

  /** One step of the fold. */
  lemma FoldStep(b: Dict<Node>, patch: Node, i: nat)
    requires patch.Mapping? && i < |patch.entries| && MergeFrom(b, patch, i).Ok?
    ensures MergeEntry(b, patch, i).Ok?
    ensures MergeFrom(b, patch, i) == MergeFrom(MergeEntry(b, patch, i).value, patch, i + 1)
  {
  }

  /** A merge step changes only the key it merges. */
  lemma EntryFrame(b: Dict<Node>, patch: Node, i: nat, k: string)
    requires patch.Mapping? && i < |patch.entries| && MergeEntry(b, patch, i).Ok?
    requires k != patch.entries[i].0
    ensures Get(MergeEntry(b, patch, i).value, k) == Get(b, k)
  {
  }

  /** A merge step at key k depends on base only through the value of k. */
  lemma EntryLocal(b: Dict<Node>, c: Dict<Node>, patch: Node, j: nat)
    requires patch.Mapping? && j < |patch.entries|
    requires Get(b, patch.entries[j].0) == Get(c, patch.entries[j].0)
    ensures MergeEntry(b, patch, j).Ok? == MergeEntry(c, patch, j).Ok?
    ensures MergeEntry(b, patch, j).Ok? ==>
              Get(MergeEntry(b, patch, j).value, patch.entries[j].0) == Get(MergeEntry(c, patch, j).value, patch.entries[j].0)
  {
  }

  /** Keys the rest of the patch does not name keep their value through the fold. */
  lemma {:induction false} FoldFrame(b: Dict<Node>, patch: Node, i: nat, k: string)
    requires patch.Mapping? && i <= |patch.entries| && MergeFrom(b, patch, i).Ok?
    requires forall j :: i <= j < |patch.entries| ==> patch.entries[j].0 != k
    ensures Get(MergeFrom(b, patch, i).value, k) == Get(b, k)
    decreases |patch.entries| - i
  {
    if i < |patch.entries| {
      FoldFrame(MergeEntry(b, patch, i).value, patch, i + 1, k);
    }
  }

  /**
   * When no other key of patch.entries[i..] is key j's, the fold from i
   * leaves key j as the step for key j alone would leave it in b.
   */
  lemma {:induction false} FoldAt(b: Dict<Node>, patch: Node, i: nat, j: nat)
    requires patch.Mapping? && i <= j < |patch.entries|
    requires forall x :: i <= x < |patch.entries| && x != j ==> patch.entries[x].0 != patch.entries[j].0
    requires MergeFrom(b, patch, i).Ok?
    ensures MergeEntry(b, patch, j).Ok?
    ensures Get(MergeFrom(b, patch, i).value, patch.entries[j].0) == Get(MergeEntry(b, patch, j).value, patch.entries[j].0)
    decreases j - i, 1
  {
    FoldStep(b, patch, i);
    if i == j {
      FoldFrame(MergeEntry(b, patch, j).value, patch, j + 1, patch.entries[j].0);
    } else {
      FoldLater(b, MergeEntry(b, patch, i).value, patch, i, j);
    }
  }

  /** FoldAt past step i, with b' the state that step leaves. */
  lemma {:induction false} FoldLater(b: Dict<Node>, b': Dict<Node>, patch: Node, i: nat, j: nat)
    requires patch.Mapping? && i < j < |patch.entries|
    requires forall x :: i <= x < |patch.entries| && x != j ==> patch.entries[x].0 != patch.entries[j].0
    requires MergeEntry(b, patch, i) == Ok(b')
    requires MergeFrom(b', patch, i + 1).Ok?
    ensures MergeEntry(b, patch, j).Ok?
    ensures Get(MergeFrom(b', patch, i + 1).value, patch.entries[j].0) == Get(MergeEntry(b, patch, j).value, patch.entries[j].0)
    decreases j - i, 0
  {
    var k := patch.entries[j].0;
    EntryFrame(b, patch, i, k);
    FoldAt(b', patch, i + 1, j);
    EntryLocal(b', b, patch, j);
  }

  /**
   * The merge of two mappings, key by key, when the patch names each key
   * once (as a parsed document does): keys the patch does not name are
   * untouched, and every patch key holds what Incoming gives it from its
   * old value.
   */
  lemma MergeByKey(base: Node, patch: Node)
    requires base.Mapping? && patch.Mapping? && Unique(patch.entries)
    requires Merged(base, patch).Ok?
    ensures forall k :: k !in Keys(patch.entries) ==> Get(Merged(base, patch).value.entries, k) == Get(base.entries, k)
    ensures forall j :: 0 <= j < |patch.entries| ==>
              var (k, v) := patch.entries[j];
              Incoming(Get(base.entries, k), k, v).Ok? &&
              Get(Merged(base, patch).value.entries, k) == Some(Incoming(Get(base.entries, k), k, v).value)
  {
    forall k | k !in Keys(patch.entries)
      ensures Get(Merged(base, patch).value.entries, k) == Get(base.entries, k)
    {
      forall j | 0 <= j < |patch.entries| ensures patch.entries[j].0 != k {
        assert Keys(patch.entries)[j] == patch.entries[j].0;
      }
      FoldFrame(base.entries, patch, 0, k);
    }
    forall j | 0 <= j < |patch.entries|
      ensures var (k, v) := patch.entries[j];
              Incoming(Get(base.entries, k), k, v).Ok? &&
              Get(Merged(base, patch).value.entries, k) == Some(Incoming(Get(base.entries, k), k, v).value)
    {
      FoldAt(base.entries, patch, 0, j);
    }
  }

  /**
   * The fold from i succeeds when every key it still has to merge would
   * merge cleanly into b on its own: a step leaves the other keys' old
   * values alone, so no later key sees anything but its value in b.
   */
  lemma {:induction false} FoldSucceeds(b: Dict<Node>, patch: Node, i: nat)
    requires patch.Mapping? && i <= |patch.entries| && Unique(patch.entries)
    requires forall j :: i <= j < |patch.entries| ==>
               Incoming(Get(b, patch.entries[j].0), patch.entries[j].0, patch.entries[j].1).Ok?
    ensures MergeFrom(b, patch, i).Ok?
    decreases |patch.entries| - i
  {
    if i < |patch.entries| {
      var b' := MergeEntry(b, patch, i).value;
      forall j | i + 1 <= j < |patch.entries|
        ensures Incoming(Get(b', patch.entries[j].0), patch.entries[j].0, patch.entries[j].1).Ok?
      {
        EntryFrame(b, patch, i, patch.entries[j].0);
      }
      FoldSucceeds(b', patch, i + 1);
    }
  }

  /**
   * When _merge_nodes raises: the merge of two mappings succeeds exactly
   * when every key of the patch merges cleanly with base's value for it,
   * so its only failure is a configure string meeting a non-string,
   * at the top or in a nested mapping.
   */
  lemma MergedOk(base: Node, patch: Node)
    requires base.Mapping? && patch.Mapping? && Unique(patch.entries)
    ensures Merged(base, patch).Ok? <==>
              forall j :: 0 <= j < |patch.entries| ==>
                Incoming(Get(base.entries, patch.entries[j].0), patch.entries[j].0, patch.entries[j].1).Ok?
  {
    if Merged(base, patch).Ok? {
      MergeByKey(base, patch);
    }
    if forall j :: 0 <= j < |patch.entries| ==>
         Incoming(Get(base.entries, patch.entries[j].0), patch.entries[j].0, patch.entries[j].1).Ok? {
      FoldSucceeds(base.entries, patch, 0);
    }
  }

  /** A string configure the base lacks arrives with a leading space. */
  lemma NewConfigureGainsSpace(base: Node, patch: Node, j: nat, text: string)
    requires base.Mapping? && patch.Mapping? && Unique(patch.entries) && Merged(base, patch).Ok?
    requires j < |patch.entries| && patch.entries[j] == ("configure", Str(text))
    requires "configure" !in Keys(base.entries)
    ensures Get(Merged(base, patch).value.entries, "configure") == Some(Str(" " + text))
  {
    MergeByKey(base, patch);
    assert "" + " " + text == " " + text;
  }

  /** A string configure the base has as a string is extended after one space. */
  lemma ConfigureAppended(base: Node, patch: Node, j: nat, text: string, prior: string)
    requires base.Mapping? && patch.Mapping? && Unique(patch.entries) && Merged(base, patch).Ok?
    requires j < |patch.entries| && patch.entries[j] == ("configure", Str(text))
    requires Get(base.entries, "configure") == Some(Str(prior))
    ensures Get(Merged(base, patch).value.entries, "configure") == Some(Str(prior + " " + text))
  {
    MergeByKey(base, patch);
  }

  /**
   * A key base lacks is copied from the patch as it is, a whole subtree
   * included (configure keys inside it gain no space), unless it is a
   * string configure.
   */
  lemma NewKeyCopied(base: Node, patch: Node, j: nat)
    requires base.Mapping? && patch.Mapping? && Unique(patch.entries) && Merged(base, patch).Ok?
    requires j < |patch.entries| && patch.entries[j].0 !in Keys(base.entries)
    requires !(patch.entries[j].0 == "configure" && patch.entries[j].1.Str?)
    ensures Get(Merged(base, patch).value.entries, patch.entries[j].0) == Some(patch.entries[j].1)
  {
    MergeByKey(base, patch);
  }

  /** A patch value that is not a mapping, and not a string configure, replaces the old one. */
  lemma ScalarReplaces(base: Node, patch: Node, j: nat)
    requires base.Mapping? && patch.Mapping? && Unique(patch.entries) && Merged(base, patch).Ok?
    requires j < |patch.entries| && !patch.entries[j].1.Mapping?
    requires !(patch.entries[j].0 == "configure" && patch.entries[j].1.Str?)
    ensures Get(Merged(base, patch).value.entries, patch.entries[j].0) == Some(patch.entries[j].1)
  {
    MergeByKey(base, patch);
  }

  /** A patch mapping meeting an existing value that is not a mapping is dropped. */
  lemma MappingOverScalarDropped(base: Node, patch: Node, j: nat)
    requires base.Mapping? && patch.Mapping? && Unique(patch.entries) && Merged(base, patch).Ok?
    requires j < |patch.entries| && patch.entries[j].1.Mapping?
    requires Get(base.entries, patch.entries[j].0).Some? && !Get(base.entries, patch.entries[j].0).value.Mapping?
    ensures Get(Merged(base, patch).value.entries, patch.entries[j].0) == Get(base.entries, patch.entries[j].0)
  {
    MergeByKey(base, patch);
  }

  /** The merge of well-formed documents is well formed. */
  lemma {:induction false} MergedWellFormed(base: Node, patch: Node)
    requires WellFormed(base) && WellFormed(patch) && Merged(base, patch).Ok?
    ensures WellFormed(Merged(base, patch).value)
    decreases patch, 3, 0
  {
    if base.Mapping? && patch.Mapping? {
      MergeFromWellFormed(base.entries, patch, 0);
    }
  }

  lemma {:induction false} MergeFromWellFormed(b: Dict<Node>, patch: Node, i: nat)
    requires patch.Mapping? && i <= |patch.entries|
    requires WellFormed(Mapping(b)) && WellFormed(patch) && MergeFrom(b, patch, i).Ok?
    ensures WellFormed(Mapping(MergeFrom(b, patch, i).value))
    decreases patch, 2, |patch.entries| - i
  {
    if i < |patch.entries| {
      MergeEntryWellFormed(b, patch, i);
      MergeFromWellFormed(MergeEntry(b, patch, i).value, patch, i + 1);
    }
  }

  lemma {:induction false} MergeEntryWellFormed(b: Dict<Node>, patch: Node, i: nat)
    requires patch.Mapping? && i < |patch.entries|
    requires WellFormed(Mapping(b)) && WellFormed(patch) && MergeEntry(b, patch, i).Ok?
    ensures WellFormed(Mapping(MergeEntry(b, patch, i).value))
    decreases patch, 1, 0
  {
    var k := patch.entries[i].0;
    var v := patch.entries[i].1;
    assert v < patch;
    assert WellFormed(v);
    if Get(b, k).Some? {
      GetWellFormed(b, k);
    }
    IncomingWellFormed(Get(b, k), k, v);
    SetWellFormed(b, k, Incoming(Get(b, k), k, v).value);
  }

  lemma {:induction false} IncomingWellFormed(prior: Option<Node>, k: string, v: Node)
    requires prior.Some? ==> WellFormed(prior.value)
    requires WellFormed(v) && Incoming(prior, k, v).Ok?
    ensures WellFormed(Incoming(prior, k, v).value)
    decreases v, 4, 0
  {
    if v.Mapping? && prior.Some? {
      MergedWellFormed(prior.value, v);
    }
  }

  /**
   * The first document merged into the empty root is copied as it is,
   * unless it has a string configure at its top level (that one gains a
   * leading space).
   */
  lemma MergeIntoEmpty(p: Dict<Node>)
    requires Unique(p)
    requires forall j :: 0 <= j < |p| ==> !(p[j].0 == "configure" && p[j].1.Str?)
    ensures Merged(Mapping([]), Mapping(p)) == Ok(Mapping(p))
  {
    assert p[..0] == [];
    IntoEmptyFrom(p, 0);
  }

  lemma {:induction false} IntoEmptyFrom(p: Dict<Node>, i: nat)
    requires Unique(p) && i <= |p|
    requires forall j :: 0 <= j < |p| ==> !(p[j].0 == "configure" && p[j].1.Str?)
    ensures MergeFrom(p[..i], Mapping(p), i) == Ok(p)
    decreases |p| - i
  {
    if i == |p| {
      assert p[..i] == p;
    } else {
      var k := p[i].0;
      var pre := p[..i];
      assert k !in Keys(pre) by {
        forall j | 0 <= j < i ensures Keys(pre)[j] != k {
          assert Keys(pre)[j] == p[j].0;
        }
      }
      assert Incoming(Get(pre, k), k, p[i].1) == Ok(p[i].1);
      SetAppends(pre, k, p[i].1);
      PrefixNext(p, i);
      assert MergeEntry(pre, Mapping(p), i) == Ok(p[..i + 1]);
      StepSucceeds(pre, p[..i + 1], Mapping(p), i);
      IntoEmptyFrom(p, i + 1);
    }
  }

  lemma PrefixNext(p: Dict<Node>, i: nat)
    requires i < |p|
    ensures p[..i] + [p[i]] == p[..i + 1]
  {
  }
}
