/**
 * The -o/--override options of the vlttng command: each option text,
 * stripped, is `PATH=VALUE` (replace), `PATH+=VALUE` (append) or `!PATH`
 * (remove), where PATH is one or more segments of letters, digits, `-`
 * and `_` joined by dots, and VALUE is any non-empty text without a line
 * break.
 */
module CommandLine {
  import opened Wrappers
  import opened Text
  import opened Tree
  import opened Overrides

  /** Why an option was refused; the command prints it and exits. */
  datatype CliError =
    | Malformed(arg: string)                          // no form matches the stripped text
    | BadOverride(arg: string, problem: OverrideProblem)  // Override refused what was parsed

  predicate PathChar(c: char) {
    'a' <= c <= 'z' || 'A' <= c <= 'Z' || '0' <= c <= '9' || c == '-' || c == '_'
  }

  predicate IsSegment(s: string) {
    |s| > 0 && forall i :: 0 <= i < |s| ==> PathChar(s[i])
  }

  /** `[a-zA-Z0-9-_]+(?:\.[a-zA-Z0-9-_]+)*`: dot-separated segments. */
  predicate IsPath(p: string) {
    forall k :: 0 <= k < |Split(p, '.')| ==> IsSegment(Split(p, '.')[k])
  }

  /** `.+` up to the end: non-empty, no line break. */
  predicate IsValue(r: string) {
    |r| > 0 && '\n' !in r
  }

  /** The PATH and VALUE of `PATH=VALUE`. */
  function MatchReplace(a: string): Option<(string, string)> {
    var e := IndexOf(a, '=');
    if e < |a| && IsPath(a[..e]) && IsValue(a[e + 1..]) then Some((a[..e], a[e + 1..])) else None
  }

  /** The PATH and VALUE of `PATH+=VALUE`. */
  function MatchAppend(a: string): Option<(string, string)> {
    var p := IndexOf(a, '+');
    if p + 1 < |a| && a[p + 1] == '=' && IsPath(a[..p]) && IsValue(a[p + 2..]) then Some((a[..p], a[p + 2..])) else None
  }

  /** The PATH of `!PATH`. */
  function MatchRemove(a: string): Option<string> {
    if |a| > 0 && a[0] == '!' && IsPath(a[1..]) then Some(a[1..]) else None
  }

  /** The forms, tried in this order, on the stripped option text. */
  function Syntax(a: string): Option<(seq<string>, Op, Option<string>)> {
    match MatchReplace(a)
    case Some((p, r)) => Some((Split(p, '.'), Replace, Some(r)))
    case None =>
      match MatchAppend(a)
      case Some((p, r)) => Some((Split(p, '.'), Append, Some(r)))
      case None =>
        match MatchRemove(a)
        case Some(p) => Some((Split(p, '.'), Remove, None))
        case None => None
  }

  /** One option of _create_overrides. */
  function ParseOverride(arg: string): (r: Result<Override, CliError>)
    ensures r.Ok? <==> Syntax(Strip(arg)).Some?
    ensures r.Err? ==> r.error == Malformed(Strip(arg))
  {
    var a := Strip(arg);
    match Syntax(a)
    case None => Err(Malformed(a))
    case Some((path, op, rep)) =>
      match NewOverride(path, op, rep)
      case Ok(o) => Ok(o)
      case Err(_) => Err(BadOverride(a, EmptyPath))
  }

  /** The options after acc, parsed in order up to the first that does not parse. */
  function ParseAll(acc: seq<Override>, args: seq<string>): Result<seq<Override>, CliError>
    decreases |args|
  {
    if args == [] then Ok(acc)
    else
      var o :- ParseOverride(args[0]);
      ParseAll(acc + [o], args[1..])
  }

  /**
   * _create_overrides: the options in order; the first one that does not
   * parse stops the command.
   */
  method CreateOverrides(args: seq<string>) returns (r: Result<seq<Override>, CliError>)
    ensures r == ParseAll([], args)
  {
    var overrides: seq<Override> := [];
    var i := 0;
    while i < |args|
      invariant 0 <= i <= |args|
      invariant ParseAll(overrides, args[i..]) == ParseAll([], args)
    {
      assert args[i..][1..] == args[i + 1..];
      var o := ParseOverride(args[i]);
      if o.Err? {
        return Err(o.error);
      }
      overrides := overrides + [o.value];
      i := i + 1;
    }
    assert args[i..] == [];
    r := Ok(overrides);
  }

  /** All the options parse exactly when the result is a list. */
  lemma {:induction false} ParseAllSucceeds(acc: seq<Override>, args: seq<string>)
    ensures ParseAll(acc, args).Ok? <==> forall i :: 0 <= i < |args| ==> ParseOverride(args[i]).Ok?
    decreases |args|
  {
    if args != [] {
      var rest := args[1..];
      assert forall i :: 0 <= i < |rest| ==> rest[i] == args[i + 1];
      if ParseOverride(args[0]).Ok? {
        ParseAllSucceeds(acc + [ParseOverride(args[0]).value], rest);
        if forall i :: 0 <= i < |rest| ==> ParseOverride(rest[i]).Ok? {
          forall i | 0 <= i < |args| ensures ParseOverride(args[i]).Ok? {
            if i > 0 {
              assert args[i] == rest[i - 1];
            }
          }
        }
      }
    }
  }

  /** The parse of each option, when they all parse. */
  function Values(args: seq<string>): (r: seq<Override>)
    requires forall i :: 0 <= i < |args| ==> ParseOverride(args[i]).Ok?
    ensures |r| == |args|
  {
    if args == [] then []
    else
      assert forall i :: 0 <= i < |args[1..]| ==> args[1..][i] == args[i + 1];
      [ParseOverride(args[0]).value] + Values(args[1..])
  }

  lemma {:induction false} ValuesAt(args: seq<string>, i: nat)
    requires forall i :: 0 <= i < |args| ==> ParseOverride(args[i]).Ok?
    requires i < |args|
    ensures Values(args)[i] == ParseOverride(args[i]).value
  {
    if i > 0 {
      var rest := args[1..];
      forall k | 0 <= k < |rest| ensures ParseOverride(rest[k]).Ok? {
        assert rest[k] == args[k + 1];
      }
      ValuesAt(rest, i - 1);
      assert Values(args) == [ParseOverride(args[0]).value] + Values(rest);
      assert rest[i - 1] == args[i];
    }
  }

  /** The list holds, after acc, the parse of each option, in order. */
  lemma {:induction false} ParseAllValues(acc: seq<Override>, args: seq<string>)
    requires forall i :: 0 <= i < |args| ==> ParseOverride(args[i]).Ok?
    ensures ParseAll(acc, args) == Ok(acc + Values(args))
    decreases |args|
  {
    if args == [] {
      assert acc + [] == acc;
    } else {
      var rest := args[1..];
      assert forall i :: 0 <= i < |rest| ==> rest[i] == args[i + 1];
      var acc' := acc + [ParseOverride(args[0]).value];
      ParseAllValues(acc', rest);
      assert acc' + Values(rest) == acc + Values(args);
    }
  }

  /** The error is the one of the first option that does not parse. */
  lemma {:induction false} ParseAllFails(acc: seq<Override>, args: seq<string>)
    requires ParseAll(acc, args).Err?
    ensures exists i :: 0 <= i < |args| && ParseOverride(args[i]) == Err(ParseAll(acc, args).error)
                        && forall j :: 0 <= j < i ==> ParseOverride(args[j]).Ok?
    decreases |args|
  {
    var rest := args[1..];
    if ParseOverride(args[0]).Ok? {
      var acc' := acc + [ParseOverride(args[0]).value];
      assert ParseAll(acc, args) == ParseAll(acc', rest);
      ParseAllFails(acc', rest);
      var i :| 0 <= i < |rest| && ParseOverride(rest[i]) == Err(ParseAll(acc', rest).error)
               && forall j :: 0 <= j < i ==> ParseOverride(rest[j]).Ok?;
      assert args[i + 1] == rest[i];
      forall j | 0 <= j < i + 1 ensures ParseOverride(args[j]).Ok? {
        if j > 0 {
          assert args[j] == rest[j - 1];
        }
      }
    }
  }

  // ---- What the forms mean ------------------------------------------------

  /** A path holds only path characters and dots. */
  lemma {:induction false} PathChars(p: string)
    requires IsPath(p)
    ensures forall i :: 0 <= i < |p| ==> p[i] == '.' || PathChar(p[i])
    decreases |p|
  {
    var i := IndexOf(p, '.');
    var parts := Split(p, '.');
    assert IsSegment(parts[0]);
    if i < |p| {
      var rest := p[i + 1..];
      assert Split(rest, '.') == parts[1..];
      assert IsPath(rest) by {
        forall k | 0 <= k < |Split(rest, '.')| ensures IsSegment(Split(rest, '.')[k]) {
          assert Split(rest, '.')[k] == parts[k + 1];
        }
      }
      PathChars(rest);
      forall j | 0 <= j < |p| ensures p[j] == '.' || PathChar(p[j]) {
        if j < i {
          assert p[j] == p[..i][j];
        } else if i < j {
          assert p[j] == rest[j - i - 1];
        }
      }
    }
  }

  /** Dot-joined segments form a path that splits back into them. */
  lemma JoinIsPath(path: seq<string>)
    requires |path| >= 1 && forall k :: 0 <= k < |path| ==> IsSegment(path[k])
    ensures Split(Join(path, '.'), '.') == path
    ensures IsPath(Join(path, '.'))
  {
    assert forall k :: 0 <= k < |path| ==> '.' !in path[k];
    SplitJoin(path, '.');
  }

  /** The first index of c, in a text made of a c-free head, c, and a tail. */
  lemma IndexAfter(head: string, c: char, tail: string)
    requires forall i :: 0 <= i < |head| ==> head[i] != c
    ensures IndexOf(head + [c] + tail, c) == |head|
  {
    IndexOfPrefix(head, c, tail);
  }

  /** PATH=VALUE is a replacement, whatever VALUE holds. */
  lemma ReplaceForm(p: string, r: string)
    requires IsPath(p) && IsValue(r)
    ensures MatchReplace(p + "=" + r) == Some((p, r))
    ensures Syntax(p + "=" + r) == Some((Split(p, '.'), Replace, Some(r)))
  {
    PathChars(p);
    var a := p + "=" + r;
    IndexAfter(p, '=', r);
    assert a == p + ['='] + r;
    assert a[..|p|] == p && a[|p| + 1..] == r;
  }

  /** PATH+=VALUE is an append when the text is no replacement. */
  lemma AppendForm(p: string, r: string)
    requires IsPath(p) && IsValue(r)
    ensures MatchReplace(p + "+=" + r) == None
    ensures MatchAppend(p + "+=" + r) == Some((p, r))
    ensures Syntax(p + "+=" + r) == Some((Split(p, '.'), Append, Some(r)))
  {
    PathChars(p);
    var a := p + "+=" + r;
    assert a == p + ['+'] + (['='] + r);
    IndexAfter(p, '+', ['='] + r);
    assert a[..|p|] == p && a[|p| + 1] == '=' && a[|p| + 2..] == r;
    var e := IndexOf(a, '=');
    assert a[|p|] == '+';
    assert e == |p| + 1;
    assert a[..e][|p|] == '+';
    assert !IsPath(a[..e]) by {
      if IsPath(a[..e]) {
        PathChars(a[..e]);
      }
    }
  }

  /** !PATH is a removal. */
  lemma RemoveForm(p: string)
    requires IsPath(p)
    ensures Syntax("!" + p) == Some((Split(p, '.'), Remove, None))
  {
    PathChars(p);
    var a := "!" + p;
    assert a[0] == '!' && a[1..] == p;
    assert forall i :: 0 <= i < |a| ==> a[i] != '=' && a[i] != '+' by {
      forall i | 0 <= i < |a| ensures a[i] != '=' && a[i] != '+' {
        if i > 0 {
          assert a[i] == p[i - 1];
        }
      }
    }
  }

  /** A text the replace form accepts is its path, `=` and its value. */
  lemma ReplaceShape(a: string, p: string, r: string)
    requires MatchReplace(a) == Some((p, r))
    ensures a == p + "=" + r
  {
    var e := IndexOf(a, '=');
    assert a == a[..e] + [a[e]] + a[e + 1..];
  }

  /** A text the append form accepts is its path, `+=` and its value. */
  lemma AppendShape(a: string, p: string, r: string)
    requires MatchAppend(a) == Some((p, r))
    ensures a == p + "+=" + r
  {
    var q := IndexOf(a, '+');
    assert a == a[..q] + [a[q], a[q + 1]] + a[q + 2..];
  }

  /** A text the remove form accepts is `!` and its path. */
  lemma RemoveShape(a: string, p: string)
    requires MatchRemove(a) == Some(p)
    ensures a == "!" + p
  {
    assert a == [a[0]] + a[1..];
  }

  /** At most one of the three forms matches a text: `+`, `=` and `!` are not path characters. */
  lemma FormsExclusive(a: string)
    ensures !(MatchReplace(a).Some? && MatchAppend(a).Some?)
    ensures !(MatchReplace(a).Some? && MatchRemove(a).Some?)
    ensures !(MatchAppend(a).Some? && MatchRemove(a).Some?)
  {
    if MatchAppend(a).Some? {
      var (p, r) := MatchAppend(a).value;
      AppendShape(a, p, r);
      AppendForm(p, r);
    }
    if MatchRemove(a).Some? {
      var p := MatchRemove(a).value;
      RemoveShape(a, p);
      RemoveForm(p);
    }
  }

  // ---- Round trip ------------------------------------------------------------

  /** The option text that asks for o. */
  function Format(o: Override): string {
    match o.op
    case Replace => Join(o.path, '.') + "=" + o.rep.GetOr("")
    case Append => Join(o.path, '.') + "+=" + o.rep.GetOr("")
    case Remove => "!" + Join(o.path, '.')
  }

  /** An override the command line can express. */
  predicate Expressible(o: Override) {
    && |o.path| >= 1 && (forall k :: 0 <= k < |o.path| ==> IsSegment(o.path[k]))
    && (o.op == Remove <==> o.rep.None?)
    && (o.rep.Some? ==> IsValue(o.rep.value) && !IsSpace(o.rep.value[|o.rep.value| - 1]))
  }

  lemma PathCharNotSpace(c: char)
    requires PathChar(c)
    ensures !IsSpace(c)
  {
  }

  lemma JoinEnds(path: seq<string>)
    requires |path| >= 1 && forall k :: 0 <= k < |path| ==> IsSegment(path[k])
    ensures |Join(path, '.')| > 0
    ensures PathChar(Join(path, '.')[0]) && PathChar(Join(path, '.')[|Join(path, '.')| - 1])
  {
    JoinIsPath(path);
    var p := Join(path, '.');
    var parts := Split(p, '.');
    assert IsSegment(parts[0]);
    var i := IndexOf(p, '.');
    assert p[0] != '.';
    PathChars(p);
    LastSegmentEnds(p);
  }

  /** A path ends in a path character, the last character of its last segment. */
  lemma {:induction false} LastSegmentEnds(p: string)
    requires IsPath(p)
    ensures |p| > 0 && p[|p| - 1] != '.'
    decreases |p|
  {
    var i := IndexOf(p, '.');
    var parts := Split(p, '.');
    assert IsSegment(parts[0]);
    if i < |p| {
      var rest := p[i + 1..];
      assert Split(rest, '.') == parts[1..];
      assert IsPath(rest) by {
        forall k | 0 <= k < |Split(rest, '.')| ensures IsSegment(Split(rest, '.')[k]) {
          assert Split(rest, '.')[k] == parts[k + 1];
        }
      }
      LastSegmentEnds(rest);
      assert p[|p| - 1] == rest[|rest| - 1];
    }
  }

  /** Formatting an expressible override and parsing the text gives it back. */
  lemma ParseFormat(o: Override)
    requires Expressible(o)
    ensures ParseOverride(Format(o)) == Ok(o)
  {
    FormatEnds(o);
    StripUnpadded(Format(o));
    JoinIsPath(o.path);
    var p := Join(o.path, '.');
    match o.op {
      case Replace => ReplaceForm(p, o.rep.value);
      case Append => AppendForm(p, o.rep.value);
      case Remove => RemoveForm(p);
    }
  }

  /** The option text of an expressible override has no whitespace at either end. */
  lemma FormatEnds(o: Override)
    requires Expressible(o)
    ensures |Format(o)| > 0 && !IsSpace(Format(o)[0]) && !IsSpace(Format(o)[|Format(o)| - 1])
  {
    JoinEnds(o.path);
    var p := Join(o.path, '.');
    var s := Format(o);
    match o.op {
      case Replace =>
        assert s == p + "=" + o.rep.value;
        assert s[0] == p[0] && s[|s| - 1] == o.rep.value[|o.rep.value| - 1];
        PathCharNotSpace(p[0]);
      case Append =>
        assert s == p + "+=" + o.rep.value;
        assert s[0] == p[0] && s[|s| - 1] == o.rep.value[|o.rep.value| - 1];
        PathCharNotSpace(p[0]);
      case Remove =>
        assert s == "!" + p;
        assert s[0] == '!' && s[|s| - 1] == p[|p| - 1];
        PathCharNotSpace(p[|p| - 1]);
    }
  }

  /** Parsing then formatting gives back the stripped option text. */
  lemma FormatParse(arg: string)
    requires ParseOverride(arg).Ok?
    ensures Format(ParseOverride(arg).value) == Strip(arg)
  {
    var a := Strip(arg);
    match MatchReplace(a) {
      case Some((p, r)) =>
        ReplaceShape(a, p, r);
        JoinSplit(p, '.');
      case None =>
        match MatchAppend(a) {
          case Some((p, r)) =>
            AppendShape(a, p, r);
            JoinSplit(p, '.');
          case None =>
            var p := MatchRemove(a).value;
            RemoveShape(a, p);
            JoinSplit(p, '.');
        }
    }
  }

  /** Every parsed override has a path of valid segments, and a value unless it removes. */
  lemma ParsedShape(arg: string)
    requires ParseOverride(arg).Ok?
    ensures var o := ParseOverride(arg).value;
            && |o.path| >= 1 && (forall k :: 0 <= k < |o.path| ==> IsSegment(o.path[k]))
            && (o.op == Remove <==> o.rep.None?)
  {
    var a := Strip(arg);
    match MatchReplace(a) {
      case Some((p, r)) =>
      case None =>
        match MatchAppend(a) {
          case Some((p, r)) =>
          case None =>
        }
    }
  }

  /** The command line never builds an Override that the constructor refuses. */
  lemma NeverBadOverride(arg: string)
    ensures !ParseOverride(arg).Err? || ParseOverride(arg).error.Malformed?
  {
  }
}
