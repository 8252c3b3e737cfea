/**
 * The quickstart questionnaire (vlttng-quick): how a typed answer becomes
 * a choice, and how the wizard's state handlers turn the answers into
 * profile names and a vlttng command line.
 */
module Quickstart {
  import opened Wrappers
  import opened Dicts
  import opened Text

  // ---- The projects the questionnaire knows -------------------------------------------------

  datatype Project =
    | Babeltrace | Elfutils | Glib | Libxml2 | LttngAnalyses | LttngModules
    | LttngTools | LttngUst | Popt | TraceCompass | Urcu

  /** The project's name, as used in profile names. */
  function Name(p: Project): string {
    match p
    case Babeltrace => "babeltrace"
    case Elfutils => "elfutils"
    case Glib => "glib"
    case Libxml2 => "libxml2"
    case LttngAnalyses => "lttng-analyses"
    case LttngModules => "lttng-modules"
    case LttngTools => "lttng-tools"
    case LttngUst => "lttng-ust"
    case Popt => "popt"
    case TraceCompass => "tracecompass"
    case Urcu => "urcu"
  }

  /** The projects of the first question, numbered from 1 in this order. */
  const ChoiceProjects: seq<Project> :=
    [Babeltrace, Elfutils, Glib, Libxml2, LttngAnalyses, LttngModules, LttngTools, LttngUst, Popt, TraceCompass, Urcu]

  /** _project_name_to_versions: the versions offered for each project, in the order they are listed. */
  function Versions(p: Project): (vs: seq<string>)
    ensures |vs| >= 1
    ensures p != Elfutils && p != Popt ==> vs[|vs| - 1] == "master"
  {
    match p
    case Babeltrace => ["stable-1.2", "stable-1.3", "stable-1.4", "stable-1.5", "master"]
    case Elfutils => ["0.166", "0.167", "0.168", "0.169"]
    case Glib => ["2.22.5", "2.23.6", "2.24.2", "2.25.17", "2.26.1", "2.27.93", "2.28.8", "2.29.92", "2.30.3",
                  "2.31.22", "2.32.4", "2.33.14", "2.34.3", "2.35.9", "2.36.4", "2.37.93", "2.38.2", "2.39.92",
                  "2.40.2", "2.41.5", "2.42.2", "2.43.92", "2.44.1", "2.45.8", "2.46.2", "2.47.92", "2.48.1",
                  "2.48.2", "2.49.7", "2.50.1", "2.51.5", "2.52.2", "2.53.2", "master"]
    case Libxml2 => ["2.8.0", "2.9.0", "2.9.1", "2.9.2", "2.9.3", "2.9.4", "master"]
    case LttngAnalyses => ["0.3.0", "0.4.0", "0.4.1", "0.4.2", "0.4.3", "0.5.0", "0.5.1", "0.5.2", "0.5.3",
                           "0.5.4", "0.6.0", "0.6.1", "master"]
    case LttngModules => ["stable-2.6", "stable-2.7", "stable-2.8", "stable-2.9", "stable-2.10", "master"]
    case LttngTools => ["stable-2.6", "stable-2.7", "stable-2.8", "stable-2.9", "stable-2.10", "master"]
    case LttngUst => ["stable-2.6", "stable-2.7", "stable-2.8", "stable-2.9", "stable-2.10", "master"]
    case Popt => ["1.16"]
    case TraceCompass => ["linux-x86-64-1.1.0", "linux-x86-64-1.2.0", "linux-x86-64-1.2.1", "linux-x86-64-2.0.0",
                          "linux-x86-64-2.0.1", "linux-x86-64-2.1.0", "linux-x86-64-2.2.0", "linux-x86-64-2.3.0",
                          "macos-x86-64-1.1.0", "macos-x86-64-1.2.0", "macos-x86-64-1.2.1", "macos-x86-64-2.0.0",
                          "macos-x86-64-2.0.1", "macos-x86-64-2.1.0", "macos-x86-64-2.2.0", "macos-x86-64-2.3.0",
                          "master"]
    case Urcu => ["stable-0.7", "stable-0.8", "stable-0.9", "stable-0.10", "master"]
  }

  // ---- int() on a typed token -----------------------------------------------------------------

  predicate IsDigit(c: char) { '0' <= c <= '9' }

  /**
   * The digits int() accepts after an optional sign: decimal digits, with
   * single underscores allowed only between two of them.
   */
  predicate DigitRun(s: string)
    decreases |s|
  {
    && |s| > 0 && IsDigit(s[|s| - 1])
    && (|s| == 1 || DigitRun(s[..|s| - 1]) || (s[|s| - 2] == '_' && DigitRun(s[..|s| - 2])))
  }

  /** The number the digits of s spell, underscores skipped. */
  function DigitsValue(s: string): nat
    decreases |s|
  {
    if s == [] then 0
    else if IsDigit(s[|s| - 1]) then 10 * DigitsValue(s[..|s| - 1]) + (s[|s| - 1] as int - '0' as int)
    else DigitsValue(s[..|s| - 1])
  }

  /** int(s) for a str: surrounding whitespace ignored, an optional sign, then the digits; None where Python raises ValueError. */
  function PyInt(s: string): Option<int> {
    var t := Strip(s);
    if |t| > 0 && (t[0] == '+' || t[0] == '-') then
      if DigitRun(t[1..]) then Some(if t[0] == '-' then -(DigitsValue(t[1..]) as int) else DigitsValue(t[1..])) else None
    else if DigitRun(t) then Some(DigitsValue(t))
    else None
  }

  function Digit(d: nat): char
    requires d < 10
  {
    ('0' as int + d) as char
  }

  /** str(n) for a natural number. */
  function Decimal(n: nat): string
    decreases n
  {
    if n < 10 then [Digit(n)] else Decimal(n / 10) + [Digit(n % 10)]
  }

  /** str(n) is a run of digits int() reads back as n. */
  lemma {:induction false} DecimalDigits(n: nat)
    ensures DigitRun(Decimal(n)) && IsDigit(Decimal(n)[0]) && DigitsValue(Decimal(n)) == n
    decreases n
  {
    if n >= 10 {
      DecimalDigits(n / 10);
      var s := Decimal(n);
      assert s[..|s| - 1] == Decimal(n / 10);
    }
  }

  /** _raw_choice_to_int: the token's number when it is one of 1..choiceMax, else None. */
  function RawChoiceToInt(raw: string, choiceMax: int): (r: Option<int>)
    ensures r.Some? <==> PyInt(raw).Some? && 1 <= PyInt(raw).value <= choiceMax
    ensures r.Some? ==> r == PyInt(raw)
    ensures r.Some? ==> 1 <= r.value <= choiceMax
  {
    match PyInt(raw)
    case None => None
    case Some(choice) => if choice < 1 || choice > choiceMax then None else Some(choice)
  }

  /** Every choice number on offer, written as the menu prints it, is accepted as itself. */
  lemma RawChoiceOfDecimal(n: nat, choiceMax: int)
    requires 1 <= n <= choiceMax
    ensures RawChoiceToInt(Decimal(n), choiceMax) == Some(n)
  {
    DecimalDigits(n);
    var s := Decimal(n);
    StripUnpadded(s);
  }

  /** A token without a single digit (a letter, 'a', 'n', a sign alone) is never a choice. */
  lemma RawChoiceOfWord(raw: string, choiceMax: int)
    requires forall i :: 0 <= i < |raw| ==> !IsDigit(raw[i])
    ensures RawChoiceToInt(raw, choiceMax) == None
  {
    StripSlice(raw);
    var t := Strip(raw);
    assert forall i :: 0 <= i < |t| ==> !IsDigit(t[i]);
    if |t| > 1 {
      assert t[1..][|t[1..]| - 1] == t[|t| - 1];
    }
  }

  /** A number outside 1..choiceMax, written in decimal, is refused. */
  lemma RawChoiceOutOfRange(n: nat, choiceMax: int)
    requires n < 1 || n > choiceMax
    ensures RawChoiceToInt(Decimal(n), choiceMax) == None
  {
    DecimalDigits(n);
    StripUnpadded(Decimal(n));
  }

  /** int() ignores surrounding blanks and leading zeros, and so does a choice. */
  lemma RawChoicePadded()
    ensures RawChoiceToInt(" 03 ", 11) == Some(3)
  {
    assert Strip(" 03 ") == "03" by {
      assert LeadingSpace(" 03 ") == 1;
      assert " 03 "[1..] == "03 ";
      assert TrailingCut("03 ") == 2;
    }
    assert DigitRun("03") && DigitsValue("03") == 3 by {
      assert "03"[..1] == "0" && "0"[..0] == "";
      assert DigitsValue("0") == 0;
    }
  }

  /** int() accepts an explicit plus sign, and so does a choice. */
  lemma RawChoiceSigned()
    ensures RawChoiceToInt("+3", 11) == Some(3)
  {
    StripUnpadded("+3");
    assert "+3"[1..] == "3";
  }

  /** int() accepts an underscore between two digits, and so does a choice. */
  lemma RawChoiceUnderscore()
    ensures RawChoiceToInt("1_0", 11) == Some(10)
  {
    StripUnpadded("1_0");
    assert DigitRun("1_0") && DigitsValue("1_0") == 10 by {
      assert "1_0"[..1] == "1" && "1_0"[..2] == "1_" && "1_"[..1] == "1";
      assert DigitsValue("1_") == DigitsValue("1") == 1;
    }
  }

  /** A trailing letter, a doubled underscore, zero and a negative number are refused. */
  lemma RawChoiceStrict()
    ensures RawChoiceToInt("1x", 11) == None
    ensures RawChoiceToInt("1__0", 11) == None
    ensures RawChoiceToInt("0", 11) == None
    ensures RawChoiceToInt("-1", 11) == None
  {
    StripUnpadded("1x");
    StripUnpadded("1__0");
    assert "1__0"[..2] == "1_" && "1__0"[..3] == "1__";
    StripUnpadded("0");
    StripUnpadded("-1");
    assert "-1"[1..] == "1";
  }

  // ---- Reading choices ------------------------------------------------------------------------

  /** A validated answer to a several-choices question: 'a' (all), or some choice numbers. */
  datatype Choices = All | Picked(picks: seq<int>)

  /** What _get_choices can return for a question of choiceMax choices: 'a', or sorted distinct numbers of 1..choiceMax. */
  predicate ValidChoices(c: Choices, choiceMax: int) {
    c.Picked? ==>
      && (forall i :: 0 <= i < |c.picks| ==> 1 <= c.picks[i] <= choiceMax)
      && (forall i, j :: 0 <= i < j < |c.picks| ==> c.picks[i] < c.picks[j])
  }

  /** sorted(list(s)) for the members of s within lo..hi. */
  function Ascending(s: set<int>, lo: int, hi: int): (r: seq<int>)
    ensures forall x :: x in r <==> x in s && lo <= x <= hi
    ensures forall i, j :: 0 <= i < j < |r| ==> r[i] < r[j]
    decreases hi - lo + 1
  {
    if lo > hi then []
    else
      var rest := Ascending(s, lo + 1, hi);
      assert forall j :: 0 <= j < |rest| ==> lo < rest[j] by {
        forall j | 0 <= j < |rest| ensures lo < rest[j] {
          assert rest[j] in rest;
        }
      }
      if lo in s then [lo] + rest else rest
  }

  /** What _raw_choice_to_int makes of each token of an answer. */
  function Parsed(toks: seq<string>, choiceMax: int): (vals: seq<Option<int>>)
    ensures |vals| == |toks|
  {
    seq(|toks|, k requires 0 <= k < |toks| => RawChoiceToInt(toks[k], choiceMax))
  }

  /** Every choice number among the parse results is one of 1..choiceMax. */
  predicate InRange(vals: seq<Option<int>>, choiceMax: int) {
    forall k :: 0 <= k < |vals| && vals[k].Some? ==> 1 <= vals[k].value <= choiceMax
  }

  /** The k-th token is the first one that is not a choice number. */
  predicate FirstRefused(vals: seq<Option<int>>, k: int) {
    && 0 <= k < |vals|
    && vals[k].None?
    && forall j :: 0 <= j < k ==> vals[j].Some?
  }

  /** The choice numbers among the first n tokens. */
  function Accepted(vals: seq<Option<int>>, n: nat): set<int>
    requires n <= |vals|
  {
    if n == 0 then {}
    else Accepted(vals, n - 1) + match vals[n - 1] case Some(x) => {x} case None => {}
  }

  lemma {:induction false} AcceptedMembers(vals: seq<Option<int>>, n: nat)
    requires n <= |vals|
    ensures forall x :: x in Accepted(vals, n) <==> exists k :: 0 <= k < n && vals[k] == Some(x)
  {
    if n > 0 {
      AcceptedMembers(vals, n - 1);
    }
  }

  /**
   * What reading the tokens of an answer promises, given what each token
   * parses to: an "a" selects all and any other token that is not a
   * choice number spoils the answer, whichever comes first; otherwise the
   * numbers the tokens name, sorted and distinct.
   */
  ghost predicate ReadsOver(toks: seq<string>, vals: seq<Option<int>>, choiceMax: int, r: Option<Choices>)
    requires |vals| == |toks|
  {
    && (r.Some? ==> ValidChoices(r.value, choiceMax))
    && (r.None? <==> exists k :: FirstRefused(vals, k) && toks[k] != "a")
    && (r == Some(All) <==> exists k :: FirstRefused(vals, k) && toks[k] == "a")
    && (r.Some? && r.value.Picked? ==>
          forall x :: x in r.value.picks <==> exists k :: 0 <= k < |vals| && vals[k] == Some(x))
  }

  ghost predicate ReadsAs(toks: seq<string>, choiceMax: int, r: Option<Choices>) {
    ReadsOver(toks, Parsed(toks, choiceMax), choiceMax, r)
  }

  /** Stopping at the first refused token: all for an "a", a refusal for anything else. */
  lemma ReadsAtRefusal(toks: seq<string>, vals: seq<Option<int>>, i: int, choiceMax: int)
    requires |vals| == |toks| && FirstRefused(vals, i)
    ensures ReadsOver(toks, vals, choiceMax, if toks[i] == "a" then Some(All) else None)
  {
    forall k | FirstRefused(vals, k) ensures k == i {
    }
  }

  /** Reaching the end: every token was a choice number, and the answer is their sorted set. */
  lemma ReadsToEnd(toks: seq<string>, vals: seq<Option<int>>, choiceMax: int)
    requires |vals| == |toks| && InRange(vals, choiceMax)
    requires forall j :: 0 <= j < |vals| ==> vals[j].Some?
    ensures ReadsOver(toks, vals, choiceMax, Some(Picked(Ascending(Accepted(vals, |vals|), 1, choiceMax))))
  {
    AcceptedMembers(vals, |vals|);
    var picks := Ascending(Accepted(vals, |vals|), 1, choiceMax);
    forall k | 0 <= k < |picks| ensures 1 <= picks[k] <= choiceMax {
      assert picks[k] in picks;
    }
    assert forall k :: !FirstRefused(vals, k);
  }

  /**
   * The tokens from the i-th on, read with the choice numbers acc taken
   * so far: the loop of _try_get_choices stated as a recursion.
   */
  function ReadFrom(toks: seq<string>, vals: seq<Option<int>>, i: nat, choiceMax: int, acc: set<int>): Option<Choices>
    requires |vals| == |toks| && i <= |toks|
    decreases |toks| - i
  {
    if i == |toks| then Some(Picked(Ascending(acc, 1, choiceMax)))
    else if toks[i] == "a" then Some(All)
    else if vals[i].None? then None
    else ReadFrom(toks, vals, i + 1, choiceMax, acc + {vals[i].value})
  }

  /** The recursion keeps the promise of ReadsOver, given that "a" is never a choice number. */
  lemma {:induction false} ReadFromMeaning(toks: seq<string>, vals: seq<Option<int>>, i: nat, choiceMax: int, acc: set<int>)
    requires |vals| == |toks| && i <= |toks| && InRange(vals, choiceMax)
    requires forall k :: 0 <= k < |toks| && toks[k] == "a" ==> vals[k].None?
    requires forall j :: 0 <= j < i ==> vals[j].Some?
    requires acc == Accepted(vals, i)
    ensures ReadsOver(toks, vals, choiceMax, ReadFrom(toks, vals, i, choiceMax, acc))
    decreases |toks| - i
  {
    if i == |toks| {
      ReadsToEnd(toks, vals, choiceMax);
    } else if toks[i] == "a" || vals[i].None? {
      assert vals[i].None?;
      assert FirstRefused(vals, i);
      ReadsAtRefusal(toks, vals, i, choiceMax);
    } else {
      forall j | 0 <= j < i + 1 ensures vals[j].Some? {
        if j < i {
          assert vals[j].Some?;
        }
      }
      ReadFromMeaning(toks, vals, i + 1, choiceMax, acc + {vals[i].value});
    }
  }

  /** What the answer's tokens are read as: the recursion from the first token, over what each token parses to. */
  function ReadResult(toks: seq<string>, choiceMax: int): Option<Choices> {
    ReadFrom(toks, Parsed(toks, choiceMax), 0, choiceMax, {})
  }

  /** Reading an answer's tokens keeps the promise of ReadsAs. */
  lemma ReadResultMeaning(toks: seq<string>, choiceMax: int)
    ensures ReadsAs(toks, choiceMax, ReadResult(toks, choiceMax))
  {
    var vals := Parsed(toks, choiceMax);
    forall k | 0 <= k < |toks| && toks[k] == "a" ensures vals[k].None? {
      RawChoiceOfWord("a", choiceMax);
    }
    ReadFromMeaning(toks, vals, 0, choiceMax, {});
  }

  /** The loop of _try_get_choices over the tokens of an answer. */
  method ReadChoices(toks: seq<string>, choiceMax: int) returns (r: Option<Choices>)
    ensures r == ReadResult(toks, choiceMax)
  {
    ghost var vals := Parsed(toks, choiceMax);
    var choices: set<int> := {};
    var i := 0;
    while i < |toks|
      invariant 0 <= i <= |toks|
      invariant ReadFrom(toks, vals, i, choiceMax, choices) == ReadResult(toks, choiceMax)
    {
      if toks[i] == "a" {
        return Some(All);
      }
      var choice := RawChoiceToInt(toks[i], choiceMax);
      assert choice == vals[i];
      if choice.None? {
        return None;
      }
      choices := choices + {choice.value};
      i := i + 1;
    }
    return Some(Picked(Ascending(choices, 1, choiceMax)));
  }

  /**
   * _try_get_choices on one typed line: blank means all when that is the
   * default (and is refused otherwise), "n" means none, anything else is
   * read token by token.
   */
  method TryGetChoices(line: string, choiceMax: int, allDefault: bool) returns (r: Option<Choices>)
    ensures r.Some? ==> ValidChoices(r.value, choiceMax)
    ensures Strip(line) == "" ==> r == (if allDefault then Some(All) else None)
    ensures Strip(line) == "n" ==> r == Some(Picked([]))
    ensures Strip(line) != "" && Strip(line) != "n" ==> ReadsAs(SplitSpaces(Strip(line)), choiceMax, r)
  {
    var resp := Strip(line);
    if resp == "" {
      if allDefault {
        return Some(All);
      }
      return None;
    }
    if resp == "n" {
      return Some(Picked([]));
    }
    var toks := SplitSpaces(resp);
    r := ReadChoices(toks, choiceMax);
    ReadResultMeaning(toks, choiceMax);
  }

  /** _try_get_choice: a blank line is refused, anything else must be one choice number. */
  function TryGetChoice(line: string, choiceMax: int): (r: Option<int>)
    ensures r.Some? <==> Strip(line) != "" && PyInt(Strip(line)).Some? && 1 <= PyInt(Strip(line)).value <= choiceMax
    ensures r.Some? ==> r == PyInt(Strip(line))
    ensures r.Some? ==> Strip(line) != "" && 1 <= r.value <= choiceMax
  {
    var resp := Strip(line);
    if resp == "" then None else RawChoiceToInt(resp, choiceMax)
  }

  /** _get_yes_no's test of one line: blank takes the default, "y" and "n" answer, anything else is asked again. */
  function TryGetYesNo(line: string, default: bool): (r: Option<bool>)
    ensures r.Some? <==> Strip(line) == "" || Strip(line) == "y" || Strip(line) == "n"
    ensures Strip(line) == "" ==> r == Some(default)
    ensures Strip(line) == "y" ==> r == Some(true)
    ensures Strip(line) == "n" ==> r == Some(false)
  {
    var resp := Strip(line);
    if resp == "" then Some(default)
    else if resp == "y" then Some(true)
    else if resp == "n" then Some(false)
    else None
  }

  // ---- What the handlers compute --------------------------------------------------------------

  datatype WizardState =
    | AskProjects | AskMaster | AskVersions | AskFeature | AskBtPython | AskLttngToolsPython
    | AskLttngUstJulAgent | AskLttngUstLog4jAgent | AskLttngUstPythonAgent | AskPythonInterpreter | AskPath | End

  /** The value of the state in the _WizardState enumeration. */
  function Number(s: WizardState): (n: nat)
    ensures 1 <= n <= 12
  {
    match s
    case AskProjects => 1
    case AskMaster => 2
    case AskVersions => 3
    case AskFeature => 4
    case AskBtPython => 5
    case AskLttngToolsPython => 6
    case AskLttngUstJulAgent => 7
    case AskLttngUstLog4jAgent => 8
    case AskLttngUstPythonAgent => 9
    case AskPythonInterpreter => 10
    case AskPath => 11
    case End => 12
  }

  /** The items with the given choice numbers, in the order of the numbers. */
  function PicksOf<T>(items: seq<T>, picks: seq<int>): (r: seq<T>)
    requires forall i :: 0 <= i < |picks| ==> 1 <= picks[i] <= |items|
    ensures |r| == |picks| && forall i :: 0 <= i < |picks| ==> r[i] == items[picks[i] - 1]
  {
    seq(|picks|, i requires 0 <= i < |picks| => items[picks[i] - 1])
  }

  /** Increasing choice numbers among distinct items pick distinct items, in the items' own order. */
  lemma PicksDistinct<T>(items: seq<T>, picks: seq<int>)
    requires forall i :: 0 <= i < |picks| ==> 1 <= picks[i] <= |items|
    requires forall i, j :: 0 <= i < j < |picks| ==> picks[i] < picks[j]
    requires forall i, j :: 0 <= i < j < |items| ==> items[i] != items[j]
    ensures forall i, j :: 0 <= i < j < |picks| ==> PicksOf(items, picks)[i] != PicksOf(items, picks)[j]
  {
    forall i, j | 0 <= i < j < |picks| ensures PicksOf(items, picks)[i] != PicksOf(items, picks)[j] {
      assert picks[i] - 1 < picks[j] - 1;
    }
  }

  /** The projects offered a master build: all selected ones but elfutils and popt. */
  function MasterCandidates(ps: seq<Project>): seq<Project>
    decreases |ps|
  {
    if ps == [] then []
    else MasterCandidates(ps[..|ps| - 1]) + (if ps[|ps| - 1] !in {Elfutils, Popt} then [ps[|ps| - 1]] else [])
  }

  lemma {:induction false} MasterCandidatesMembers(ps: seq<Project>)
    ensures forall p :: p in MasterCandidates(ps) <==> p in ps && p != Elfutils && p != Popt
    decreases |ps|
  {
    if ps != [] {
      MasterCandidatesMembers(ps[..|ps| - 1]);
      assert ps == ps[..|ps| - 1] + [ps[|ps| - 1]];
    }
  }

  function Names(ps: seq<Project>): (r: seq<string>)
    ensures |r| == |ps| && forall i :: 0 <= i < |ps| ==> r[i] == Name(ps[i])
  {
    seq(|ps|, i requires 0 <= i < |ps| => Name(ps[i]))
  }

  lemma NamesSplit(ps: seq<Project>)
    requires ps != []
    ensures Names(ps) == Names(ps[..|ps| - 1]) + [Name(ps[|ps| - 1])]
  {
    var init := ps[..|ps| - 1];
    var ns := Names(ps);
    var ni := Names(init);
    forall i | 0 <= i < |ni| ensures ns[i] == ni[i] {
      assert init[i] == ps[i];
    }
  }

  /** for k in ks: d[k] = v. */
  function SetAll(d: Dict<string>, ks: seq<string>, v: string): Dict<string>
    decreases |ks|
  {
    if ks == [] then d else Set(SetAll(d, ks[..|ks| - 1], v), ks[|ks| - 1], v)
  }

  /** After the assignments, the keys assigned map to v and every other key is as it was. */
  lemma {:induction false} SetAllMeaning(d: Dict<string>, ks: seq<string>, v: string, k: string)
    ensures Get(SetAll(d, ks, v), k) == if k in ks then Some(v) else Get(d, k)
    decreases |ks|
  {
    if ks != [] {
      SetAllMeaning(d, ks[..|ks| - 1], v, k);
      assert ks == ks[..|ks| - 1] + [ks[|ks| - 1]];
    }
  }

  /** The selected projects not given a version yet (not built from master), in selection order. */
  function Unversioned(ps: seq<Project>, versions: Dict<string>): seq<Project>
    decreases |ps|
  {
    if ps == [] then []
    else Unversioned(ps[..|ps| - 1], versions) + (if Name(ps[|ps| - 1]) !in Keys(versions) then [ps[|ps| - 1]] else [])
  }

  lemma {:induction false} UnversionedMembers(ps: seq<Project>, versions: Dict<string>)
    ensures forall p :: p in Unversioned(ps, versions) <==> p in ps && Name(p) !in Keys(versions)
    decreases |ps|
  {
    if ps != [] {
      UnversionedMembers(ps[..|ps| - 1], versions);
      assert ps == ps[..|ps| - 1] + [ps[|ps| - 1]];
    }
  }

  /** Every answer to a version question is one of the versions offered. */
  predicate PicksVersions(version: Project -> nat) {
    forall p :: 1 <= version(p) <= |Versions(p)|
  }

  /** The version the user picked for p. */
  function Chosen(p: Project, version: Project -> nat): string
    requires 1 <= version(p) <= |Versions(p)|
  {
    Versions(p)[version(p) - 1]
  }

  /** for p in ps: versions[p] = the version picked for p. */
  function Assigned(versions: Dict<string>, ps: seq<Project>, version: Project -> nat): Dict<string>
    requires PicksVersions(version)
    decreases |ps|
  {
    if ps == [] then versions
    else Set(Assigned(versions, ps[..|ps| - 1], version), Name(ps[|ps| - 1]), Chosen(ps[|ps| - 1], version))
  }

  /** Every project assigned a version has an entry afterwards, and no entry is lost. */
  lemma {:induction false} AssignedKeys(versions: Dict<string>, ps: seq<Project>, version: Project -> nat, k: string)
    requires PicksVersions(version)
    ensures Get(Assigned(versions, ps, version), k).Some? <==> Get(versions, k).Some? || k in Names(ps)
    decreases |ps|
  {
    if ps != [] {
      AssignedKeys(versions, ps[..|ps| - 1], version, k);
      NamesSplit(ps);
    }
  }

  /** One profile name '{project}-{version}' per entry, in the dict's order. */
  function ProfileNames(versions: Dict<string>): seq<string>
    decreases |versions|
  {
    if versions == [] then []
    else
      var (p, v) := versions[|versions| - 1];
      ProfileNames(versions[..|versions| - 1]) + [p + "-" + v]
  }

  lemma {:induction false} ProfileNamesShape(versions: Dict<string>)
    ensures |ProfileNames(versions)| == |versions|
    ensures forall i :: 0 <= i < |versions| ==> ProfileNames(versions)[i] == versions[i].0 + "-" + versions[i].1
    decreases |versions|
  {
    if versions != [] {
      var init := versions[..|versions| - 1];
      ProfileNamesShape(init);
      var r := ProfileNames(versions);
      var ri := ProfileNames(init);
      forall i | 0 <= i < |versions| ensures r[i] == versions[i].0 + "-" + versions[i].1 {
        if i < |init| {
          assert init[i] == versions[i];
          assert r[i] == ri[i];
        }
      }
    }
  }

  /**
   * After the version question every selected project has an entry and so a
   * profile name; a project already set to master is not asked again.
   */
  lemma EveryProjectVersioned(ps: seq<Project>, versions: Dict<string>, version: Project -> nat)
    requires PicksVersions(version)
    ensures var after := Assigned(versions, Unversioned(ps, versions), version);
            forall p :: p in ps ==> Get(after, Name(p)).Some? && Name(p) + "-" + Get(after, Name(p)).value in ProfileNames(after)
    ensures forall p :: p in Unversioned(ps, versions) <==> p in ps && Get(versions, Name(p)).None?
  {
    var unv := Unversioned(ps, versions);
    var after := Assigned(versions, unv, version);
    UnversionedMembers(ps, versions);
    ProfileNamesShape(after);
    forall p | p in ps ensures Get(after, Name(p)).Some? && Name(p) + "-" + Get(after, Name(p)).value in ProfileNames(after) {
      AssignedKeys(versions, unv, version, Name(p));
      if Get(versions, Name(p)).None? {
        assert p in unv;
        var i :| 0 <= i < |unv| && unv[i] == p;
        assert Names(unv)[i] == Name(p);
      }
      var v := Get(after, Name(p)).value;
      var j :| 0 <= j < |after| && after[j] == (Name(p), v);
      assert ProfileNames(after)[j] == Name(p) + "-" + v;
    }
  }

  /** Some profile name mentions python: the interpreter question is asked. */
  predicate AnyPython(profiles: seq<string>) {
    exists i :: 0 <= i < |profiles| && Contains(profiles[i], "python")
  }

  /** The Babeltrace bindings profile always asks for an interpreter. */
  lemma BtPythonAsksInterpreter(profiles: seq<string>)
    ensures AnyPython(profiles + ["babeltrace-python"])
  {
    var r := profiles + ["babeltrace-python"];
    assert OccursAt(r[|profiles|], "python", 11);
  }

  /** The path answer: the stripped line, or virt-lttng for a blank one. */
  function PathAnswer(line: string): (path: string)
    ensures path != []
    ensures Strip(line) != "" ==> path == Strip(line)
    ensures Strip(line) == "" ==> path == "virt-lttng"
  {
    var answer := Strip(line);
    if answer == "" then "virt-lttng" else answer
  }

  /** A '-p', name pair per profile. */
  function ProfileArgs(profiles: seq<string>): seq<string>
    decreases |profiles|
  {
    if profiles == [] then [] else ProfileArgs(profiles[..|profiles| - 1]) + ["-p", profiles[|profiles| - 1]]
  }

  /** The two build-env overrides naming the interpreter and its -config tool. */
  function InterpreterArgs(interpreter: Option<string>): seq<string> {
    match interpreter
    case None => []
    case Some(i) => ["-o", "build-env.PYTHON=" + i, "-o", "build-env.PYTHON_CONFIG=" + i + "-config"]
  }

  /** The command line _get_cmd_line_args assembles. */
  function CmdLine(profiles: seq<string>, interpreter: Option<string>, quotedPath: string): seq<string> {
    ["vlttng"] + ProfileArgs(profiles) + InterpreterArgs(interpreter) + [quotedPath]
  }

  lemma {:induction false} ProfileArgsShape(profiles: seq<string>)
    ensures |ProfileArgs(profiles)| == 2 * |profiles|
    ensures forall i :: 0 <= i < |profiles| ==>
              ProfileArgs(profiles)[2 * i] == "-p" && ProfileArgs(profiles)[2 * i + 1] == profiles[i]
    decreases |profiles|
  {
    if profiles != [] {
      var init := profiles[..|profiles| - 1];
      ProfileArgsShape(init);
      var r := ProfileArgs(profiles);
      var ri := ProfileArgs(init);
      forall i | 0 <= i < |profiles| ensures r[2 * i] == "-p" && r[2 * i + 1] == profiles[i] {
        if i < |init| {
          assert init[i] == profiles[i];
          assert r[2 * i] == ri[2 * i] && r[2 * i + 1] == ri[2 * i + 1];
        }
      }
    }
  }

  /**
   * The command line: vlttng, then '-p' and a name per profile in order,
   * then the interpreter overrides exactly when an interpreter was chosen,
   * then the quoted path.
   */
  lemma CmdLineLayout(profiles: seq<string>, interpreter: Option<string>, quotedPath: string)
    ensures var args := CmdLine(profiles, interpreter, quotedPath);
            && |args| == 2 + 2 * |profiles| + (if interpreter.Some? then 4 else 0)
            && args[0] == "vlttng" && args[|args| - 1] == quotedPath
            && (forall i :: 0 <= i < |profiles| ==> args[1 + 2 * i] == "-p" && args[2 + 2 * i] == profiles[i])
            && args[1 + 2 * |profiles|..|args| - 1] == InterpreterArgs(interpreter)
  {
    var args := CmdLine(profiles, interpreter, quotedPath);
    var pa := ProfileArgs(profiles);
    ProfileArgsShape(profiles);
    assert args == ["vlttng"] + pa + InterpreterArgs(interpreter) + [quotedPath];
    forall i | 0 <= i < |profiles| ensures args[1 + 2 * i] == "-p" && args[2 + 2 * i] == profiles[i] {
      assert args[1 + 2 * i] == pa[2 * i] && args[2 + 2 * i] == pa[2 * i + 1];
    }
    assert args[1 + 2 * |profiles|..|args| - 1] == InterpreterArgs(interpreter);
  }

  // ---- The loops of the handlers ----------------------------------------------------------------

  /** The loop of _state_ask_all_master collecting the projects it offers. */
  method CollectMasterCandidates(ps: seq<Project>) returns (cands: seq<Project>)
    ensures cands == MasterCandidates(ps)
  {
    cands := [];
    var i := 0;
    while i < |ps|
      invariant 0 <= i <= |ps|
      invariant cands == MasterCandidates(ps[..i])
    {
      assert ps[..i + 1][..i] == ps[..i];
      if ps[i] !in {Elfutils, Popt} {
        cands := cands + [ps[i]];
      }
      i := i + 1;
    }
    assert ps[..i] == ps;
  }

  /** The names with the given choice numbers, in the order of the numbers. */
  function PickedNames(names: seq<string>, picks: seq<int>): seq<string>
    requires forall i :: 0 <= i < |picks| ==> 1 <= picks[i] <= |names|
    decreases |picks|
  {
    if picks == [] then [] else PickedNames(names, picks[..|picks| - 1]) + [names[picks[|picks| - 1] - 1]]
  }

  /** A name is picked when some choice number names it. */
  lemma {:induction false} PickedNamesMembers(names: seq<string>, picks: seq<int>)
    requires forall i :: 0 <= i < |picks| ==> 1 <= picks[i] <= |names|
    ensures forall x :: x in PickedNames(names, picks) <==> exists i :: 0 <= i < |picks| && names[picks[i] - 1] == x
    decreases |picks|
  {
    if picks != [] {
      var init := picks[..|picks| - 1];
      PickedNamesMembers(names, init);
      var last := names[picks[|picks| - 1] - 1];
      assert PickedNames(names, picks) == PickedNames(names, init) + [last];
      assert forall i :: 0 <= i < |init| ==> init[i] == picks[i];
      forall x | x in PickedNames(names, picks) ensures exists i :: 0 <= i < |picks| && names[picks[i] - 1] == x {
        if x in PickedNames(names, init) {
          var i :| 0 <= i < |init| && names[init[i] - 1] == x;
          assert names[picks[i] - 1] == x;
        } else {
          assert last == x;
        }
      }
      forall x, i | 0 <= i < |picks| && names[picks[i] - 1] == x ensures x in PickedNames(names, picks) {
        if i < |init| {
          assert names[init[i] - 1] == x;
        }
      }
    }
  }

  /** for choice in picks: versions[names[choice - 1]] = 'master'. */
  function Marked(versions: Dict<string>, names: seq<string>, picks: seq<int>): Dict<string>
    requires forall i :: 0 <= i < |picks| ==> 1 <= picks[i] <= |names|
    decreases |picks|
  {
    if picks == [] then versions
    else Set(Marked(versions, names, picks[..|picks| - 1]), names[picks[|picks| - 1] - 1], "master")
  }

  /** After marking, the picked names map to master and every other key is as it was. */
  lemma {:induction false} MarkedMeaning(versions: Dict<string>, names: seq<string>, picks: seq<int>, k: string)
    requires forall i :: 0 <= i < |picks| ==> 1 <= picks[i] <= |names|
    ensures Get(Marked(versions, names, picks), k) == if k in PickedNames(names, picks) then Some("master") else Get(versions, k)
    decreases |picks|
  {
    if picks != [] {
      MarkedMeaning(versions, names, picks[..|picks| - 1], k);
    }
  }

  /** Only elfutils and popt carry those names. */
  lemma TarballNames(p: Project)
    ensures Name(p) == "elfutils" ==> p == Elfutils
    ensures Name(p) == "popt" ==> p == Popt
  {
    match p
    case Babeltrace => assert Name(p)[0] == 'b';
    case Elfutils =>
    case Glib => assert Name(p)[0] == 'g';
    case Libxml2 => assert Name(p)[0] == 'l';
    case LttngAnalyses => assert Name(p)[0] == 'l';
    case LttngModules => assert Name(p)[0] == 'l';
    case LttngTools => assert Name(p)[0] == 'l';
    case LttngUst => assert Name(p)[0] == 'l';
    case Popt =>
    case TraceCompass => assert Name(p)[0] == 't';
    case Urcu => assert Name(p)[0] == 'u';
  }

  /** The master question never sets elfutils or popt to master, which have no Git master to build. */
  lemma MasterSkipsTarballs(versions: Dict<string>, ps: seq<Project>, picks: seq<int>)
    requires forall i :: 0 <= i < |picks| ==> 1 <= picks[i] <= |MasterCandidates(ps)|
    ensures Get(Marked(versions, Names(MasterCandidates(ps)), picks), "elfutils") == Get(versions, "elfutils")
    ensures Get(Marked(versions, Names(MasterCandidates(ps)), picks), "popt") == Get(versions, "popt")
  {
    var names := Names(MasterCandidates(ps));
    MasterCandidatesMembers(ps);
    PickedNamesMembers(names, picks);
    MarkedMeaning(versions, names, picks, "elfutils");
    MarkedMeaning(versions, names, picks, "popt");
    forall i | 0 <= i < |picks| ensures names[picks[i] - 1] != "elfutils" && names[picks[i] - 1] != "popt" {
      var p := MasterCandidates(ps)[picks[i] - 1];
      assert p in MasterCandidates(ps);
      assert names[picks[i] - 1] == Name(p);
      TarballNames(p);
    }
  }

  /** The loop of _state_ask_all_master setting each picked project to master. */
  method MarkMaster(versions: Dict<string>, names: seq<string>, picks: seq<int>) returns (r: Dict<string>)
    requires forall i :: 0 <= i < |picks| ==> 1 <= picks[i] <= |names|
    ensures r == Marked(versions, names, picks)
  {
    r := versions;
    var j := 0;
    while j < |picks|
      invariant 0 <= j <= |picks|
      invariant r == Marked(versions, names, picks[..j])
    {
      assert picks[..j + 1][..j] == picks[..j];
      r := Set(r, names[picks[j] - 1], "master");
      j := j + 1;
    }
    assert picks[..j] == picks;
  }

  /** The first loop of _state_ask_versions: the projects still without a version. */
  method CollectUnversioned(ps: seq<Project>, versions: Dict<string>) returns (asked: seq<Project>)
    ensures asked == Unversioned(ps, versions)
  {
    asked := [];
    var i := 0;
    while i < |ps|
      invariant 0 <= i <= |ps|
      invariant asked == Unversioned(ps[..i], versions)
    {
      assert ps[..i + 1][..i] == ps[..i];
      if Name(ps[i]) !in Keys(versions) {
        asked := asked + [ps[i]];
      }
      i := i + 1;
    }
    assert ps[..i] == ps;
  }

  /** The second loop of _state_ask_versions: each asked project gets the version picked for it. */
  method AssignVersions(versions: Dict<string>, asked: seq<Project>, version: Project -> nat) returns (r: Dict<string>)
    requires PicksVersions(version)
    ensures r == Assigned(versions, asked, version)
  {
    r := versions;
    var j := 0;
    while j < |asked|
      invariant 0 <= j <= |asked|
      invariant r == Assigned(versions, asked[..j], version)
    {
      assert asked[..j + 1][..j] == asked[..j];
      r := Set(r, Name(asked[j]), Versions(asked[j])[version(asked[j]) - 1]);
      j := j + 1;
    }
    assert asked[..j] == asked;
  }

  /** The last loop of _state_ask_versions: a '{project}-{version}' profile per entry, appended. */
  method AppendProfileNames(profiles: seq<string>, versions: Dict<string>) returns (r: seq<string>)
    ensures r == profiles + ProfileNames(versions)
  {
    r := profiles;
    var k := 0;
    while k < |versions|
      invariant 0 <= k <= |versions|
      invariant r == profiles + ProfileNames(versions[..k])
    {
      assert versions[..k + 1][..k] == versions[..k];
      r := r + [versions[k].0 + "-" + versions[k].1];
      k := k + 1;
    }
    assert versions[..k] == versions;
  }

  // ---- The wizard -----------------------------------------------------------------------------

  /**
   * The user's answers as the retry loops of _get_choices, _get_choice,
   * _get_yes_no and _input deliver them: projects to the first question,
   * master(n) to the master question when it offers n choices, version(p)
   * to the version question of p, yesNo(s) to the question of state s,
   * interpreter to the interpreter question and pathLine as typed.
   */
  datatype User = User(projects: Choices, master: nat -> Choices, version: Project -> nat,
                       yesNo: WizardState -> bool, interpreter: int, pathLine: string)

  /** Answers those loops can deliver: every choice in range. */
  ghost predicate Honest(u: User) {
    && ValidChoices(u.projects, |ChoiceProjects|)
    && (forall n: nat :: ValidChoices(u.master(n), n))
    && PicksVersions(u.version)
    && 1 <= u.interpreter <= 2
  }

  /** The wizard's fields apart from its state. */
  datatype Form = Form(profiles: seq<string>, projects: seq<Project>, projectsVersions: Dict<string>,
                       pythonInterpreter: Option<string>, path: Option<string>)

  /** The states handled before state number n, in order. */
  function Handled(n: nat): seq<WizardState>
    requires 1 <= n <= 12
  {
    [AskProjects, AskMaster, AskVersions, AskFeature, AskBtPython, AskLttngToolsPython, AskLttngUstJulAgent,
     AskLttngUstLog4jAgent, AskLttngUstPythonAgent, AskPythonInterpreter, AskPath][..n - 1]
  }

  /** The state of number n is the n-th one handled. */
  lemma HandledNext(s: WizardState)
    requires s != End
    ensures Handled(Number(s) + 1) == Handled(Number(s)) + [s]
  {
    var all := [AskProjects, AskMaster, AskVersions, AskFeature, AskBtPython, AskLttngToolsPython, AskLttngUstJulAgent,
                AskLttngUstLog4jAgent, AskLttngUstPythonAgent, AskPythonInterpreter, AskPath];
    var n := Number(s);
    assert all[n - 1] == s by {
      match s
      case AskProjects =>
      case AskMaster =>
      case AskVersions =>
      case AskFeature =>
      case AskBtPython =>
      case AskLttngToolsPython =>
      case AskLttngUstJulAgent =>
      case AskLttngUstLog4jAgent =>
      case AskLttngUstPythonAgent =>
      case AskPythonInterpreter =>
      case AskPath =>
    }
    assert all[..n] == all[..n - 1] + [all[n - 1]];
  }

  /** The profiles the babeltrace and lttng-tools questions add, for the selected projects ps. */
  function ToolFeatures(ps: seq<Project>, yes: WizardState -> bool): seq<string> {
    (if Babeltrace in ps && (LttngAnalyses in ps || yes(AskBtPython)) then ["babeltrace-python"] else [])
    + (if LttngTools in ps && yes(AskLttngToolsPython) then ["lttng-tools-python"] else [])
  }

  /** The profiles the three LTTng-UST agent questions add, for the selected projects ps. */
  function AgentFeatures(ps: seq<Project>, yes: WizardState -> bool): seq<string> {
    (if LttngUst in ps && yes(AskLttngUstJulAgent) then ["lttng-ust-jul-agent"] else [])
    + (if LttngUst in ps && yes(AskLttngUstLog4jAgent) then ["lttng-ust-log4j-agent"] else [])
    + (if LttngUst in ps && yes(AskLttngUstPythonAgent) then ["lttng-ust-python-agent"] else [])
  }

  /** The feature profiles the five yes/no questions add, for the selected projects ps. */
  function FeatureProfiles(ps: seq<Project>, yes: WizardState -> bool): seq<string> {
    ToolFeatures(ps, yes) + AgentFeatures(ps, yes)
  }

  /** The interpreter the interpreter question leaves, asked only when a profile name mentions python. */
  function InterpreterAnswer(profiles: seq<string>, choice: int, prior: Option<string>): Option<string> {
    if AnyPython(profiles) then Some(if choice == 1 then "python2" else "python3") else prior
  }

  /** _state_ask_projects on the fields f. */
  function ProjectsStep(f: Form, c: Choices): Form
    requires ValidChoices(c, |ChoiceProjects|)
  {
    f.(projects := if c.All? then ChoiceProjects else f.projects + PicksOf(ChoiceProjects, c.picks))
  }

  /** _state_ask_all_master on the fields f. */
  function MasterStep(f: Form, master: nat -> Choices): Form
    requires forall n: nat :: ValidChoices(master(n), n)
  {
    var cands := MasterCandidates(f.projects);
    var c := master(|cands|);
    assert ValidChoices(c, |cands|);
    f.(projectsVersions := if c.All? then SetAll([], Names(cands), "master")
                           else Marked(f.projectsVersions, Names(cands), c.picks))
  }

  /** _state_ask_versions on the fields f. */
  function VersionsStep(f: Form, version: Project -> nat): Form
    requires PicksVersions(version)
  {
    var pv := Assigned(f.projectsVersions, Unversioned(f.projects, f.projectsVersions), version);
    f.(projectsVersions := pv, profiles := f.profiles + ProfileNames(pv))
  }

  /** A yes/no question that adds profile name when cond holds. */
  function FeatureStep(f: Form, cond: bool, name: string): Form {
    f.(profiles := f.profiles + if cond then [name] else [])
  }

  /** What the handler of state s makes of the wizard's fields f, given the answers u. */
  ghost function Step(s: WizardState, f: Form, u: User): Form
    requires Honest(u)
  {
    match s
    case AskProjects => ProjectsStep(f, u.projects)
    case AskMaster => MasterStep(f, u.master)
    case AskVersions => VersionsStep(f, u.version)
    case AskFeature => f
    case AskBtPython =>
      FeatureStep(f, Babeltrace in f.projects && (LttngAnalyses in f.projects || u.yesNo(AskBtPython)), "babeltrace-python")
    case AskLttngToolsPython => FeatureStep(f, LttngTools in f.projects && u.yesNo(AskLttngToolsPython), "lttng-tools-python")
    case AskLttngUstJulAgent => FeatureStep(f, LttngUst in f.projects && u.yesNo(AskLttngUstJulAgent), "lttng-ust-jul-agent")
    case AskLttngUstLog4jAgent =>
      FeatureStep(f, LttngUst in f.projects && u.yesNo(AskLttngUstLog4jAgent), "lttng-ust-log4j-agent")
    case AskLttngUstPythonAgent =>
      FeatureStep(f, LttngUst in f.projects && u.yesNo(AskLttngUstPythonAgent), "lttng-ust-python-agent")
    case AskPythonInterpreter => f.(pythonInterpreter := InterpreterAnswer(f.profiles, u.interpreter, f.pythonInterpreter))
    case AskPath => f.(path := Some(PathAnswer(u.pathLine)))
    case End => f
  }

  /** The fields after the handlers of states ran on f, in order. */
  ghost function Steps(states: seq<WizardState>, f: Form, u: User): Form
    requires Honest(u)
    decreases |states|
  {
    if states == [] then f else Step(states[|states| - 1], Steps(states[..|states| - 1], f, u), u)
  }

  lemma StepsSnoc(states: seq<WizardState>, s: WizardState, f: Form, u: User)
    requires Honest(u)
    ensures Steps(states + [s], f, u) == Step(s, Steps(states, f, u), u)
  {
    assert (states + [s])[..|states|] == states;
  }

  /** Running the handlers of xs + ys is running those of xs, then those of ys. */
  lemma {:induction false} StepsAppend(xs: seq<WizardState>, ys: seq<WizardState>, f: Form, u: User)
    requires Honest(u)
    ensures Steps(xs + ys, f, u) == Steps(ys, Steps(xs, f, u), u)
    decreases |ys|
  {
    if ys == [] {
      assert xs + ys == xs;
    } else {
      var ys' := ys[..|ys| - 1];
      assert (xs + ys)[..|xs + ys| - 1] == xs + ys';
      assert (xs + ys)[|xs + ys| - 1] == ys[|ys| - 1];
      StepsAppend(xs, ys', f, u);
    }
  }

  lemma StepsThree(a: WizardState, b: WizardState, c: WizardState, f: Form, u: User)
    requires Honest(u)
    ensures Steps([a, b, c], f, u) == Step(c, Step(b, Step(a, f, u), u), u)
  {
    StepsSnoc([], a, f, u);
    assert [] + [a] == [a];
    StepsSnoc([a], b, f, u);
    assert [a] + [b] == [a, b];
    StepsSnoc([a, b], c, f, u);
    assert [a, b] + [c] == [a, b, c];
  }

  /** The projects a new wizard selects. */
  function Selected(c: Choices): seq<Project>
    requires ValidChoices(c, |ChoiceProjects|)
  {
    if c.All? then ChoiceProjects else PicksOf(ChoiceProjects, c.picks)
  }

  /** The versions a new wizard has after the master question, for the selected projects ps. */
  function MasterMarked(ps: seq<Project>, master: nat -> Choices): seq<(string, string)>
    requires forall n: nat :: ValidChoices(master(n), n)
  {
    var cands := MasterCandidates(ps);
    var c := master(|cands|);
    assert ValidChoices(c, |cands|);
    if c.All? then SetAll([], Names(cands), "master") else Marked([], Names(cands), c.picks)
  }

  lemma ProjectsFromScratch(u: User)
    requires Honest(u)
    ensures Step(AskProjects, Form([], [], [], None, None), u) == Form([], Selected(u.projects), [], None, None)
  {
    if !u.projects.All? {
      assert [] + PicksOf(ChoiceProjects, u.projects.picks) == Selected(u.projects);
    }
  }

  lemma MasterFromScratch(ps: seq<Project>, u: User)
    requires Honest(u)
    ensures Step(AskMaster, Form([], ps, [], None, None), u) == Form([], ps, MasterMarked(ps, u.master), None, None)
  {
  }

  lemma VersionsFromScratch(ps: seq<Project>, pv0: seq<(string, string)>, u: User)
    requires Honest(u)
    ensures var pv := Assigned(pv0, Unversioned(ps, pv0), u.version);
            Step(AskVersions, Form([], ps, pv0, None, None), u) == Form(ProfileNames(pv), ps, pv, None, None)
  {
    var pv := Assigned(pv0, Unversioned(ps, pv0), u.version);
    assert [] + ProfileNames(pv) == ProfileNames(pv);
  }

  /** The three selection questions, from a new wizard: the projects, then master, then the versions and their names. */
  lemma SelectionSteps(u: User)
    requires Honest(u)
    ensures var ps := Selected(u.projects);
            var pv0 := MasterMarked(ps, u.master);
            var pv := Assigned(pv0, Unversioned(ps, pv0), u.version);
            Steps([AskProjects, AskMaster, AskVersions], Form([], [], [], None, None), u)
            == Form(ProfileNames(pv), ps, pv, None, None)
  {
    var ps := Selected(u.projects);
    StepsThree(AskProjects, AskMaster, AskVersions, Form([], [], [], None, None), u);
    ProjectsFromScratch(u);
    MasterFromScratch(ps, u);
    VersionsFromScratch(ps, MasterMarked(ps, u.master), u);
  }

  lemma BtStep(f: Form, u: User)
    requires Honest(u)
    ensures Step(AskBtPython, f, u)
            == f.(profiles := f.profiles
                    + if Babeltrace in f.projects && (LttngAnalyses in f.projects || u.yesNo(AskBtPython))
                      then ["babeltrace-python"] else [])
  {
  }

  lemma ProfilesAppend(f: Form, a: seq<string>, b: seq<string>)
    ensures f.(profiles := f.profiles + a).(profiles := f.(profiles := f.profiles + a).profiles + b)
            == f.(profiles := f.profiles + (a + b))
  {
    assert f.profiles + a + b == f.profiles + (a + b);
  }

  /** The feature state, the babeltrace and the lttng-tools questions add the tool profiles and change nothing else. */
  lemma ToolSteps(f: Form, u: User)
    requires Honest(u)
    ensures Steps([AskFeature, AskBtPython, AskLttngToolsPython], f, u)
            == f.(profiles := f.profiles + ToolFeatures(f.projects, u.yesNo))
  {
    var ps := f.projects;
    var a := if Babeltrace in ps && (LttngAnalyses in ps || u.yesNo(AskBtPython)) then ["babeltrace-python"] else [];
    var b := if LttngTools in ps && u.yesNo(AskLttngToolsPython) then ["lttng-tools-python"] else [];
    StepsThree(AskFeature, AskBtPython, AskLttngToolsPython, f, u);
    BtStep(f, u);
    var g := f.(profiles := f.profiles + a);
    assert Step(AskLttngToolsPython, g, u) == g.(profiles := g.profiles + b);
    ProfilesAppend(f, a, b);
  }

  /** The three agent questions add the agent profiles and change nothing else. */
  lemma AgentSteps(f: Form, u: User)
    requires Honest(u)
    ensures Steps([AskLttngUstJulAgent, AskLttngUstLog4jAgent, AskLttngUstPythonAgent], f, u)
            == f.(profiles := f.profiles + AgentFeatures(f.projects, u.yesNo))
  {
    var ps := f.projects;
    var a := if LttngUst in ps && u.yesNo(AskLttngUstJulAgent) then ["lttng-ust-jul-agent"] else [];
    var b := if LttngUst in ps && u.yesNo(AskLttngUstLog4jAgent) then ["lttng-ust-log4j-agent"] else [];
    var c := if LttngUst in ps && u.yesNo(AskLttngUstPythonAgent) then ["lttng-ust-python-agent"] else [];
    StepsThree(AskLttngUstJulAgent, AskLttngUstLog4jAgent, AskLttngUstPythonAgent, f, u);
    var g1 := f.(profiles := f.profiles + a);
    assert Step(AskLttngUstJulAgent, f, u) == g1;
    var g2 := g1.(profiles := g1.profiles + b);
    assert Step(AskLttngUstLog4jAgent, g1, u) == g2;
    assert Step(AskLttngUstPythonAgent, g2, u) == g2.(profiles := g2.profiles + c);
    ProfilesAppend(f, a, b);
    ProfilesAppend(f, a + b, c);
  }

  /** The feature state and the five yes/no questions add the feature profiles and change nothing else. */
  lemma FeatureSteps(f: Form, u: User)
    requires Honest(u)
    ensures Steps([AskFeature, AskBtPython, AskLttngToolsPython, AskLttngUstJulAgent, AskLttngUstLog4jAgent,
                   AskLttngUstPythonAgent], f, u)
            == f.(profiles := f.profiles + FeatureProfiles(f.projects, u.yesNo))
  {
    var tools := [AskFeature, AskBtPython, AskLttngToolsPython];
    var agents := [AskLttngUstJulAgent, AskLttngUstLog4jAgent, AskLttngUstPythonAgent];
    assert tools + agents == [AskFeature, AskBtPython, AskLttngToolsPython, AskLttngUstJulAgent, AskLttngUstLog4jAgent,
                              AskLttngUstPythonAgent];
    StepsAppend(tools, agents, f, u);
    ToolSteps(f, u);
    var g := f.(profiles := f.profiles + ToolFeatures(f.projects, u.yesNo));
    AgentSteps(g, u);
    ProfilesAppend(f, ToolFeatures(f.projects, u.yesNo), AgentFeatures(f.projects, u.yesNo));
  }

  /** The last two questions set the interpreter (when a profile mentions python) and the path. */
  lemma FinalSteps(f: Form, u: User)
    requires Honest(u)
    ensures Steps([AskPythonInterpreter, AskPath], f, u)
            == f.(pythonInterpreter := InterpreterAnswer(f.profiles, u.interpreter, f.pythonInterpreter),
                  path := Some(PathAnswer(u.pathLine)))
  {
    StepsSnoc([], AskPythonInterpreter, f, u);
    StepsSnoc([AskPythonInterpreter], AskPath, f, u);
  }

  /**
   * A whole run of a new wizard, answer by answer: the projects picked
   * first, master for the candidates picked second, a version for every
   * other selected project and one profile name per project, the feature
   * profiles, the interpreter when a profile mentions python, and the path.
   */
  lemma FreshRun(u: User)
    requires Honest(u)
    ensures var ps := Selected(u.projects);
            var pv0 := MasterMarked(ps, u.master);
            var pv := Assigned(pv0, Unversioned(ps, pv0), u.version);
            var profiles := ProfileNames(pv) + FeatureProfiles(ps, u.yesNo);
            Steps(Handled(12), Form([], [], [], None, None), u)
            == Form(profiles, ps, pv, InterpreterAnswer(profiles, u.interpreter, None), Some(PathAnswer(u.pathLine)))
  {
    var f0 := Form([], [], [], None, None);
    var sel := [AskProjects, AskMaster, AskVersions];
    var feat := [AskFeature, AskBtPython, AskLttngToolsPython, AskLttngUstJulAgent, AskLttngUstLog4jAgent,
                 AskLttngUstPythonAgent];
    var fin := [AskPythonInterpreter, AskPath];
    assert Handled(12) == (sel + feat) + fin;
    StepsAppend(sel + feat, fin, f0, u);
    StepsAppend(sel, feat, f0, u);
    SelectionSteps(u);
    FeatureSteps(Steps(sel, f0, u), u);
    FinalSteps(Steps(sel + feat, f0, u), u);
  }

  class Wizard {
    const quote: string -> string   // shlex.quote
    var profiles: seq<string>
    var projects: seq<Project>
    var projectsVersions: Dict<string>
    var pythonInterpreter: Option<string>
    var path: Option<string>
    var state: WizardState

    function Snapshot(): Form
      reads this
    {
      Form(profiles, projects, projectsVersions, pythonInterpreter, path)
    }

    /** _Wizard.__init__: nothing chosen yet. */
    constructor (quote: string -> string)
      ensures this.quote == quote && Snapshot() == Form([], [], [], None, None) && state == AskProjects
    {
      this.quote := quote;
      profiles := [];
      projects := [];
      projectsVersions := [];
      pythonInterpreter := None;
      path := None;
      state := AskProjects;
    }

    /** _state_ask_projects: 'a' selects every project, otherwise the picked ones are appended in menu order. */
    method StateAskProjects(c: Choices)
      requires ValidChoices(c, |ChoiceProjects|)
      modifies this
      ensures Snapshot() == old(Snapshot()).(projects := if c.All? then ChoiceProjects
                                                        else old(projects) + PicksOf(ChoiceProjects, c.picks))
      ensures state == AskMaster
    {
      if c.All? {
        projects := ChoiceProjects;
      } else {
        var i := 0;
        while i < |c.picks|
          invariant 0 <= i <= |c.picks|
          invariant Snapshot() == old(Snapshot()).(projects := old(projects) + PicksOf(ChoiceProjects, c.picks[..i]))
        {
          assert PicksOf(ChoiceProjects, c.picks[..i + 1]) == PicksOf(ChoiceProjects, c.picks[..i]) + [ChoiceProjects[c.picks[i] - 1]];
          projects := projects + [ChoiceProjects[c.picks[i] - 1]];
          i := i + 1;
        }
        assert c.picks[..i] == c.picks;
      }
      state := AskMaster;
    }

    /** _state_ask_all_master: every offered project ('a') or the picked ones are set to master. */
    method StateAskAllMaster(master: nat -> Choices)
      requires forall n: nat :: ValidChoices(master(n), n)
      modifies this
      ensures var cands := MasterCandidates(old(projects));
              var c := master(|cands|);
              && ValidChoices(c, |cands|)
              && Snapshot() == old(Snapshot()).(projectsVersions :=
                                 if c.All? then SetAll([], Names(cands), "master")
                                 else Marked(old(projectsVersions), Names(cands), c.picks))
      ensures state == AskVersions
    {
      var cands := CollectMasterCandidates(projects);
      var c := master(|cands|);
      if c.All? {
        projectsVersions := SetAll([], Names(cands), "master");
      } else {
        projectsVersions := MarkMaster(projectsVersions, Names(cands), c.picks);
      }
      state := AskVersions;
    }

    /**
     * _state_ask_versions: a version asked for each selected project not
     * built from master, then one profile name per entry.
     */
    method StateAskVersions(version: Project -> nat)
      requires PicksVersions(version)
      modifies this
      ensures projectsVersions == Assigned(old(projectsVersions), Unversioned(old(projects), old(projectsVersions)), version)
      ensures profiles == old(profiles) + ProfileNames(projectsVersions)
      ensures projects == old(projects) && pythonInterpreter == old(pythonInterpreter) && path == old(path)
      ensures state == AskFeature
    {
      var asked := CollectUnversioned(projects, projectsVersions);
      var pv := AssignVersions(projectsVersions, asked, version);
      var names := AppendProfileNames(profiles, pv);
      projectsVersions, profiles, state := pv, names, AskFeature;
    }

    /** _state_ask_feature: no question. */
    method StateAskFeature()
      modifies this
      ensures Snapshot() == old(Snapshot()) && state == AskBtPython
    {
      state := AskBtPython;
    }

    /** _state_ask_bt_python: asked only with Babeltrace and without the analyses, which imply the bindings. */
    method StateAskBtPython(yes: bool)
      modifies this
      ensures Snapshot() == old(Snapshot()).(profiles := old(profiles) +
                              if Babeltrace in old(projects) && (LttngAnalyses in old(projects) || yes) then ["babeltrace-python"] else [])
      ensures state == AskLttngToolsPython
    {
      if Babeltrace !in projects {
        state := AskLttngToolsPython;
        return;
      }
      if LttngAnalyses in projects {
        profiles := profiles + ["babeltrace-python"];
        state := AskLttngToolsPython;
        return;
      }
      if yes {
        profiles := profiles + ["babeltrace-python"];
      }
      state := AskLttngToolsPython;
    }

    /** _state_ask_lttng_tools_python: asked only with LTTng-tools. */
    method StateAskLttngToolsPython(yes: bool)
      modifies this
      ensures Snapshot() == old(Snapshot()).(profiles := old(profiles) +
                              if LttngTools in old(projects) && yes then ["lttng-tools-python"] else [])
      ensures state == AskLttngUstJulAgent
    {
      if LttngTools in projects && yes {
        profiles := profiles + ["lttng-tools-python"];
      }
      state := AskLttngUstJulAgent;
    }

    /** _state_ask_lttng_ust_jul_agent: asked only with LTTng-UST. */
    method StateAskLttngUstJulAgent(yes: bool)
      modifies this
      ensures Snapshot() == old(Snapshot()).(profiles := old(profiles) +
                              if LttngUst in old(projects) && yes then ["lttng-ust-jul-agent"] else [])
      ensures state == AskLttngUstLog4jAgent
    {
      if LttngUst in projects && yes {
        profiles := profiles + ["lttng-ust-jul-agent"];
      }
      state := AskLttngUstLog4jAgent;
    }

    /** _state_ask_lttng_ust_log4j_agent: asked only with LTTng-UST. */
    method StateAskLttngUstLog4jAgent(yes: bool)
      modifies this
      ensures Snapshot() == old(Snapshot()).(profiles := old(profiles) +
                              if LttngUst in old(projects) && yes then ["lttng-ust-log4j-agent"] else [])
      ensures state == AskLttngUstPythonAgent
    {
      if LttngUst in projects && yes {
        profiles := profiles + ["lttng-ust-log4j-agent"];
      }
      state := AskLttngUstPythonAgent;
    }

    /** _state_ask_lttng_ust_python_agent: asked only with LTTng-UST. */
    method StateAskLttngUstPythonAgent(yes: bool)
      modifies this
      ensures Snapshot() == old(Snapshot()).(profiles := old(profiles) +
                              if LttngUst in old(projects) && yes then ["lttng-ust-python-agent"] else [])
      ensures state == AskPythonInterpreter
    {
      if LttngUst in projects && yes {
        profiles := profiles + ["lttng-ust-python-agent"];
      }
      state := AskPythonInterpreter;
    }

    /** _state_ask_python_interpreter: asked only when a profile name mentions python; choice 1 is Python 2. */
    method StateAskPythonInterpreter(choice: int)
      requires 1 <= choice <= 2
      modifies this
      ensures Snapshot() == old(Snapshot()).(pythonInterpreter :=
                              if AnyPython(old(profiles)) then Some(if choice == 1 then "python2" else "python3")
                              else old(pythonInterpreter))
      ensures state == AskPath
    {
      var foundPython := false;
      var i := 0;
      while i < |profiles|
        invariant 0 <= i <= |profiles|
        invariant foundPython ==> AnyPython(profiles)
        invariant !foundPython ==> forall j :: 0 <= j < i ==> !Contains(profiles[j], "python")
      {
        if Contains(profiles[i], "python") {
          foundPython := true;
          break;
        }
        i := i + 1;
      }
      if !foundPython {
        state := AskPath;
        return;
      }
      if choice == 1 {
        pythonInterpreter := Some("python2");
      } else {
        pythonInterpreter := Some("python3");
      }
      state := AskPath;
    }

    /** _state_ask_path: the stripped answer, virt-lttng when blank. */
    method StateAskPath(line: string)
      modifies this
      ensures Snapshot() == old(Snapshot()).(path := Some(PathAnswer(line)))
      ensures state == End
    {
      var answer := Strip(line);
      if answer == "" {
        answer := "virt-lttng";
      }
      path := Some(answer);
      state := End;
    }

    /** _handle_state: the handler of the current state, with the user's answer to its question. */
    method HandleState(u: User)
      requires Honest(u) && state != End
      modifies this
      ensures Number(state) == Number(old(state)) + 1
      ensures state == End ==> path == Some(PathAnswer(u.pathLine))
      ensures Snapshot() == Step(old(state), old(Snapshot()), u)
    {
      match state
      case AskProjects => StateAskProjects(u.projects);
      case AskMaster => StateAskAllMaster(u.master);
      case AskVersions => StateAskVersions(u.version);
      case AskFeature => StateAskFeature();
      case AskBtPython => StateAskBtPython(u.yesNo(AskBtPython));
      case AskLttngToolsPython => StateAskLttngToolsPython(u.yesNo(AskLttngToolsPython));
      case AskLttngUstJulAgent => StateAskLttngUstJulAgent(u.yesNo(AskLttngUstJulAgent));
      case AskLttngUstLog4jAgent => StateAskLttngUstLog4jAgent(u.yesNo(AskLttngUstLog4jAgent));
      case AskLttngUstPythonAgent => StateAskLttngUstPythonAgent(u.yesNo(AskLttngUstPythonAgent));
      case AskPythonInterpreter => StateAskPythonInterpreter(u.interpreter);
      case AskPath => StateAskPath(u.pathLine);
    }

    /** _get_cmd_line_args. */
    method GetCmdLineArgs() returns (args: seq<string>)
      requires path.Some?
      ensures args == CmdLine(profiles, pythonInterpreter, quote(path.value))
    {
      args := ["vlttng"];
      var i := 0;
      while i < |profiles|
        invariant 0 <= i <= |profiles|
        invariant args == ["vlttng"] + ProfileArgs(profiles[..i])
      {
        assert profiles[..i + 1][..i] == profiles[..i];
        args := args + ["-p", profiles[i]];
        i := i + 1;
      }
      assert profiles[..i] == profiles;
      if pythonInterpreter.Some? {
        args := args + ["-o", "build-env.PYTHON=" + pythonInterpreter.value];
        args := args + ["-o", "build-env.PYTHON_CONFIG=" + pythonInterpreter.value + "-config"];
      }
      args := args + [quote(path.value)];
    }

    /**
     * start, up to the command line: from ASK_PROJECTS every state's
     * handler runs once, in order, until END.
     */
    method Start(u: User) returns (args: seq<string>, ghost visited: seq<WizardState>)
      requires Honest(u)
      modifies this
      ensures visited == [AskProjects, AskMaster, AskVersions, AskFeature, AskBtPython, AskLttngToolsPython,
                          AskLttngUstJulAgent, AskLttngUstLog4jAgent, AskLttngUstPythonAgent, AskPythonInterpreter, AskPath]
      ensures state == End && path == Some(PathAnswer(u.pathLine))
      ensures args == CmdLine(profiles, pythonInterpreter, quote(PathAnswer(u.pathLine)))
      ensures Snapshot() == Steps(visited, old(Snapshot()), u)
    {
      state := AskProjects;
      visited := [];
      while state != End
        invariant visited == Handled(Number(state))
        invariant state == End ==> path == Some(PathAnswer(u.pathLine))
        invariant Snapshot() == Steps(visited, old(Snapshot()), u)
        decreases 12 - Number(state)
      {
        ghost var s := state;
        visited := visited + [s];
        HandleState(u);
        HandledNext(s);
        StepsSnoc(visited[..|visited| - 1], s, old(Snapshot()), u);
      }
      args := GetCmdLineArgs();
    }
  }

  /**
   * run: a new wizard asks every question once and ends with the command
   * line built from the user's answers alone.
   */
  method Run(quote: string -> string, u: User) returns (args: seq<string>)
    requires Honest(u)
    ensures var ps := Selected(u.projects);
            var pv0 := MasterMarked(ps, u.master);
            var pv := Assigned(pv0, Unversioned(ps, pv0), u.version);
            var profiles := ProfileNames(pv) + FeatureProfiles(ps, u.yesNo);
            args == CmdLine(profiles, InterpreterAnswer(profiles, u.interpreter, None), quote(PathAnswer(u.pathLine)))
  {
    var wizard := new Wizard(quote);
    ghost var visited;
    args, visited := wizard.Start(u);
    assert visited == Handled(12);
    FreshRun(u);
  }
}
