/**
 * The start-up script of the built UI (html/run.js): it lists every `.html`
 * and `.js` file under the build directory, replaces the five `{{NAME}}`
 * placeholders in each with the environment's value or a default, and
 * rewrites a file only when its text changed.
 *
 * The build directory is a tree of entries; a path is the sequence of names
 * from the build directory down (`path.join` of the components).  File
 * contents are a map from paths to text, the environment a map from names
 * to values.
 */
module RunScript {
  import opened ApiTypes
  import opened Text

  // ---------------------------------------------------------------------------
  // Listing the build directory

  /** A directory entry as `readdirSync`/`statSync` report it. */
  datatype Entry = File(name: string) | Directory(name: string, entries: seq<Entry>)

  type Path = seq<string>

  /** `/\.(html|js)$/.test(file)`. */
  predicate MatchesPattern(name: string)
    ensures MatchesPattern(name) <==>
              (|name| >= 3 && name[|name| - 3..] == ".js") || (|name| >= 5 && name[|name| - 5..] == ".html")
  {
    EndsWith(name, ".html") || EndsWith(name, ".js")
  }

  /** What `findFiles(dir)` returns for a directory whose entries are `es`, in `readdirSync` order. */
  function Listing(dir: Path, es: seq<Entry>): seq<Path>
    decreases es
  {
    if es == [] then [] else Listing(dir, es[..|es| - 1]) + EntryListing(dir, es[|es| - 1])
  }

  /** The paths one entry contributes: itself if it is a matching file, its listing if it is a directory. */
  function EntryListing(dir: Path, e: Entry): seq<Path>
    decreases e
  {
    match e
    case File(n) => if MatchesPattern(n) then [dir + [n]] else []
    case Directory(n, sub) => Listing(dir + [n], sub)
  }

  /** `p` names a file somewhere below `dir`, at any depth. */
  predicate Reaches(dir: Path, es: seq<Entry>, p: Path)
    decreases es
  {
    exists i :: 0 <= i < |es| && ReachesVia(dir, es[i], p)
  }

  /** `p` is the file `e` itself, or a file below the directory `e`. */
  predicate ReachesVia(dir: Path, e: Entry, p: Path)
    decreases e
  {
    match e
    case File(n) => p == dir + [n]
    case Directory(n, sub) => Reaches(dir + [n], sub, p)
  }

  /**
   * `findFiles`: a loop over the entries that descends into directories and
   * keeps the files whose name matches.
   */
  method FindFiles(dir: Path, es: seq<Entry>) returns (results: seq<Path>)
    ensures results == Listing(dir, es)
    decreases es
  {
    results := [];
    for i := 0 to |es|
      invariant results == Listing(dir, es[..i])
    {
      assert es[..i + 1][..i] == es[..i];
      var e := es[i];
      if e.Directory? {
        var sub := FindFiles(dir + [e.name], e.entries);
        results := results + sub;
      } else if MatchesPattern(e.name) {
        results := results + [dir + [e.name]];
      }
    }
    assert es[..|es|] == es;
  }

  lemma ReachesSnoc(dir: Path, es: seq<Entry>, p: Path)
    requires es != []
    ensures Reaches(dir, es, p) <==> Reaches(dir, es[..|es| - 1], p) || ReachesVia(dir, es[|es| - 1], p)
  {
    var init := es[..|es| - 1];
    if Reaches(dir, es, p) {
      var i :| 0 <= i < |es| && ReachesVia(dir, es[i], p);
      if i < |es| - 1 {
        assert es[i] == init[i];
      }
    }
    if Reaches(dir, init, p) {
      var i :| 0 <= i < |init| && ReachesVia(dir, init[i], p);
      assert es[i] == init[i];
    }
  }

  /**
   * `findFiles` returns exactly the files at any depth whose name matches
   * the pattern; directories are searched whatever their names.
   */
  lemma {:induction false} ListingIsMatchingFiles(dir: Path, es: seq<Entry>, p: Path)
    ensures p in Listing(dir, es) <==> Reaches(dir, es, p) && |p| > 0 && MatchesPattern(p[|p| - 1])
    decreases es
  {
    if es != [] {
      var init, e := es[..|es| - 1], es[|es| - 1];
      ListingIsMatchingFiles(dir, init, p);
      ReachesSnoc(dir, es, p);
      match e
      case File(n) =>
      case Directory(n, sub) =>
        ListingIsMatchingFiles(dir + [n], sub, p);
    }
  }

  /** Every listed path lies below the directory searched. */
  lemma {:induction false} ListingBelow(dir: Path, es: seq<Entry>, p: Path)
    requires p in Listing(dir, es)
    ensures |p| > |dir| && p[..|dir|] == dir
    decreases es
  {
    var init, e := es[..|es| - 1], es[|es| - 1];
    if p in Listing(dir, init) {
      ListingBelow(dir, init, p);
    } else {
      match e
      case File(n) =>
      case Directory(n, sub) =>
        ListingBelow(dir + [n], sub, p);
        assert p[..|dir|] == p[..|dir + [n]|][..|dir|];
    }
  }

  /** A real directory never holds two entries of the same name, at any level. */
  predicate UniqueNames(es: seq<Entry>)
    decreases es
  {
    && (forall j, k :: 0 <= j < k < |es| ==> es[j].name != es[k].name)
    && (forall j :: 0 <= j < |es| ==> es[j].Directory? ==> UniqueNames(es[j].entries))
  }

  ghost predicate Distinct<T>(xs: seq<T>)
  {
    forall j, k :: 0 <= j < k < |xs| ==> xs[j] != xs[k]
  }

  /** A listed path continues below `dir` with the name of one of its entries. */
  lemma {:induction false} ListingComponent(dir: Path, es: seq<Entry>, p: Path)
    requires p in Listing(dir, es)
    ensures |p| > |dir| && p[..|dir|] == dir
    ensures exists i :: 0 <= i < |es| && es[i].name == p[|dir|]
    decreases es
  {
    ListingBelow(dir, es, p);
    var init, e := es[..|es| - 1], es[|es| - 1];
    if p in Listing(dir, init) {
      ListingComponent(dir, init, p);
      var i :| 0 <= i < |init| && init[i].name == p[|dir|];
      assert es[i] == init[i];
    } else {
      match e
      case File(n) =>
      case Directory(n, sub) =>
        ListingBelow(dir + [n], sub, p);
        assert p[..|dir + [n]|] == dir + [n];
        assert p[|dir|] == (dir + [n])[|dir|];
    }
  }

  lemma DistinctConcat<T>(a: seq<T>, b: seq<T>)
    requires Distinct(a) && Distinct(b)
    requires forall x :: x in a ==> x !in b
    ensures Distinct(a + b)
  {
    var c := a + b;
    forall j, k | 0 <= j < k < |c| ensures c[j] != c[k] {
      if k >= |a| && j < |a| {
        assert c[j] in a && c[k] == b[k - |a|];
      } else if j >= |a| {
        assert c[j] == b[j - |a|] && c[k] == b[k - |a|];
      }
    }
  }

  /** The paths an entry contributes continue below `dir` with that entry's name. */
  lemma EntryListingComponent(dir: Path, e: Entry, p: Path)
    requires p in EntryListing(dir, e)
    ensures |p| > |dir| && p[|dir|] == e.name
  {
    if e.Directory? {
      ListingComponent(dir + [e.name], e.entries, p);
      assert p[|dir|] == p[..|dir| + 1][|dir|];
    }
  }

  /** Paths from different entries of one directory differ. */
  lemma ListingsApart(dir: Path, es: seq<Entry>, p: Path)
    requires es != [] && UniqueNames(es)
    requires p in Listing(dir, es[..|es| - 1])
    ensures p !in EntryListing(dir, es[|es| - 1])
  {
    var init := es[..|es| - 1];
    ListingComponent(dir, init, p);
    var i :| 0 <= i < |init| && init[i].name == p[|dir|];
    assert es[i] == init[i];
    if p in EntryListing(dir, es[|es| - 1]) {
      EntryListingComponent(dir, es[|es| - 1], p);
    }
  }

  /** In a tree of unique names `findFiles` lists every file once. */
  lemma {:induction false} ListingDistinct(dir: Path, es: seq<Entry>)
    requires UniqueNames(es)
    ensures Distinct(Listing(dir, es))
    decreases es
  {
    if es != [] {
      var init, e := es[..|es| - 1], es[|es| - 1];
      assert UniqueNames(init) by {
        forall j | 0 <= j < |init| ensures init[j] == es[j] { }
      }
      ListingDistinct(dir, init);
      if e.Directory? {
        ListingDistinct(dir + [e.name], e.entries);
      }
      forall p | p in Listing(dir, init) ensures p !in EntryListing(dir, e) {
        ListingsApart(dir, es, p);
      }
      DistinctConcat(Listing(dir, init), EntryListing(dir, e));
    }
  }

  // ---------------------------------------------------------------------------
  // `String.prototype.replace` with a global pattern

  predicate OccursAt(s: string, pat: string, k: int)
  {
    0 <= k && k + |pat| <= |s| && s[k..k + |pat|] == pat
  }

  predicate Occurs(s: string, pat: string)
  {
    exists k :: 0 <= k <= |s| && OccursAt(s, pat, k)
  }

  /**
   * The replacement text for a match of length `m` at `k` in `s`: `$$` is a
   * dollar, `$&` the match, `` $` `` the text before it, `$'` the text after
   * it; the patterns have no capture groups, so any other `$` stays as it is.
   */
  function Expand(rep: string, s: string, k: nat, m: nat): string
    requires k + m <= |s|
    decreases |rep|
  {
    if rep == [] then []
    else if rep[0] == '$' && |rep| >= 2 && rep[1] == '$' then "$" + Expand(rep[2..], s, k, m)
    else if rep[0] == '$' && |rep| >= 2 && rep[1] == '&' then s[k..k + m] + Expand(rep[2..], s, k, m)
    else if rep[0] == '$' && |rep| >= 2 && rep[1] == '`' then s[..k] + Expand(rep[2..], s, k, m)
    else if rep[0] == '$' && |rep| >= 2 && rep[1] == '\'' then s[k + m..] + Expand(rep[2..], s, k, m)
    else [rep[0]] + Expand(rep[1..], s, k, m)
  }

  /** A replacement without a dollar sign is inserted verbatim. */
  lemma {:induction false} ExpandVerbatim(rep: string, s: string, k: nat, m: nat)
    requires k + m <= |s| && '$' !in rep
    ensures Expand(rep, s, k, m) == rep
    decreases |rep|
  {
    if rep != [] {
      assert '$' !in rep[1..];
      ExpandVerbatim(rep[1..], s, k, m);
    }
  }

  /** The scan of a global replace from position `i`: leftmost matches, none overlapping. */
  function ReplaceFrom(s: string, pat: string, rep: string, i: nat): string
    requires |pat| > 0 && i <= |s|
    decreases |s| - i
  {
    if i + |pat| > |s| then s[i..]
    else if s[i..i + |pat|] == pat then Expand(rep, s, i, |pat|) + ReplaceFrom(s, pat, rep, i + |pat|)
    else [s[i]] + ReplaceFrom(s, pat, rep, i + 1)
  }

  /** `s.replace(/pat/g, rep)` for a pattern that matches one literal text. */
  function ReplaceAll(s: string, pat: string, rep: string): string
    requires |pat| > 0
  {
    ReplaceFrom(s, pat, rep, 0)
  }

  /** The first piece with one more character in front. */
  function ConsHead(c: char, pieces: seq<string>): seq<string>
    requires |pieces| >= 1
  {
    [[c] + pieces[0]] + pieces[1..]
  }

  /**
   * The text cut at every leftmost, non-overlapping occurrence of `pat`,
   * read from the front: a match at the start cuts, anything else joins the
   * first piece.
   */
  function Split(s: string, pat: string): (pieces: seq<string>)
    requires |pat| > 0
    ensures |pieces| >= 1
    decreases |s|
  {
    if |s| < |pat| then [s]
    else if s[..|pat|] == pat then [""] + Split(s[|pat|..], pat)
    else ConsHead(s[0], Split(s[1..], pat))
  }

  function Join(pieces: seq<string>, sep: string): string
    requires |pieces| >= 1
  {
    if |pieces| == 1 then pieces[0] else pieces[0] + sep + Join(pieces[1..], sep)
  }

  lemma JoinConsHead(c: char, pieces: seq<string>, sep: string)
    requires |pieces| >= 1
    ensures Join(ConsHead(c, pieces), sep) == [c] + Join(pieces, sep)
  {
    var q := ConsHead(c, pieces);
    if |pieces| > 1 {
      assert q[1..] == pieces[1..];
    }
  }

  /** Cutting loses nothing: joining the pieces with the pattern gives the text back. */
  lemma {:induction false} SplitJoin(s: string, pat: string)
    requires |pat| > 0
    ensures Join(Split(s, pat), pat) == s
    decreases |s|
  {
    if |s| < |pat| {
      assert Split(s, pat) == [s];
    } else if s[..|pat|] == pat {
      JoinSplitAtMatch(s, pat, pat);
      SplitJoin(s[|pat|..], pat);
      assert s == s[..|pat|] + s[|pat|..];
    } else {
      JoinSplitSkip(s, pat, pat);
      SplitJoin(s[1..], pat);
      assert s == [s[0]] + s[1..];
    }
  }

  /** The first piece is the text up to the first cut. */
  lemma {:induction false} SplitHeadIsPrefix(s: string, pat: string)
    requires |pat| > 0
    ensures |Split(s, pat)[0]| <= |s| && Split(s, pat)[0] == s[..|Split(s, pat)[0]|]
    decreases |s|
  {
    if |s| >= |pat| && s[..|pat|] != pat {
      SplitHeadIsPrefix(s[1..], pat);
    }
  }

  lemma OccursAtShift(c: char, t: string, pat: string, k: int)
    requires k > 0 && OccursAt([c] + t, pat, k)
    ensures OccursAt(t, pat, k - 1)
  {
    assert t[k - 1..k - 1 + |pat|] == ([c] + t)[k..k + |pat|];
  }

  lemma OccursAtPrefix(s: string, h: string, pat: string)
    requires |h| <= |s| && h == s[..|h|] && OccursAt(h, pat, 0)
    ensures OccursAt(s, pat, 0)
  {
    assert h[0..|pat|] == s[0..|pat|];
  }

  /** A prefix of a text that does not start with the pattern, one character longer than a pattern-free text, is pattern-free. */
  lemma ConsPieceFree(s: string, pat: string, h: string)
    requires |pat| > 0 && |s| >= |pat| && s[..|pat|] != pat
    requires |h| >= 1 && |h| <= |s| && h == s[..|h|] && !Occurs(h[1..], pat)
    ensures !Occurs(h, pat)
  {
    assert !OccursAt(s, pat, 0) by { assert s[0..|pat|] == s[..|pat|]; }
    assert h == [h[0]] + h[1..];
    forall k | 0 <= k <= |h| ensures !OccursAt(h, pat, k) {
      if OccursAt(h, pat, k) {
        if k > 0 {
          OccursAtShift(h[0], h[1..], pat, k);
        } else {
          OccursAtPrefix(s, h, pat);
        }
      }
    }
  }

  /** Every occurrence is cut: no piece contains the pattern. */
  lemma {:induction false} SplitPiecesFree(s: string, pat: string)
    requires |pat| > 0
    ensures forall j :: 0 <= j < |Split(s, pat)| ==> !Occurs(Split(s, pat)[j], pat)
    decreases |s|
  {
    var pieces := Split(s, pat);
    if |s| < |pat| {
      assert pieces == [s];
    } else if s[..|pat|] == pat {
      SplitPiecesFree(s[|pat|..], pat);
      var rest := Split(s[|pat|..], pat);
      assert pieces == [""] + rest;
      forall j | 0 <= j < |pieces| ensures !Occurs(pieces[j], pat) {
        if j > 0 { assert pieces[j] == rest[j - 1]; }
      }
    } else {
      SplitPiecesFree(s[1..], pat);
      var rest := Split(s[1..], pat);
      SplitHeadIsPrefix(s[1..], pat);
      assert pieces[0] == [s[0]] + rest[0];
      assert pieces[0][1..] == rest[0];
      ConsPieceFree(s, pat, pieces[0]);
      forall j | 0 <= j < |pieces| ensures !Occurs(pieces[j], pat) {
        if j > 0 { assert pieces[j] == rest[j]; }
      }
    }
  }

  /** Cutting text that starts with the pattern: an empty first piece, then the rest cut. */
  lemma JoinSplitAtMatch(t: string, pat: string, rep: string)
    requires |pat| > 0 && |t| >= |pat| && t[..|pat|] == pat
    ensures Join(Split(t, pat), rep) == rep + Join(Split(t[|pat|..], pat), rep)
  {
    var rest := Split(t[|pat|..], pat);
    assert Split(t, pat) == [""] + rest;
    assert ([""] + rest)[1..] == rest;
  }

  /** Cutting text that does not start with the pattern: its first character leads the first piece. */
  lemma JoinSplitSkip(t: string, pat: string, rep: string)
    requires |pat| > 0 && |t| >= |pat| && t[..|pat|] != pat
    ensures Join(Split(t, pat), rep) == [t[0]] + Join(Split(t[1..], pat), rep)
  {
    JoinConsHead(t[0], Split(t[1..], pat), rep);
  }

  /** A match at `i` puts the `$`-free replacement in its place and moves past it. */
  lemma ReplaceFromAtMatch(s: string, pat: string, rep: string, i: nat)
    requires |pat| > 0 && i + |pat| <= |s| && s[i..i + |pat|] == pat && '$' !in rep
    ensures ReplaceFrom(s, pat, rep, i) == rep + ReplaceFrom(s, pat, rep, i + |pat|)
  {
    ExpandVerbatim(rep, s, i, |pat|);
  }

  /** Too little text left for a match: both keep the rest as it is. */
  lemma ReplaceFromJoinTail(s: string, pat: string, rep: string, i: nat)
    requires |pat| > 0 && i <= |s| && i + |pat| > |s|
    ensures ReplaceFrom(s, pat, rep, i) == Join(Split(s[i..], pat), rep)
  {
    assert Split(s[i..], pat) == [s[i..]];
  }

  /** How far one step of the scan at `i` moves: past a match, or past one character. */
  function StepLength(s: string, pat: string, i: nat): (k: nat)
    requires |pat| > 0 && i + |pat| <= |s|
    ensures 1 <= k <= |pat|
  {
    if s[i..i + |pat|] == pat then |pat| else 1
  }

  /** What one step of the scan at `i` emits: the replacement at a match, the character otherwise. */
  function StepText(s: string, pat: string, rep: string, i: nat): string
    requires |pat| > 0 && i + |pat| <= |s|
  {
    if s[i..i + |pat|] == pat then rep else [s[i]]
  }

  /** One step of the scan: the step's text, then the scan from past it. */
  lemma ReplaceFromStep(s: string, pat: string, rep: string, i: nat)
    requires |pat| > 0 && i + |pat| <= |s| && '$' !in rep
    ensures ReplaceFrom(s, pat, rep, i) == StepText(s, pat, rep, i) + ReplaceFrom(s, pat, rep, i + StepLength(s, pat, i))
  {
    if s[i..i + |pat|] == pat {
      ReplaceFromAtMatch(s, pat, rep, i);
    }
  }

  /** One step of the cut-and-join: the step's text, then the cut-and-join of what follows it. */
  lemma JoinSplitStep(s: string, pat: string, rep: string, i: nat)
    requires |pat| > 0 && i + |pat| <= |s| && '$' !in rep
    ensures Join(Split(s[i..], pat), rep) == StepText(s, pat, rep, i) + Join(Split(s[i + StepLength(s, pat, i)..], pat), rep)
  {
    var t := s[i..];
    assert t[..|pat|] == s[i..i + |pat|] && t[|pat|..] == s[i + |pat|..] && t[1..] == s[i + 1..] && t[0] == s[i];
    if s[i..i + |pat|] == pat {
      JoinSplitAtMatch(t, pat, rep);
    } else {
      JoinSplitSkip(t, pat, rep);
    }
  }

  /** The scan and the cut-and-join describe the same text when the replacement has no `$`. */
  lemma {:induction false} ReplaceFromIsJoin(s: string, pat: string, rep: string, i: nat)
    requires |pat| > 0 && i <= |s| && '$' !in rep
    ensures ReplaceFrom(s, pat, rep, i) == Join(Split(s[i..], pat), rep)
    decreases |s| - i
  {
    if i + |pat| > |s| {
      ReplaceFromJoinTail(s, pat, rep, i);
    } else {
      ReplaceFromIsJoin(s, pat, rep, i + StepLength(s, pat, i));
      ReplaceFromStep(s, pat, rep, i);
      JoinSplitStep(s, pat, rep, i);
    }
  }

  /**
   * Every occurrence of the placeholder is replaced: with a `$`-free value
   * the result is the text cut at each occurrence and rejoined with the value.
   */
  lemma ReplaceAllIsJoin(s: string, pat: string, rep: string)
    requires |pat| > 0 && '$' !in rep
    ensures ReplaceAll(s, pat, rep) == Join(Split(s, pat), rep)
  {
    ReplaceFromIsJoin(s, pat, rep, 0);
    assert s[0..] == s;
  }

  lemma {:induction false} ReplaceFromNoOccurrence(s: string, pat: string, rep: string, i: nat)
    requires |pat| > 0 && i <= |s|
    requires forall k :: i <= k ==> !OccursAt(s, pat, k)
    ensures ReplaceFrom(s, pat, rep, i) == s[i..]
    decreases |s| - i
  {
    if i + |pat| <= |s| {
      assert !OccursAt(s, pat, i);
      ReplaceFromNoOccurrence(s, pat, rep, i + 1);
      assert s[i..] == [s[i]] + s[i + 1..];
    }
  }

  /** Text without the placeholder comes back unchanged, whatever the replacement. */
  lemma ReplaceAllNoOccurrence(s: string, pat: string, rep: string)
    requires |pat| > 0 && !Occurs(s, pat)
    ensures ReplaceAll(s, pat, rep) == s
  {
    ReplaceFromNoOccurrence(s, pat, rep, 0);
    assert s[0..] == s;
  }

  // ---------------------------------------------------------------------------
  // The substitution chain

  /** A placeholder with the default used when its variable is unset or empty. */
  datatype Rule = Rule(name: string, fallback: string)

  /** The five substitutions, in the order they are applied. */
  const RULES := [
    Rule("APP_BASE_URL", "http://localhost:8080"),
    Rule("SRT_PLAYER_PORT", "4000"),
    Rule("SRT_SENDER_PORT", "4001"),
    Rule("SLS_STATS_PORT", "8080"),
    Rule("SRTLA_PORT", "")
  ]

  /** The marker a template writes for a variable: its name between double braces. */
  function Placeholder(name: string): (p: string)
    ensures |p| == |name| + 4
    ensures p[..2] == "{{" && p[2..|p| - 2] == name && p[|p| - 2..] == "}}"
  {
    "{{" + name + "}}"
  }

  /** `process.env.NAME || fallback`: an unset or empty variable gives the fallback. */
  function EnvOr(env: map<string, string>, name: string, fallback: string): (v: string)
    ensures name in env && env[name] != "" ==> v == env[name]
    ensures name !in env || env[name] == "" ==> v == fallback
  {
    if name in env && env[name] != "" then env[name] else fallback
  }

  /** The rules applied one after the other, each to the previous result. */
  function ApplyRules(s: string, env: map<string, string>, rules: seq<Rule>): string
    decreases |rules|
  {
    if rules == [] then s
    else
      var r := rules[0];
      ApplyRules(ReplaceAll(s, Placeholder(r.name), EnvOr(env, r.name, r.fallback)), env, rules[1..])
  }

  /** The new content of one file. */
  function Substitute(content: string, env: map<string, string>): string
  {
    ApplyRules(content, env, RULES)
  }

  /** Applying a list of rules is applying its first part and then the rest to that result. */
  lemma {:induction false} ApplyRulesSequential(s: string, env: map<string, string>, first: seq<Rule>, rest: seq<Rule>)
    ensures ApplyRules(s, env, first + rest) == ApplyRules(ApplyRules(s, env, first), env, rest)
    decreases |first|
  {
    if first != [] {
      var r := first[0];
      assert (first + rest)[0] == r && (first + rest)[1..] == first[1..] + rest;
      ApplyRulesSequential(ReplaceAll(s, Placeholder(r.name), EnvOr(env, r.name, r.fallback)), env, first[1..], rest);
    } else {
      assert first + rest == rest;
    }
  }

  /** The chain of `content.replace(...)` calls, with each variable's value or default. */
  lemma SubstitutionChain(content: string, env: map<string, string>)
    ensures Substitute(content, env) ==
      var s1 := ReplaceAll(content, Placeholder("APP_BASE_URL"), EnvOr(env, "APP_BASE_URL", "http://localhost:8080"));
      var s2 := ReplaceAll(s1, Placeholder("SRT_PLAYER_PORT"), EnvOr(env, "SRT_PLAYER_PORT", "4000"));
      var s3 := ReplaceAll(s2, Placeholder("SRT_SENDER_PORT"), EnvOr(env, "SRT_SENDER_PORT", "4001"));
      var s4 := ReplaceAll(s3, Placeholder("SLS_STATS_PORT"), EnvOr(env, "SLS_STATS_PORT", "8080"));
      ReplaceAll(s4, Placeholder("SRTLA_PORT"), EnvOr(env, "SRTLA_PORT", ""))
  {
    var r := RULES;
    var s1 := ApplyFirstRule(content, env, r);
    var s2 := ApplyFirstRule(s1, env, r[1..]);
    var s3 := ApplyFirstRule(s2, env, r[2..]);
    var s4 := ApplyFirstRule(s3, env, r[3..]);
    var s5 := ApplyFirstRule(s4, env, r[4..]);
    assert r[1..][1..] == r[2..] && r[2..][1..] == r[3..] && r[3..][1..] == r[4..] && r[4..][1..] == [];
  }

  /** One step of the chain, with the rule's effect stated for the step that follows. */
  lemma ApplyFirstRule(s: string, env: map<string, string>, rules: seq<Rule>) returns (next: string)
    requires rules != []
    ensures next == ReplaceAll(s, Placeholder(rules[0].name), EnvOr(env, rules[0].name, rules[0].fallback))
    ensures ApplyRules(s, env, rules) == ApplyRules(next, env, rules[1..])
  {
    next := ReplaceAll(s, Placeholder(rules[0].name), EnvOr(env, rules[0].name, rules[0].fallback));
  }

  /** Text that contains none of the placeholders is left exactly as it was. */
  lemma {:induction false} NoPlaceholderUnchanged(s: string, env: map<string, string>, rules: seq<Rule>)
    requires forall j :: 0 <= j < |rules| ==> !Occurs(s, Placeholder(rules[j].name))
    ensures ApplyRules(s, env, rules) == s
    decreases |rules|
  {
    if rules != [] {
      var r := rules[0];
      ReplaceAllNoOccurrence(s, Placeholder(r.name), EnvOr(env, r.name, r.fallback));
      forall j | 0 <= j < |rules[1..]| ensures !Occurs(s, Placeholder(rules[1..][j].name)) {
        assert rules[1..][j] == rules[j + 1];
      }
      NoPlaceholderUnchanged(s, env, rules[1..]);
    }
  }

  // ---------------------------------------------------------------------------
  // Rewriting the files

  /** The contents after the files `files` were processed in order. */
  function Rewritten(contents: map<Path, string>, files: seq<Path>, env: map<string, string>): map<Path, string>
    requires forall j :: 0 <= j < |files| ==> files[j] in contents
    ensures Rewritten(contents, files, env).Keys == contents.Keys
    decreases |files|
  {
    if files == [] then contents
    else
      var before := Rewritten(contents, files[..|files| - 1], env);
      var f := files[|files| - 1];
      var updated := Substitute(before[f], env);
      if updated != before[f] then before[f := updated] else before
  }

  /** The files written, in order, when `files` are processed. */
  function Written(contents: map<Path, string>, files: seq<Path>, env: map<string, string>): seq<Path>
    requires forall j :: 0 <= j < |files| ==> files[j] in contents
    decreases |files|
  {
    if files == [] then []
    else
      var before := Rewritten(contents, files[..|files| - 1], env);
      var f := files[|files| - 1];
      Written(contents, files[..|files| - 1], env) + (if Substitute(before[f], env) != before[f] then [f] else [])
  }

  lemma RewriteStep(contents: map<Path, string>, files: seq<Path>, env: map<string, string>, i: nat)
    requires forall j :: 0 <= j < |files| ==> files[j] in contents
    requires i < |files|
    ensures files[i] in Rewritten(contents, files[..i], env)
    ensures
      var before := Rewritten(contents, files[..i], env);
      var f := files[i];
      var updated := Substitute(before[f], env);
      && Rewritten(contents, files[..i + 1], env) == (if updated != before[f] then before[f := updated] else before)
      && Written(contents, files[..i + 1], env) == Written(contents, files[..i], env) + (if updated != before[f] then [f] else [])
  {
    assert files[..i + 1][..i] == files[..i];
    assert files[..i + 1][i] == files[i];
  }

  /**
   * The `forEach` over the listed files: read, substitute, and write back
   * only when the text changed.
   */
  method RewriteFiles(contents: map<Path, string>, files: seq<Path>, env: map<string, string>)
    returns (result: map<Path, string>, written: seq<Path>)
    requires forall j :: 0 <= j < |files| ==> files[j] in contents
    ensures result == Rewritten(contents, files, env)
    ensures written == Written(contents, files, env)
  {
    result, written := contents, [];
    for i := 0 to |files|
      invariant result == Rewritten(contents, files[..i], env)
      invariant written == Written(contents, files[..i], env)
    {
      RewriteStep(contents, files, env, i);
      var f := files[i];
      var content := result[f];
      var newContent := Substitute(content, env);
      if content != newContent {
        result := result[f := newContent];
        written := written + [f];
      }
    }
    assert files[..|files|] == files;
  }

  /**
   * For distinct files each listed file ends up with its substituted text,
   * every other file is untouched, and a file is written exactly when its
   * text changed.
   */
  lemma {:induction false} RewrittenClosedForm(contents: map<Path, string>, files: seq<Path>, env: map<string, string>, p: Path)
    requires forall j :: 0 <= j < |files| ==> files[j] in contents
    requires Distinct(files) && p in contents
    ensures Rewritten(contents, files, env)[p] == if p in files then Substitute(contents[p], env) else contents[p]
    ensures p in Written(contents, files, env) <==> p in files && Substitute(contents[p], env) != contents[p]
    decreases |files|
  {
    if files != [] {
      var init, f := files[..|files| - 1], files[|files| - 1];
      assert Distinct(init);
      RewrittenClosedForm(contents, init, env, p);
      RewrittenClosedForm(contents, init, env, f);
      assert f !in init by {
        forall j | 0 <= j < |init| ensures init[j] != f { assert init[j] == files[j]; }
      }
      assert p in files <==> p in init || p == f;
    }
  }

  // ---------------------------------------------------------------------------
  // The script

  datatype RunOutcome =
    | BuildMissing                                              // exit status 1
    | Served(contents: map<Path, string>, written: seq<Path>)   // the HTTP server is started

  /** The name of the build directory under the script's directory. */
  const BUILD_DIR := "build"

  /**
   * The whole script: stop when there is no build directory; otherwise list
   * the matching files, rewrite them, and hand over to the HTTP server.
   */
  method Run(build: Option<seq<Entry>>, contents: map<Path, string>, env: map<string, string>)
    returns (outcome: RunOutcome)
    requires build.Some? ==> forall p :: p in Listing([BUILD_DIR], build.value) ==> p in contents
    ensures build.None? <==> outcome == BuildMissing
    ensures build.Some? ==>
      var files := Listing([BUILD_DIR], build.value);
      outcome == Served(Rewritten(contents, files, env), Written(contents, files, env))
  {
    if build.None? {
      return BuildMissing;
    }
    var files := FindFiles([BUILD_DIR], build.value);
    var result, written := RewriteFiles(contents, files, env);
    outcome := Served(result, written);
  }
}
