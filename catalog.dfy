/**
 * The results catalog: a scan of the idea subdirectories of a base
 * directory that reads each `results.json`, keeps the ideas carrying the
 * configured metric, and ranks them by that metric, best first.
 *
 * The directory is given as the list `iterdir()` yields, in no particular
 * order; each entry says whether it is a subdirectory and, for one, what
 * its `results.json` turned out to be.
 */
module Catalog {
  import opened Names
  import opened Sorting

  datatype Path = Path(parts: seq<string>)

  /** `p / name`. */
  function Child(p: Path, name: string): Path {
    Path(p.parts + [name])
  }

  /**
   * A value stored in `results.json`. Only numbers and `null` are
   * modelled; values of other types are outside the model.
   */
  datatype Stored = Null | Number(value: real)

  /**
   * What `subdir / "results.json"` turns out to be: no such file, a file
   * that cannot be read or parsed, a document that is not an object (so
   * `data.get` fails), or an object.
   */
  datatype ResultsFile = Missing | Unparsable | NotObject | Object(fields: map<string, Stored>)

  datatype Node = File | Directory(results: ResultsFile)

  datatype Entry = Entry(name: string, node: Node)

  /** One catalog record: `{"idea": name, "metric_value": value, "path": subdir}`. */
  datatype IdeaResult = IdeaResult(idea: string, metricValue: real, path: Path)

  function MetricOf(r: IdeaResult): real {
    r.metricValue
  }

  function IdeaOf(r: IdeaResult): string {
    r.idea
  }

  /** Names within one directory are unique. */
  predicate DistinctNames(dir: seq<Entry>) {
    forall i, j :: 0 <= i < j < |dir| ==> dir[i].name != dir[j].name
  }

  predicate NamesAscending(l: seq<Entry>) {
    forall i, j :: 0 <= i < j < |l| ==> NameLess(l[i].name, l[j].name)
  }

  predicate IdeasAscending(rs: seq<IdeaResult>) {
    forall i, j :: 0 <= i < j < |rs| ==> NameLess(rs[i].idea, rs[j].idea)
  }

  // ---------------------------------------------------------------------
  // `sorted(base_dir.iterdir())`: children of one directory compare by name.

  function InsertByName(x: Entry, t: seq<Entry>): seq<Entry> {
    if t == [] then [x]
    else if NameLess(x.name, t[0].name) then [x] + t
    else [t[0]] + InsertByName(x, t[1..])
  }

  function SortByName(dir: seq<Entry>): seq<Entry> {
    if dir == [] then [] else InsertByName(dir[0], SortByName(dir[1..]))
  }

  lemma {:induction false} InsertByNameMultiset(x: Entry, t: seq<Entry>)
    ensures multiset(InsertByName(x, t)) == multiset(t) + multiset{x}
  {
    if t != [] && !NameLess(x.name, t[0].name) {
      InsertByNameMultiset(x, t[1..]);
      assert t == [t[0]] + t[1..];
    }
  }

  lemma {:induction false} InsertByNameAscending(x: Entry, t: seq<Entry>)
    requires NamesAscending(t)
    requires forall y :: y in t ==> y.name != x.name
    ensures NamesAscending(InsertByName(x, t))
  {
    if t == [] {
    } else if NameLess(x.name, t[0].name) {
      forall j | 0 < j < |t|
        ensures NameLess(x.name, t[j].name)
      {
        NameLessTransitive(x.name, t[0].name, t[j].name);
      }
    } else {
      NameLessTotal(x.name, t[0].name);
      var rest := InsertByName(x, t[1..]);
      InsertByNameAscending(x, t[1..]);
      InsertByNameMultiset(x, t[1..]);
      forall j | 0 <= j < |rest|
        ensures NameLess(t[0].name, rest[j].name)
      {
        assert rest[j] in multiset(rest);
        if rest[j] != x {
          assert rest[j] in t[1..];
        }
      }
    }
  }

  lemma {:induction false} SortByNameMultiset(dir: seq<Entry>)
    ensures multiset(SortByName(dir)) == multiset(dir)
  {
    if dir != [] {
      SortByNameMultiset(dir[1..]);
      InsertByNameMultiset(dir[0], SortByName(dir[1..]));
      assert dir == [dir[0]] + dir[1..];
    }
  }

  /** The listing the scan walks holds the entries of the directory in strictly ascending name order. */
  lemma {:induction false} SortByNameSpec(dir: seq<Entry>)
    requires DistinctNames(dir)
    ensures NamesAscending(SortByName(dir))
    ensures multiset(SortByName(dir)) == multiset(dir)
  {
    SortByNameMultiset(dir);
    if dir != [] {
      var rest := SortByName(dir[1..]);
      SortByNameSpec(dir[1..]);
      forall y | y in rest
        ensures y.name != dir[0].name
      {
        assert y in multiset(rest);
        assert y in dir[1..];
      }
      InsertByNameAscending(dir[0], rest);
    }
  }

  // ---------------------------------------------------------------------
  // One subdirectory.

  /** A subdirectory whose `results.json` parses to an object mapping `metric` to a non-null value. */
  predicate HasMetric(e: Entry, metric: string) {
    e.node.Directory? && e.node.results.Object?
      && metric in e.node.results.fields && e.node.results.fields[metric].Number?
  }

  function MetricValue(e: Entry, metric: string): real
    requires HasMetric(e, metric)
  {
    e.node.results.fields[metric].value
  }

  /** A subdirectory whose `results.json` exists but cannot be read, parsed, or asked for a key. */
  predicate HasBadResults(e: Entry) {
    e.node.Directory? && (e.node.results.Unparsable? || e.node.results.NotObject?)
  }

  /**
   * Stand-in for `hash(name) % 2**32`. Python salts `str` hashes per
   * process, so only the shape is kept: a value below 2^32 fixed by the name.
   */
  function NameHash(name: string): (h: nat)
    ensures h < 0x1_0000_0000
  {
    if name == [] then 0
    else (NameHash(name[..|name| - 1]) * 31 + name[|name| - 1] as int) % 0x1_0000_0000
  }

  /** Stand-in for `round(random.uniform(0.3, 0.9), 4)` after seeding with the name's hash. */
  function SyntheticMetric(name: string): (v: real)
    ensures 0.3 <= v <= 0.9
    ensures (v * 10000.0).Floor as real == v * 10000.0
  {
    (3000 + NameHash(name) % 6001) as real / 10000.0
  }

  datatype Scanned = Kept(result: IdeaResult) | Skipped | Warned

  /** What the loop body does with one entry of the listing. */
  function ScanEntry(base: Path, e: Entry, metric: string, useRandom: bool): Scanned
  {
    match e.node
    case File => Skipped
    case Directory(rf) =>
      if useRandom then Kept(IdeaResult(e.name, SyntheticMetric(e.name), Child(base, e.name)))
      else
        match rf
        case Missing => Skipped
        case Unparsable => Warned
        case NotObject => Warned
        case Object(fields) =>
          if metric !in fields || fields[metric].Null? then Skipped
          else Kept(IdeaResult(e.name, fields[metric].value, Child(base, e.name)))
  }

  function KeptOf(s: Scanned): seq<IdeaResult> {
    if s.Kept? then [s.result] else []
  }

  /** The records the loop collects from the listing `l`, before the final sort. */
  function Collect(base: Path, l: seq<Entry>, metric: string, useRandom: bool): seq<IdeaResult>
    decreases |l|
  {
    if l == [] then []
    else Collect(base, l[..|l| - 1], metric, useRandom) + KeptOf(ScanEntry(base, l[|l| - 1], metric, useRandom))
  }

  /** The names of the subdirectories the loop warns about, in listing order. */
  function Warnings(base: Path, l: seq<Entry>, metric: string, useRandom: bool): seq<string>
    decreases |l|
  {
    if l == [] then []
    else
      Warnings(base, l[..|l| - 1], metric, useRandom)
        + (if ScanEntry(base, l[|l| - 1], metric, useRandom).Warned? then [l[|l| - 1].name] else [])
  }

  /** The subdirectories of `l`, in listing order. */
  function Directories(l: seq<Entry>): seq<Entry>
    decreases |l|
  {
    if l == [] then []
    else Directories(l[..|l| - 1]) + (if l[|l| - 1].node.Directory? then [l[|l| - 1]] else [])
  }

  // ---------------------------------------------------------------------
  // Properties of the scan.

  /** The records of a listing are the records of its parts, one after the other. */
  lemma {:induction false} CollectConcat(base: Path, a: seq<Entry>, b: seq<Entry>, metric: string, useRandom: bool)
    ensures Collect(base, a + b, metric, useRandom) == Collect(base, a, metric, useRandom) + Collect(base, b, metric, useRandom)
    decreases |b|
  {
    if b == [] {
      assert a + b == a;
    } else {
      var b', last := b[..|b| - 1], b[|b| - 1];
      CollectConcat(base, a, b', metric, useRandom);
      assert (a + b)[..|a + b| - 1] == a + b';
      assert (a + b)[|a + b| - 1] == last;
    }
  }

  /** The warnings of a listing are the warnings of its parts, one after the other. */
  lemma {:induction false} WarningsConcat(base: Path, a: seq<Entry>, b: seq<Entry>, metric: string, useRandom: bool)
    ensures Warnings(base, a + b, metric, useRandom) == Warnings(base, a, metric, useRandom) + Warnings(base, b, metric, useRandom)
    decreases |b|
  {
    if b == [] {
      assert a + b == a;
    } else {
      var b', last := b[..|b| - 1], b[|b| - 1];
      WarningsConcat(base, a, b', metric, useRandom);
      assert (a + b)[..|a + b| - 1] == a + b';
      assert (a + b)[|a + b| - 1] == last;
    }
  }

  /**
   * A subdirectory whose `results.json` is unreadable or not an object
   * is reported and skipped; the scan goes on with the rest of the listing.
   */
  lemma BadEntryIsSkipped(base: Path, a: seq<Entry>, e: Entry, b: seq<Entry>, metric: string)
    requires HasBadResults(e)
    ensures Collect(base, a + [e] + b, metric, false) == Collect(base, a + b, metric, false)
    ensures Warnings(base, a + [e] + b, metric, false) == Warnings(base, a, metric, false) + [e.name] + Warnings(base, b, metric, false)
  {
    var ae := a + [e];
    assert ae[..|ae| - 1] == a && ae[|ae| - 1] == e;
    var ca, wa := Collect(base, a, metric, false), Warnings(base, a, metric, false);
    assert Collect(base, ae, metric, false) == ca;
    assert Warnings(base, ae, metric, false) == wa + [e.name];
    CollectConcat(base, ae, b, metric, false);
    CollectConcat(base, a, b, metric, false);
    WarningsConcat(base, ae, b, metric, false);
  }

  /** A record is collected exactly when some entry of the listing yields it. */
  lemma {:induction false} CollectMembers(base: Path, l: seq<Entry>, metric: string, useRandom: bool, r: IdeaResult)
    ensures r in Collect(base, l, metric, useRandom) <==> exists e :: e in l && ScanEntry(base, e, metric, useRandom) == Kept(r)
    decreases |l|
  {
    if l != [] {
      var init, last := l[..|l| - 1], l[|l| - 1];
      CollectMembers(base, init, metric, useRandom, r);
      assert l == init + [last];
      if r in Collect(base, l, metric, useRandom) && r !in Collect(base, init, metric, useRandom) {
        assert ScanEntry(base, last, metric, useRandom) == Kept(r);
      }
    }
  }

  /** A name is reported exactly when some entry of the listing with that name is reported. */
  lemma {:induction false} WarningMembers(base: Path, l: seq<Entry>, metric: string, useRandom: bool, name: string)
    ensures name in Warnings(base, l, metric, useRandom) <==>
      exists e :: e in l && ScanEntry(base, e, metric, useRandom).Warned? && e.name == name
    decreases |l|
  {
    if l != [] {
      var init, last := l[..|l| - 1], l[|l| - 1];
      WarningMembers(base, init, metric, useRandom, name);
      assert l == init + [last];
    }
  }

  /** What one entry yields, in either mode. */
  lemma ScanEntryRule(base: Path, e: Entry, metric: string, r: IdeaResult)
    ensures ScanEntry(base, e, metric, false) == Kept(r) <==>
      HasMetric(e, metric) && r == IdeaResult(e.name, MetricValue(e, metric), Child(base, e.name))
    ensures ScanEntry(base, e, metric, false).Warned? <==> HasBadResults(e)
    ensures ScanEntry(base, e, metric, true) == Kept(r) <==>
      e.node.Directory? && r == IdeaResult(e.name, SyntheticMetric(e.name), Child(base, e.name))
    ensures !ScanEntry(base, e, metric, true).Warned?
  {
  }

  /** The listing holds the entries of the directory, so scanning the one is scanning the other. */
  lemma ListingMembers(base: Path, dir: seq<Entry>, metric: string, useRandom: bool, r: IdeaResult, name: string)
    ensures r in SortDesc(Collect(base, SortByName(dir), metric, useRandom), MetricOf) <==>
      exists e :: e in dir && ScanEntry(base, e, metric, useRandom) == Kept(r)
    ensures name in Warnings(base, SortByName(dir), metric, useRandom) <==>
      exists e :: e in dir && ScanEntry(base, e, metric, useRandom).Warned? && e.name == name
  {
    var listing := SortByName(dir);
    SortByNameMultiset(dir);
    SortDescElements(Collect(base, listing, metric, useRandom), MetricOf);
    CollectMembers(base, listing, metric, useRandom, r);
    WarningMembers(base, listing, metric, useRandom, name);
    forall e
      ensures e in listing <==> e in dir
    {
      assert e in listing <==> e in multiset(listing);
      assert e in dir <==> e in multiset(dir);
    }
  }

  /**
   * Without the random mode, a record is in the ranking exactly when it
   * comes from a subdirectory whose `results.json` maps the metric to a
   * non-null value; its idea is the subdirectory's name and its path the
   * subdirectory.
   */
  lemma InclusionRule(base: Path, dir: seq<Entry>, metric: string, r: IdeaResult)
    ensures r in SortDesc(Collect(base, SortByName(dir), metric, false), MetricOf) <==>
      exists e :: e in dir && HasMetric(e, metric) && r == IdeaResult(e.name, MetricValue(e, metric), Child(base, e.name))
  {
    ListingMembers(base, dir, metric, false, r, "");
    if exists e :: e in dir && ScanEntry(base, e, metric, false) == Kept(r) {
      var e :| e in dir && ScanEntry(base, e, metric, false) == Kept(r);
      ScanEntryRule(base, e, metric, r);
    }
    if exists e :: e in dir && HasMetric(e, metric) && r == IdeaResult(e.name, MetricValue(e, metric), Child(base, e.name)) {
      var e :| e in dir && HasMetric(e, metric) && r == IdeaResult(e.name, MetricValue(e, metric), Child(base, e.name));
      ScanEntryRule(base, e, metric, r);
    }
  }

  /** Without the random mode, a name is reported exactly when its `results.json` is unreadable or not an object. */
  lemma WarningRule(base: Path, dir: seq<Entry>, metric: string, name: string)
    ensures name in Warnings(base, SortByName(dir), metric, false) <==>
      exists e :: e in dir && HasBadResults(e) && e.name == name
  {
    ListingMembers(base, dir, metric, false, IdeaResult("", 0.0, base), name);
    forall e | e in dir
      ensures ScanEntry(base, e, metric, false).Warned? <==> HasBadResults(e)
    {
      ScanEntryRule(base, e, metric, IdeaResult("", 0.0, base));
    }
  }

  /** In random mode the ranking holds every subdirectory, with its synthetic value, and nothing else. */
  lemma RandomInclusionRule(base: Path, dir: seq<Entry>, metric: string, r: IdeaResult)
    ensures r in SortDesc(Collect(base, SortByName(dir), metric, true), MetricOf) <==>
      exists e :: e in dir && e.node.Directory? && r == IdeaResult(e.name, SyntheticMetric(e.name), Child(base, e.name))
  {
    ListingMembers(base, dir, metric, true, r, "");
    if exists e :: e in dir && ScanEntry(base, e, metric, true) == Kept(r) {
      var e :| e in dir && ScanEntry(base, e, metric, true) == Kept(r);
      ScanEntryRule(base, e, metric, r);
    }
    if exists e :: e in dir && e.node.Directory? && r == IdeaResult(e.name, SyntheticMetric(e.name), Child(base, e.name)) {
      var e :| e in dir && e.node.Directory? && r == IdeaResult(e.name, SyntheticMetric(e.name), Child(base, e.name));
      ScanEntryRule(base, e, metric, r);
    }
  }

  /**
   * In random mode every subdirectory yields exactly one record, in listing
   * order, valued by the name alone, and nothing is reported.
   */
  lemma {:induction false} RandomModeKeepsEveryDirectory(base: Path, l: seq<Entry>, metric: string)
    ensures |Collect(base, l, metric, true)| == |Directories(l)|
    ensures forall i :: 0 <= i < |Directories(l)| ==>
      Collect(base, l, metric, true)[i] ==
        IdeaResult(Directories(l)[i].name, SyntheticMetric(Directories(l)[i].name), Child(base, Directories(l)[i].name))
    ensures Warnings(base, l, metric, true) == []
    decreases |l|
  {
    if l != [] {
      RandomModeKeepsEveryDirectory(base, l[..|l| - 1], metric);
    }
  }

  /** Every collected record is named after an entry of the listing. */
  lemma {:induction false} CollectNames(base: Path, l: seq<Entry>, metric: string, useRandom: bool)
    ensures forall r :: r in Collect(base, l, metric, useRandom) ==> exists i :: 0 <= i < |l| && l[i].name == r.idea
    decreases |l|
  {
    if l != [] {
      var init := l[..|l| - 1];
      CollectNames(base, init, metric, useRandom);
      forall r | r in Collect(base, l, metric, useRandom)
        ensures exists i :: 0 <= i < |l| && l[i].name == r.idea
      {
        if r in Collect(base, init, metric, useRandom) {
          var i :| 0 <= i < |init| && init[i].name == r.idea;
          assert l[i] == init[i];
        } else {
          assert l[|l| - 1].name == r.idea;
        }
      }
    }
  }

  /** The scan keeps the listing's name order. */
  lemma {:induction false} CollectAscending(base: Path, l: seq<Entry>, metric: string, useRandom: bool)
    requires NamesAscending(l)
    ensures IdeasAscending(Collect(base, l, metric, useRandom))
    decreases |l|
  {
    if l != [] {
      var init, last := l[..|l| - 1], l[|l| - 1];
      CollectAscending(base, init, metric, useRandom);
      CollectNames(base, init, metric, useRandom);
      var c := Collect(base, init, metric, useRandom);
      var scanned := ScanEntry(base, last, metric, useRandom);
      if scanned.Kept? {
        forall j | 0 <= j < |c|
          ensures NameLess(c[j].idea, last.name)
        {
          assert c[j] in c;
          var i :| 0 <= i < |init| && init[i].name == c[j].idea;
          assert l[i] == init[i];
        }
      }
    }
  }

  /** Taking the records of one value keeps name order. */
  lemma {:induction false} WithKeyAscending(rs: seq<IdeaResult>, v: real)
    requires IdeasAscending(rs)
    ensures IdeasAscending(WithKey(rs, MetricOf, v))
  {
    if rs != [] {
      WithKeyAscending(rs[1..], v);
      WithKeyElements(rs[1..], MetricOf, v);
      var rest := WithKey(rs[1..], MetricOf, v);
      forall j | 0 <= j < |rest|
        ensures NameLess(rs[0].idea, rest[j].idea)
      {
        assert rest[j] in rest;
        var k :| 0 <= k < |rs[1..]| && rs[1..][k] == rest[j];
        assert rs[k + 1] == rest[j];
      }
    }
  }

  lemma AscendingIsDistinct(rs: seq<IdeaResult>)
    requires IdeasAscending(rs)
    ensures DistinctBy(rs, IdeaOf)
  {
    forall i, j | 0 <= i < j < |rs|
      ensures rs[i].idea != rs[j].idea
    {
      NameLessIrreflexive(rs[i].idea);
    }
  }

  /**
   * Ranking the records of a name-ordered listing puts them best first,
   * keeps name order among equal values, and lists no idea twice.
   */
  lemma RankedScan(base: Path, listing: seq<Entry>, metric: string, useRandom: bool)
    requires NamesAscending(listing)
    ensures var c := Collect(base, listing, metric, useRandom);
      var r := SortDesc(c, MetricOf);
      && multiset(r) == multiset(c)
      && NonIncreasing(r, MetricOf)
      && (forall v :: IdeasAscending(WithKey(r, MetricOf, v)))
      && DistinctBy(r, IdeaOf)
  {
    var c := Collect(base, listing, metric, useRandom);
    var r := SortDesc(c, MetricOf);
    SortDescMultiset(c, MetricOf);
    SortDescSorted(c, MetricOf);
    CollectAscending(base, listing, metric, useRandom);
    forall v
      ensures IdeasAscending(WithKey(r, MetricOf, v))
    {
      SortDescStable(c, MetricOf, v);
      WithKeyAscending(c, v);
    }
    AscendingIsDistinct(c);
    SortDescDistinct(c, MetricOf, IdeaOf);
  }

  /** Scanning one more entry of the listing adds what that entry yields. */
  lemma ScanStep(base: Path, l: seq<Entry>, i: nat, metric: string, useRandom: bool)
    requires i < |l|
    ensures Collect(base, l[..i + 1], metric, useRandom)
      == Collect(base, l[..i], metric, useRandom) + KeptOf(ScanEntry(base, l[i], metric, useRandom))
    ensures Warnings(base, l[..i + 1], metric, useRandom)
      == Warnings(base, l[..i], metric, useRandom) + (if ScanEntry(base, l[i], metric, useRandom).Warned? then [l[i].name] else [])
  {
    assert l[..i + 1][..i] == l[..i];
  }

  // ---------------------------------------------------------------------
  // The scan itself.

  /**
   * `load_real_results`: walk the subdirectories in name order, collect a
   * record for each one that carries the metric (or for each one, in random
   * mode), reporting the broken ones, and rank the records best first.
   */
  method LoadRealResults(base: Path, dir: seq<Entry>, metric: string, useRandom: bool)
    returns (results: seq<IdeaResult>, warnings: seq<string>)
    requires DistinctNames(dir)
    ensures results == SortDesc(Collect(base, SortByName(dir), metric, useRandom), MetricOf)
    ensures warnings == Warnings(base, SortByName(dir), metric, useRandom)
    ensures multiset(results) == multiset(Collect(base, SortByName(dir), metric, useRandom))
    ensures NonIncreasing(results, MetricOf)
    ensures forall v :: IdeasAscending(WithKey(results, MetricOf, v))
    ensures DistinctBy(results, IdeaOf)
    // Which subdirectories make it in, and which are reported, in either mode.
    ensures !useRandom ==> forall r :: r in results <==>
      exists e :: e in dir && HasMetric(e, metric) && r == IdeaResult(e.name, MetricValue(e, metric), Child(base, e.name))
    ensures !useRandom ==> forall name :: name in warnings <==> exists e :: e in dir && HasBadResults(e) && e.name == name
    ensures useRandom ==> forall r :: r in results <==>
      exists e :: e in dir && e.node.Directory? && r == IdeaResult(e.name, SyntheticMetric(e.name), Child(base, e.name))
    ensures useRandom ==> warnings == []
  {
    var listing := SortByName(dir);
    SortByNameSpec(dir);
    var collected: seq<IdeaResult> := [];
    warnings := [];
    for i := 0 to |listing|
      invariant collected == Collect(base, listing[..i], metric, useRandom)
      invariant warnings == Warnings(base, listing[..i], metric, useRandom)
    {
      var subdir := listing[i];
      ScanStep(base, listing, i, metric, useRandom);
      if subdir.node.Directory? {
        if useRandom {
          collected := collected + [IdeaResult(subdir.name, SyntheticMetric(subdir.name), Child(base, subdir.name))];
        } else {
          var resultsFile := subdir.node.results;
          if !resultsFile.Missing? {
            if !resultsFile.Object? {
              warnings := warnings + [subdir.name];
            } else {
              var data := resultsFile.fields;
              if metric in data && !data[metric].Null? {
                collected := collected + [IdeaResult(subdir.name, data[metric].value, Child(base, subdir.name))];
              }
            }
          }
        }
      }
    }
    assert listing[..|listing|] == listing;
    results := SortDesc(collected, MetricOf);
    RankedScan(base, listing, metric, useRandom);
    if useRandom {
      forall r
        ensures r in results <==>
          exists e :: e in dir && e.node.Directory? && r == IdeaResult(e.name, SyntheticMetric(e.name), Child(base, e.name))
      {
        RandomInclusionRule(base, dir, metric, r);
      }
      RandomModeKeepsEveryDirectory(base, listing, metric);
    } else {
      forall r
        ensures r in results <==>
          exists e :: e in dir && HasMetric(e, metric) && r == IdeaResult(e.name, MetricValue(e, metric), Child(base, e.name))
      {
        InclusionRule(base, dir, metric, r);
      }
      forall name
        ensures name in warnings <==> exists e :: e in dir && HasBadResults(e) && e.name == name
      {
        WarningRule(base, dir, metric, name);
      }
    }
  }
}
