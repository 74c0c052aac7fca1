/** The stand-alone brand-count scripts (`Reddit_test2.py` and
    `Reddit_test3.py`): they keep only the posts in which a brand is
    detected, as (subreddit, brand) records, count the records per brand
    and per (subreddit, brand) group, and the second one writes the result
    as a Markdown report. Their brand dictionary is the pipeline's `BRANDS`. */
module BrandScripts {
  import opened Text
  import opened Tally
  import opened Brands
  import opened Reddit
  import Report

  /** `{"subreddit": sub, "brand": brand}`. */
  datatype Record = Record(subreddit: string, brand: string)

  /** The names of the dictionary's entries. */
  function Names(table: BrandTable): set<string>
  {
    set e | e in table :: e.0
  }

  /** `if brand:` holds for a detected, non-empty brand name. */
  predicate Kept(brand: Option<string>)
  {
    brand.Some? && brand.value != ""
  }

  /** The record kept for one visited post, if any. */
  function RecordOf(table: BrandTable, e: (string, Post)): seq<Record>
  {
    var brand := Detect(table, PostText(e.1));
    if Kept(brand) then [Record(e.0, brand.value)] else []
  }

  /** The records kept for `fetched`, in visiting order. */
  function Records(table: BrandTable, fetched: seq<(string, Post)>): seq<Record>
  {
    if fetched == [] then []
    else Records(table, fetched[..|fetched| - 1]) + RecordOf(table, fetched[|fetched| - 1])
  }

  /** The positions of the visited posts that yield a record. */
  ghost function KeptPositions(table: BrandTable, fetched: seq<(string, Post)>): set<nat>
  {
    set k: nat | k < |fetched| && Kept(Detect(table, PostText(fetched[k].1)))
  }

  /** The positions of the visited posts that yield the record `r`. */
  ghost function PositionsOf(table: BrandTable, fetched: seq<(string, Post)>, r: Record): set<nat>
  {
    set k: nat | k < |fetched| && fetched[k].0 == r.subreddit &&
                 Kept(Detect(table, PostText(fetched[k].1))) && Detect(table, PostText(fetched[k].1)).value == r.brand
  }

  lemma KeptPositionsSnoc(table: BrandTable, fetched: seq<(string, Post)>)
    requires fetched != []
    ensures var n := |fetched| - 1;
      KeptPositions(table, fetched) ==
      KeptPositions(table, fetched[..n]) + (if RecordOf(table, fetched[n]) != [] then {n} else {})
  {
    var n := |fetched| - 1;
    assert forall k :: 0 <= k < n ==> fetched[..n][k] == fetched[k];
  }

  lemma PositionsOfSnoc(table: BrandTable, fetched: seq<(string, Post)>, r: Record)
    requires fetched != []
    ensures var n := |fetched| - 1;
      PositionsOf(table, fetched, r) ==
      PositionsOf(table, fetched[..n], r) + (if RecordOf(table, fetched[n]) == [r] then {n} else {})
  {
    var n := |fetched| - 1;
    assert forall k :: 0 <= k < n ==> fetched[..n][k] == fetched[k];
  }

  /** One record per visited post that names a brand: there are as many
      records as such posts, and each record occurs as often as there are
      posts from its subreddit detected as its brand. */
  lemma {:induction false} RecordsMultiplicity(table: BrandTable, fetched: seq<(string, Post)>)
    ensures |Records(table, fetched)| == |KeptPositions(table, fetched)|
    ensures forall r :: multiset(Records(table, fetched))[r] == |PositionsOf(table, fetched, r)|
  {
    if fetched == [] {
      assert KeptPositions(table, fetched) == {};
      forall r ensures PositionsOf(table, fetched, r) == {} { }
    } else {
      var n := |fetched| - 1;
      var init := fetched[..n];
      var last := RecordOf(table, fetched[n]);
      RecordsMultiplicity(table, init);
      assert Records(table, fetched) == Records(table, init) + last;
      KeptPositionsSnoc(table, fetched);
      assert n !in KeptPositions(table, init);
      forall r ensures multiset(Records(table, fetched))[r] == |PositionsOf(table, fetched, r)| {
        PositionsOfSnoc(table, fetched, r);
        assert n !in PositionsOf(table, init, r);
        assert multiset(Records(table, fetched))[r] == multiset(Records(table, init))[r] + multiset(last)[r];
      }
    }
  }

  /** Which records are kept: each carries a visited post's subreddit and
      the brand detected first in it, for a post whose text names a brand. */
  lemma {:induction false} RecordsMembers(table: BrandTable, fetched: seq<(string, Post)>)
    ensures |Records(table, fetched)| <= |fetched|
    ensures forall r :: r in Records(table, fetched) <==>
      exists e :: e in fetched && r.subreddit == e.0 && Kept(Detect(table, PostText(e.1))) &&
                  r.brand == Detect(table, PostText(e.1)).value
    ensures forall r :: r in Records(table, fetched) ==> r.brand != "" && r.brand in Names(table)
  {
    if fetched != [] {
      var init, last := fetched[..|fetched| - 1], fetched[|fetched| - 1];
      assert forall e :: e in init ==> e in fetched;
      RecordsMembers(table, init);
      var brand := Detect(table, PostText(last.1));
      if brand.Some? {
        DetectFirstMatch(table, PostText(last.1), brand.value);
      }
      forall r ensures r in Records(table, fetched) <==>
        exists e :: e in fetched && r.subreddit == e.0 && Kept(Detect(table, PostText(e.1))) &&
                    r.brand == Detect(table, PostText(e.1)).value
      {
        if exists e :: e in fetched && r.subreddit == e.0 && Kept(Detect(table, PostText(e.1))) &&
                       r.brand == Detect(table, PostText(e.1)).value {
          var e :| e in fetched && r.subreddit == e.0 && Kept(Detect(table, PostText(e.1))) &&
                   r.brand == Detect(table, PostText(e.1)).value;
          if e != last {
            assert e in init by {
              var k :| 0 <= k < |fetched| && fetched[k] == e;
              assert k < |fetched| - 1;
              assert init[k] == e;
            }
          }
        }
      }
    }
  }

  /** A record is kept exactly for each visited post whose text names a
      brand, and it carries that post's subreddit and the brand detected
      first; nothing else is kept; and one record is kept per such post,
      so each record occurs as often as there are posts from its subreddit
      detected as its brand. */
  lemma RecordsSpec(table: BrandTable, fetched: seq<(string, Post)>)
    ensures |Records(table, fetched)| <= |fetched|
    ensures forall r :: r in Records(table, fetched) <==>
      exists e :: e in fetched && r.subreddit == e.0 && Kept(Detect(table, PostText(e.1))) &&
                  r.brand == Detect(table, PostText(e.1)).value
    ensures forall r :: r in Records(table, fetched) ==> r.brand != "" && r.brand in Names(table)
    ensures |Records(table, fetched)| == |KeptPositions(table, fetched)|
    ensures forall r :: multiset(Records(table, fetched))[r] == |PositionsOf(table, fetched, r)|
  {
    RecordsMembers(table, fetched);
    RecordsMultiplicity(table, fetched);
  }

  lemma {:induction false} RecordsAppend(table: BrandTable, a: seq<(string, Post)>, b: seq<(string, Post)>)
    ensures Records(table, a + b) == Records(table, a) + Records(table, b)
  {
    if b != [] {
      RecordsAppend(table, a, b[..|b| - 1]);
      assert (a + b)[..|a + b| - 1] == a + b[..|b| - 1];
    } else {
      assert a + b == a;
    }
  }

  /** The inner loop: the records kept from one subreddit's listing. */
  method CollectFrom(table: BrandTable, sub: string, listing: seq<Post>) returns (records: seq<Record>)
    requires forall p :: p in listing ==> Complete(p)
    ensures records == Records(table, Tagged(sub, listing))
  {
    records := [];
    var j := 0;
    while j < |listing|
      invariant 0 <= j <= |listing|
      invariant records == Records(table, Tagged(sub, listing[..j]))
    {
      var post := listing[j];
      assert post in listing;
      TaggedStep(sub, listing, j);
      assert Tagged(sub, listing[..j + 1])[..j] == Tagged(sub, listing[..j]);
      var brand := DetectBrand(post.title.value + " " + post.selftext.value, table);
      if brand.Some? && brand.value != "" {
        records := records + [Record(sub, brand.value)];
      }
      j := j + 1;
    }
    assert listing[..j] == listing;
  }

  /** The two nested loops that fill `posts`; the scripts concatenate
      title and body without a fallback, so every post must carry both. */
  method CollectRecords(table: BrandTable, hot: string -> seq<Post>) returns (records: seq<Record>)
    requires AllComplete(TARGET_SUBS, hot)
    ensures records == Records(table, Fetched(TARGET_SUBS, hot))
    ensures forall r :: r in records ==> r.subreddit in TARGET_SUBS && r.brand in Names(table)
  {
    records := [];
    var i := 0;
    while i < |TARGET_SUBS|
      invariant 0 <= i <= |TARGET_SUBS|
      invariant records == Records(table, Fetched(TARGET_SUBS[..i], hot))
    {
      var sub := TARGET_SUBS[i];
      var listing := Listing(hot, sub);
      var more := CollectFrom(table, sub, listing);
      FetchedStep(TARGET_SUBS, hot, i);
      RecordsAppend(table, Fetched(TARGET_SUBS[..i], hot), Tagged(sub, listing));
      records := records + more;
      i := i + 1;
    }
    assert TARGET_SUBS[..i] == TARGET_SUBS;
    RecordsSpec(table, Fetched(TARGET_SUBS, hot));
    FetchedFacts(TARGET_SUBS, hot);
  }

  /** The `brand` column of the records. */
  function BrandColumn(records: seq<Record>): (r: seq<string>)
    ensures |r| == |records|
    ensures forall i :: 0 <= i < |records| ==> r[i] == records[i].brand
  {
    seq(|records|, i requires 0 <= i < |records| => records[i].brand)
  }

  // ---------------------------------------------------------------
  // Counting

  /** `pd.DataFrame(posts)["brand"].value_counts()` as written: with no
      record the frame has no `brand` column, and the lookup raises
      KeyError (None here). */
  function CountsAsWritten(records: seq<Record>): Option<seq<(string, nat)>>
  {
    if records == [] then None else Some(ValueCounts(BrandColumn(records)))
  }

  /** When no visited post names a brand, the script stops with KeyError
      instead of reporting that nothing was found. */
  lemma NoMentionRaises(table: BrandTable, fetched: seq<(string, Post)>)
    requires forall e :: e in fetched ==> Detect(table, PostText(e.1)) == None
    ensures CountsAsWritten(Records(table, fetched)) == None
  {
    RecordsSpec(table, fetched);
  }

  /** Three empty hot listings are such a case. */
  lemma EmptyListingsRaise(hot: string -> seq<Post>)
    requires forall sub :: hot(sub) == []
    ensures CountsAsWritten(Records(BRANDS, Fetched(TARGET_SUBS, hot))) == None
  {
    assert Fetched(TARGET_SUBS[..0], hot) == [];
    FetchedStep(TARGET_SUBS, hot, 0);
    FetchedStep(TARGET_SUBS, hot, 1);
    FetchedStep(TARGET_SUBS, hot, 2);
    assert TARGET_SUBS[..3] == TARGET_SUBS;
  }

  /** The brand counts, with no record giving an empty table. */
  function Counts(records: seq<Record>): (r: seq<(string, nat)>)
    ensures records == [] ==> r == []
  {
    ValueCounts(BrandColumn(records))
  }

  /** Wherever the script as written does not stop, it computes `Counts`;
      and `Counts` lists each brand of a record once, with its number of
      records, the largest first, the counts adding up to the records. */
  lemma CountsSpec(records: seq<Record>)
    ensures records != [] ==> CountsAsWritten(records) == Some(Counts(records))
    ensures DistinctKeys(Counts(records))
    ensures Keys(Counts(records)) == set r | r in records :: r.brand
    ensures forall e :: e in Counts(records) ==> e.1 >= 1 && e.1 == multiset(BrandColumn(records))[e.0]
    ensures Total(Counts(records)) == |records|
    ensures forall i, j :: 0 <= i < j < |Counts(records)| ==> Counts(records)[i].1 >= Counts(records)[j].1
  {
    ValueCountsSpec(BrandColumn(records));
    var col := BrandColumn(records);
    var fromCol := set x | x in col;
    var fromRecords := set r | r in records :: r.brand;
    forall b | b in fromCol ensures b in fromRecords {
      var k :| 0 <= k < |col| && col[k] == b;
      assert records[k] in records;
    }
    forall r | r in records ensures r.brand in fromCol {
      var k :| 0 <= k < |records| && records[k] == r;
      assert col[k] == r.brand;
    }
    assert fromCol == fromRecords;
  }

  // ---------------------------------------------------------------
  // Grouping by (subreddit, brand)

  /** The brands of the records from `sub`, in record order. */
  function BrandsIn(records: seq<Record>, sub: string): seq<string>
  {
    if records == [] then []
    else
      var r := records[|records| - 1];
      BrandsIn(records[..|records| - 1], sub) + (if r.subreddit == sub then [r.brand] else [])
  }

  lemma {:induction false} BrandsInMembers(records: seq<Record>, sub: string)
    ensures forall b :: b in BrandsIn(records, sub) <==> Record(sub, b) in records
  {
    if records != [] {
      var init, r := records[..|records| - 1], records[|records| - 1];
      BrandsInMembers(init, sub);
      assert records == init + [r];
    }
  }

  /** `df.groupby(["subreddit", "brand"]).size()[sub]`: the group sizes of
      one subreddit, by brand name in ascending order. */
  function Breakdown(records: seq<Record>, sub: string): seq<(string, nat)>
  {
    SortBy(ByKey, Occurrences(BrandsIn(records, sub)))
  }

  /** One entry per brand recorded for `sub`, in ascending name order, with
      that (subreddit, brand) group's size; the sizes add up to the records
      from `sub`; and a subreddit with no record has an empty breakdown. */
  lemma BreakdownSpec(records: seq<Record>, sub: string)
    ensures DistinctKeys(Breakdown(records, sub)) && Sorted(ByKey, Breakdown(records, sub))
    ensures forall b :: b in Keys(Breakdown(records, sub)) <==> Record(sub, b) in records
    ensures forall e :: e in Breakdown(records, sub) ==> e.1 >= 1 && e.1 == multiset(BrandsIn(records, sub))[e.0]
    ensures Total(Breakdown(records, sub)) == |BrandsIn(records, sub)|
    ensures Breakdown(records, sub) == [] <==> forall r :: r in records ==> r.subreddit != sub
  {
    var xs := BrandsIn(records, sub);
    OccurrencesSpec(xs);
    PermutationFacts(ByKey, Occurrences(xs));
    BrandsInMembers(records, sub);
    var t := Occurrences(xs);
    var s := Breakdown(records, sub);
    forall e | e in s ensures e.1 >= 1 && e.1 == multiset(xs)[e.0] {
      assert e in multiset(t);
      var k :| 0 <= k < |t| && t[k] == e;
      EntryIsCount(t, k);
      assert e.0 in Keys(t);
      assert e.1 >= 1 by {
        assert multiset(xs)[e.0] > 0;
      }
    }
    if s == [] {
      assert Keys(s) == {};
      forall r | r in records ensures r.subreddit != sub {
        assert r == Record(r.subreddit, r.brand);
      }
    } else {
      assert s[0].0 in Keys(s) by { KeysAt(s, s[0].0); }
      assert Record(sub, s[0].0) in records;
    }
  }

  /** The number of records whose subreddit is in `subs`. */
  function CountIn(records: seq<Record>, subs: set<string>): nat
  {
    if records == [] then 0
    else CountIn(records[..|records| - 1], subs) + (if records[|records| - 1].subreddit in subs then 1 else 0)
  }

  lemma {:induction false} BrandsInCount(records: seq<Record>, sub: string)
    ensures |BrandsIn(records, sub)| == CountIn(records, {sub})
  {
    if records != [] {
      BrandsInCount(records[..|records| - 1], sub);
    }
  }

  lemma {:induction false} CountInUnion(records: seq<Record>, subs: set<string>, sub: string)
    requires sub !in subs
    ensures CountIn(records, subs + {sub}) == CountIn(records, subs) + CountIn(records, {sub})
  {
    if records != [] {
      CountInUnion(records[..|records| - 1], subs, sub);
    }
  }

  lemma {:induction false} CountInAll(records: seq<Record>, subs: set<string>)
    requires forall r :: r in records ==> r.subreddit in subs
    ensures CountIn(records, subs) == |records|
  {
    if records != [] {
      assert forall r :: r in records[..|records| - 1] ==> r in records;
      CountInAll(records[..|records| - 1], subs);
    }
  }

  /** The sum of the breakdown totals of `subs`. */
  function BreakdownTotals(records: seq<Record>, subs: seq<string>): nat
  {
    if subs == [] then 0
    else BreakdownTotals(records, subs[..|subs| - 1]) + Total(Breakdown(records, subs[|subs| - 1]))
  }

  /** A subreddit's group sizes add up to its number of records. */
  lemma BreakdownSize(records: seq<Record>, sub: string)
    ensures Total(Breakdown(records, sub)) == CountIn(records, {sub})
  {
    BreakdownSpec(records, sub);
    BrandsInCount(records, sub);
  }

  lemma {:induction false} BreakdownTotalsCount(records: seq<Record>, subs: seq<string>)
    requires forall i, j :: 0 <= i < j < |subs| ==> subs[i] != subs[j]
    ensures BreakdownTotals(records, subs) == CountIn(records, set s | s in subs)
  {
    if subs == [] {
      assert (set s | s in subs) == {};
      CountInZero(records);
    } else {
      var init, last := subs[..|subs| - 1], subs[|subs| - 1];
      BreakdownTotalsCount(records, init);
      BreakdownSize(records, last);
      assert last !in init;
      assert (set s | s in subs) == (set s | s in init) + {last} by {
        assert subs == init + [last];
      }
      CountInUnion(records, (set s | s in init), last);
    }
  }

  lemma {:induction false} CountInZero(records: seq<Record>)
    ensures CountIn(records, {}) == 0
  {
    if records != [] {
      CountInZero(records[..|records| - 1]);
    }
  }

  /** The per-subreddit breakdowns split the records: over the three target
      subreddits their sizes add up to the number of records, the same total
      as the brand counts. */
  lemma BreakdownsPartition(records: seq<Record>)
    requires forall r :: r in records ==> r.subreddit in TARGET_SUBS
    ensures BreakdownTotals(records, TARGET_SUBS) == |records| == Total(Counts(records))
  {
    TargetSubsDistinct();
    BreakdownTotalsCount(records, TARGET_SUBS);
    CountInAll(records, (set s | s in TARGET_SUBS));
    CountsSpec(records);
  }

  /** The number of records from a subreddit in `subs` with brand `b`. */
  function BrandCountIn(records: seq<Record>, subs: set<string>, b: string): nat
  {
    if records == [] then 0
    else
      var r := records[|records| - 1];
      BrandCountIn(records[..|records| - 1], subs, b) + (if r.subreddit in subs && r.brand == b then 1 else 0)
  }

  lemma {:induction false} BrandsInMultiset(records: seq<Record>, sub: string, b: string)
    ensures multiset(BrandsIn(records, sub))[b] == BrandCountIn(records, {sub}, b)
  {
    if records != [] {
      BrandsInMultiset(records[..|records| - 1], sub, b);
    }
  }

  lemma {:induction false} BrandCountInUnion(records: seq<Record>, subs: set<string>, sub: string, b: string)
    requires sub !in subs
    ensures BrandCountIn(records, subs + {sub}, b) == BrandCountIn(records, subs, b) + BrandCountIn(records, {sub}, b)
  {
    if records != [] {
      BrandCountInUnion(records[..|records| - 1], subs, sub, b);
    }
  }

  lemma {:induction false} BrandCountInZero(records: seq<Record>, b: string)
    ensures BrandCountIn(records, {}, b) == 0
  {
    if records != [] {
      BrandCountInZero(records[..|records| - 1], b);
    }
  }

  lemma {:induction false} BrandCountInAll(records: seq<Record>, subs: set<string>, b: string)
    requires forall r :: r in records ==> r.subreddit in subs
    ensures BrandCountIn(records, subs, b) == multiset(BrandColumn(records))[b]
  {
    if records != [] {
      var init := records[..|records| - 1];
      assert forall r :: r in init ==> r in records;
      BrandCountInAll(init, subs, b);
      assert BrandColumn(records) == BrandColumn(init) + [records[|records| - 1].brand];
      assert records[|records| - 1] in records;
    }
  }

  /** `sub_counts[(sub, b)]` summed over `subs`, a missing group counting 0. */
  function BreakdownSizes(records: seq<Record>, subs: seq<string>, b: string): nat
  {
    if subs == [] then 0
    else BreakdownSizes(records, subs[..|subs| - 1], b) + CountOf(Breakdown(records, subs[|subs| - 1]), b)
  }

  lemma BreakdownCountOf(records: seq<Record>, sub: string, b: string)
    ensures CountOf(Breakdown(records, sub), b) == BrandCountIn(records, {sub}, b)
  {
    BreakdownSpec(records, sub);
    BrandsInMembers(records, sub);
    BrandsInMultiset(records, sub, b);
    CountOfMatches(Breakdown(records, sub), multiset(BrandsIn(records, sub)), b);
  }

  lemma {:induction false} BreakdownSizesCount(records: seq<Record>, subs: seq<string>, b: string)
    requires forall i, j :: 0 <= i < j < |subs| ==> subs[i] != subs[j]
    ensures BreakdownSizes(records, subs, b) == BrandCountIn(records, (set s | s in subs), b)
  {
    if subs == [] {
      assert (set s | s in subs) == {};
      BrandCountInZero(records, b);
    } else {
      var init, last := subs[..|subs| - 1], subs[|subs| - 1];
      BreakdownSizesCount(records, init, b);
      BreakdownCountOf(records, last, b);
      assert last !in init;
      assert (set s | s in subs) == (set s | s in init) + {last} by {
        assert subs == init + [last];
      }
      BrandCountInUnion(records, (set s | s in init), last, b);
    }
  }

  /** Per brand, the group sizes over the three target subreddits add up to
      that brand's overall count (both 0 for a brand never recorded). */
  lemma BreakdownsSumToCounts(records: seq<Record>, b: string)
    requires forall r :: r in records ==> r.subreddit in TARGET_SUBS
    ensures BreakdownSizes(records, TARGET_SUBS, b) == CountOf(Counts(records), b)
  {
    TargetSubsDistinct();
    BreakdownSizesCount(records, TARGET_SUBS, b);
    BrandCountInAll(records, (set s | s in TARGET_SUBS), b);
    var col := BrandColumn(records);
    ValueCountsSpec(col);
    forall x ensures x in Keys(Counts(records)) <==> multiset(col)[x] > 0 {
      assert x in multiset(col) <==> x in col;
    }
    CountOfMatches(Counts(records), multiset(col), b);
  }

  lemma TargetSubsDistinct()
    ensures forall i, j :: 0 <= i < j < |TARGET_SUBS| ==> TARGET_SUBS[i] != TARGET_SUBS[j]
  {
    assert |TARGET_SUBS[0]| == 4 && |TARGET_SUBS[1]| == 17 && |TARGET_SUBS[2]| == 11;
  }

  // ---------------------------------------------------------------
  // The Markdown report of Reddit_test3.py

  const TABLE_HEADER: string := "| ブランド | 件数 |\n|----------|------|\n"

  /** `f"| {brand} | {count} |\n"`. */
  function CountRow(e: (string, nat)): string
  {
    "| " + e.0 + " | " + NatToString(e.1) + " |\n"
  }

  function CountRows(t: seq<(string, nat)>): (r: seq<string>)
    ensures |r| == |t|
  {
    seq(|t|, i requires 0 <= i < |t| => CountRow(t[i]))
  }

  /** The subreddits that have a record (`sub_counts.index`'s first level). */
  function SubsOf(records: seq<Record>): set<string>
  {
    set r | r in records :: r.subreddit
  }

  /** The part written for one subreddit: its heading, then its table only
      when it has a record. */
  function SubSection(records: seq<Record>, sub: string): string
  {
    SubHeading(sub) + SubTable(records, sub)
  }

  function SubHeading(sub: string): string
  {
    "### r/" + sub + "\n\n"
  }

  function SubTable(records: seq<Record>, sub: string): string
  {
    if sub in SubsOf(records) then TABLE_HEADER + Report.Concat(CountRows(Breakdown(records, sub))) + "\n" else ""
  }

  function SubSections(records: seq<Record>, subs: seq<string>): (r: seq<string>)
    ensures |r| == |subs|
  {
    seq(|subs|, i requires 0 <= i < |subs| => SubSection(records, subs[i]))
  }

  /** The whole file; `today` is the date. */
  function ReportText(today: string, records: seq<Record>): string
  {
    Report.TITLE + ("対象Subreddit: " + JoinWith(", ", TARGET_SUBS) + "\n") + ("収集日: " + today + "\n\n") +
    "## ブランド言及件数（合算ランキング）\n\n" + TABLE_HEADER + Report.Concat(CountRows(Counts(records))) + "\n" +
    "## Subredditごとの内訳\n\n" + Report.Concat(SubSections(records, TARGET_SUBS))
  }

  /** A subreddit's table is written exactly when it has a record, with one
      row per brand recorded there; the ranking has one row per distinct
      brand, most mentioned first. */
  lemma ReportTables(records: seq<Record>, sub: string)
    ensures sub in SubsOf(records) <==> Breakdown(records, sub) != []
    ensures |CountRows(Breakdown(records, sub))| == |set r | r in records && r.subreddit == sub :: r.brand|
    ensures |CountRows(Counts(records))| == |set r | r in records :: r.brand|
  {
    BreakdownSpec(records, sub);
    CountsSpec(records);
    var s := Breakdown(records, sub);
    DistinctKeysCard(s);
    DistinctKeysCard(Counts(records));
    assert Keys(s) == set r | r in records && r.subreddit == sub :: r.brand by {
      forall b ensures b in Keys(s) <==> b in (set r | r in records && r.subreddit == sub :: r.brand) {
        if b in (set r | r in records && r.subreddit == sub :: r.brand) {
          var r :| r in records && r.subreddit == sub && r.brand == b;
          assert r == Record(sub, b);
        }
      }
    }
    if sub in SubsOf(records) {
      var r :| r in records && r.subreddit == sub;
      assert s != [];
    }
  }

  /** Regrouping of appended text; kept as lemmas so that the write
      methods see only the one equation they need. */
  lemma Assoc(a: string, b: string, c: string)
    ensures (a + b) + c == a + (b + c)
  {
  }

  lemma Assoc3(a: string, b: string, c: string, d: string)
    ensures ((a + b) + c) + d == a + ((b + c) + d)
  {
  }

  /** Writes the rows of a counts table one by one. */
  method WriteRows(f: Report.MarkdownFile, t: seq<(string, nat)>)
    modifies f
    ensures f.content == old(f.content) + Report.Concat(CountRows(t))
  {
    ghost var all := CountRows(t);
    var i := 0;
    while i < |t|
      invariant 0 <= i <= |t|
      invariant f.content == old(f.content) + Report.Concat(all[..i])
    {
      f.Write(CountRow(t[i]));
      Report.AppendStep(old(f.content), all, i);
      i := i + 1;
    }
    assert all[..i] == all;
  }

  /** One subreddit's heading and, when it has records, its table. */
  method WriteSubSection(f: Report.MarkdownFile, records: seq<Record>, sub: string)
    modifies f
    ensures f.content == old(f.content) + SubSection(records, sub)
  {
    f.Write(SubHeading(sub));
    ghost var mid := f.content;
    if sub in SubsOf(records) {
      var rows := Breakdown(records, sub);
      f.Write(TABLE_HEADER);
      WriteRows(f, rows);
      f.Write("\n");
      Assoc3(mid, TABLE_HEADER, Report.Concat(CountRows(rows)), "\n");
    }
    assert f.content == mid + SubTable(records, sub);
    Assoc(old(f.content), SubHeading(sub), SubTable(records, sub));
  }

  /** The loop over the target subreddits. */
  method WriteSubSections(f: Report.MarkdownFile, records: seq<Record>, subs: seq<string>)
    modifies f
    ensures f.content == old(f.content) + Report.Concat(SubSections(records, subs))
  {
    ghost var all := SubSections(records, subs);
    var i := 0;
    while i < |subs|
      invariant 0 <= i <= |subs|
      invariant f.content == old(f.content) + Report.Concat(all[..i])
    {
      WriteSubSection(f, records, subs[i]);
      Report.AppendStep(old(f.content), all, i);
      i := i + 1;
    }
    assert all[..i] == all;
  }

  /** The report-writing block: writes `reddit_brand_report_<today>.md`. */
  method WriteReport(today: string, records: seq<Record>) returns (filename: string, f: Report.MarkdownFile)
    ensures fresh(f)
    ensures filename == "reddit_brand_report_" + today + ".md"
    ensures f.content == ReportText(today, records)
  {
    filename := "reddit_brand_report_" + today + ".md";
    var counts := Counts(records);
    f := new Report.MarkdownFile();
    f.Write(Report.TITLE);
    assert f.content == Report.TITLE;
    f.Write("対象Subreddit: " + JoinWith(", ", TARGET_SUBS) + "\n");
    f.Write("収集日: " + today + "\n\n");
    f.Write("## ブランド言及件数（合算ランキング）\n\n");
    f.Write(TABLE_HEADER);
    WriteRows(f, counts);
    f.Write("\n");
    f.Write("## Subredditごとの内訳\n\n");
    WriteSubSections(f, records, TARGET_SUBS);
  }
}
