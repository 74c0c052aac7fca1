/** The Markdown produced by the pipeline script: `summarize_findings`
    (a highlight line and one section per brand) and the report that
    `ReportTool._run` writes (title, date, counts table, sentiment table,
    word-cloud images). */
module Report {
  import opened Text
  import opened Tally
  import opened Sentiment

  /** An open text file: every `write` appends to its content. */
  class MarkdownFile {
    var content: string

    constructor ()
      ensures content == ""
    {
      content := "";
    }

    method Write(s: string)
      modifies this
      ensures content == old(content) + s
    {
      content := content + s;
    }
  }

  /** The pieces one after the other, as successive writes leave them. */
  function Concat(xs: seq<string>): string
  {
    if xs == [] then "" else Concat(xs[..|xs| - 1]) + xs[|xs| - 1]
  }

  /** Writing one more piece extends the content by that piece. */
  lemma AppendStep(base: string, xs: seq<string>, i: nat)
    requires i < |xs|
    ensures base + Concat(xs[..i + 1]) == (base + Concat(xs[..i])) + xs[i]
  {
    assert xs[..i + 1][..i] == xs[..i];
  }

  /** `senti_map.get(brand, {"pos": 0, "neg": 0, "neu": 0, "n": 0})`. */
  function SentiOf(senti: map<string, Senti>, brand: string): (s: Senti)
    ensures brand !in senti ==> s == ZERO
    ensures brand in senti ==> s == senti[brand]
  {
    if brand in senti then senti[brand] else ZERO
  }

  // ---------------------------------------------------------------
  // summarize_findings

  /** `f"{r['brand']}({r['count']})"`. */
  function HighlightEntry(e: (string, nat)): string
  {
    e.0 + "(" + NatToString(e.1) + ")"
  }

  /** The first three rows of the counts table (`counts.head(3)`), or all of
      them when there are fewer. */
  function Top3(counts: seq<(string, nat)>): (r: seq<(string, nat)>)
    ensures |r| == if |counts| < 3 then |counts| else 3
    ensures r == counts[..|r|]
  {
    if |counts| < 3 then counts else counts[..3]
  }

  function Highlight(counts: seq<(string, nat)>): string
  {
    var top := Top3(counts);
    JoinWith(", ", seq(|top|, i requires 0 <= i < |top| => HighlightEntry(top[i])))
  }

  /** `f"{round(100*x/n,1)}%" if n else "-"`: the rounded percentage is
      left to `pct`. */
  function Percent(x: nat, n: nat, pct: (nat, nat) -> string): (r: string)
    ensures r == "-" <==> n == 0
  {
    if n != 0 then
      var r := pct(x, n) + "%";
      assert r[|r| - 1] == '%' && "-"[0] == '-';
      r
    else "-"
  }

  /** The section written for one brand. */
  function BrandSection(brand: string, count: nat, s: Senti, note: string, pct: (nat, nat) -> string): string
  {
    "### " + brand + "\n- 言及件数: " + NatToString(count) + "\n" +
    "- 感情: ポジ " + NatToString(s.pos) + " (" + Percent(s.pos, s.n, pct) + ") / ネガ " +
    NatToString(s.neg) + " (" + Percent(s.neg, s.n, pct) + ") / ニュートラル " +
    NatToString(s.neu) + " (" + Percent(s.neu, s.n, pct) + ")\n" +
    "- メモ: " + note + "\n"
  }

  function NoteOf(notes: map<string, string>, brand: string): string
  {
    if brand in notes then notes[brand] else ""
  }

  function SectionOf(counts: seq<(string, nat)>, i: nat, senti: map<string, Senti>,
                     notes: map<string, string>, pct: (nat, nat) -> string): string
    requires i < |counts|
  {
    BrandSection(counts[i].0, counts[i].1, SentiOf(senti, counts[i].0), NoteOf(notes, counts[i].0), pct)
  }

  /** The `md` list: three highlight lines, the heading of the brand part,
      then one section per counts row, in counts order. */
  function SummaryParts(counts: seq<(string, nat)>, senti: map<string, Senti>,
                        notes: map<string, string>, pct: (nat, nat) -> string): seq<string>
  {
    ["## 総括（ハイライト）\n",
     "- 言及件数トップ: " + Highlight(counts) + "\n",
     "- 感情は brandごとにポジ/ネガ/ニュートラルを集計し、投稿本文＋タイトルベースでVADER判定。\n",
     "\n## ブランド別 所見\n"] +
    seq(|counts|, i requires 0 <= i < |counts| => SectionOf(counts, i, senti, notes, pct))
  }

  /** `summarize_findings(counts, senti_map, notes_map)`. Each section's
      count is looked up with `.item()`, which raises unless the brand has
      exactly one row: the brands of the table must be distinct. */
  method SummarizeFindings(counts: seq<(string, nat)>, senti: map<string, Senti>,
                           notes: map<string, string>, pct: (nat, nat) -> string) returns (md: string)
    requires DistinctKeys(counts)
    ensures md == JoinWith("\n", SummaryParts(counts, senti, notes, pct))
  {
    var parts := ["## 総括（ハイライト）\n"];
    var top := Top3(counts);
    var hl := JoinWith(", ", seq(|top|, i requires 0 <= i < |top| => HighlightEntry(top[i])));
    assert hl == Highlight(counts);
    parts := parts + ["- 言及件数トップ: " + hl + "\n"];
    parts := parts + ["- 感情は brandごとにポジ/ネガ/ニュートラルを集計し、投稿本文＋タイトルベースでVADER判定。\n"];
    parts := parts + ["\n## ブランド別 所見\n"];
    assert parts == SummaryParts(counts, senti, notes, pct)[..4];
    var i := 0;
    while i < |counts|
      invariant 0 <= i <= |counts|
      invariant parts == SummaryParts(counts, senti, notes, pct)[..4 + i]
    {
      var brand := counts[i].0;
      var s := SentiOf(senti, brand);
      var note := NoteOf(notes, brand);
      parts := parts + [BrandSection(brand, counts[i].1, s, note, pct)];
      SummaryStep(counts, senti, notes, pct, i);
      i := i + 1;
    }
    assert parts == SummaryParts(counts, senti, notes, pct);
    md := JoinWith("\n", parts);
  }

  /** One more counts row adds its section to the `md` list. */
  lemma SummaryStep(counts: seq<(string, nat)>, senti: map<string, Senti>,
                    notes: map<string, string>, pct: (nat, nat) -> string, i: nat)
    requires i < |counts|
    ensures SummaryParts(counts, senti, notes, pct)[..4 + i + 1] ==
      SummaryParts(counts, senti, notes, pct)[..4 + i] + [SectionOf(counts, i, senti, notes, pct)]
  {
    var ps := SummaryParts(counts, senti, notes, pct);
    assert ps[4 + i] == SectionOf(counts, i, senti, notes, pct);
    assert ps[..4 + i + 1] == ps[..4 + i] + [ps[4 + i]];
  }

  /** The summary holds one section per counts row, in counts order, after
      the four fixed lines; a brand's three percentages read "-" exactly
      when its tally counts no text, which is the case for a brand absent
      from the tallies. */
  lemma SummarySections(counts: seq<(string, nat)>, senti: map<string, Senti>,
                        notes: map<string, string>, pct: (nat, nat) -> string, i: nat)
    requires i < |counts|
    ensures |SummaryParts(counts, senti, notes, pct)| == 4 + |counts|
    ensures SummaryParts(counts, senti, notes, pct)[4 + i] ==
      BrandSection(counts[i].0, counts[i].1, SentiOf(senti, counts[i].0), NoteOf(notes, counts[i].0), pct)
    ensures (Percent(SentiOf(senti, counts[i].0).pos, SentiOf(senti, counts[i].0).n, pct) == "-") <==>
      SentiOf(senti, counts[i].0).n == 0
    ensures counts[i].0 !in senti ==>
      SentiOf(senti, counts[i].0) == ZERO &&
      Percent(0, 0, pct) == "-"
  {
    var ps := SummaryParts(counts, senti, notes, pct);
    assert |ps| == 4 + |counts|;
    assert ps[4 + i] == SectionOf(counts, i, senti, notes, pct);
    var s := SentiOf(senti, counts[i].0);
    assert (Percent(s.pos, s.n, pct) == "-") <==> s.n == 0;
  }

  /** When the table comes from `value_counts()`, the highlighted brands are
      the most mentioned ones: none outside the first three has a larger
      count than any inside. */
  lemma HighlightIsTop(xs: seq<string>, i: nat, j: nat)
    requires i < |Top3(ValueCounts(xs))| <= j < |ValueCounts(xs)|
    ensures ValueCounts(xs)[i].1 >= ValueCounts(xs)[j].1
  {
    ValueCountsSpec(xs);
  }

  // ---------------------------------------------------------------
  // ReportTool._run

  const SENTI_TABLE_HEADER: string :=
    "| ブランド | ポジ | ネガ | ニュートラル | 件数 |\n|---|---:|---:|---:|---:|\n"

  /** `f"| {brand} | {s['pos']} | {s['neg']} | {s['neu']} | {s['n']} |\n"`. */
  function SentimentRow(brand: string, s: Senti): string
  {
    "| " + brand + " | " + NatToString(s.pos) + " | " + NatToString(s.neg) + " | " +
    NatToString(s.neu) + " | " + NatToString(s.n) + " |\n"
  }

  /** One row per counts row, in counts order, zeros for a brand without a tally. */
  function SentimentRows(counts: seq<(string, nat)>, senti: map<string, Senti>): (rows: seq<string>)
    ensures |rows| == |counts|
    ensures forall i :: 0 <= i < |counts| ==> rows[i] == SentimentRow(counts[i].0, SentiOf(senti, counts[i].0))
    ensures forall i :: 0 <= i < |counts| && counts[i].0 in senti ==>
      rows[i] == SentimentRow(counts[i].0, senti[counts[i].0])
    ensures forall i :: 0 <= i < |counts| && counts[i].0 !in senti ==>
      rows[i] == SentimentRow(counts[i].0, ZERO)
  {
    seq(|counts|, i requires 0 <= i < |counts| => SentimentRow(counts[i].0, SentiOf(senti, counts[i].0)))
  }

  /** `wc_dir / f"{b.lower()}_wordcloud.png"`. */
  function ImagePath(wcDir: string, brand: string): string
  {
    wcDir + "/" + Lower(brand) + "_wordcloud.png"
  }

  /** The items of `wc_map`, in dict order: each brand of the counts
      table, once, at its first row, with its image path, when that file
      exists. */
  function WordClouds(brands: seq<string>, wcDir: string, fileExists: string -> bool, seen: set<string>): (r: seq<(string, string)>)
    ensures forall e :: e in r ==> e.0 in brands && e.0 !in seen && e.1 == ImagePath(wcDir, e.0) && fileExists(e.1)
    ensures forall b :: b in brands && b !in seen && fileExists(ImagePath(wcDir, b)) ==> (b, ImagePath(wcDir, b)) in r
    ensures forall i, j :: 0 <= i < j < |r| ==> r[i].0 != r[j].0
  {
    if brands == [] then []
    else if brands[0] in seen || !fileExists(ImagePath(wcDir, brands[0])) then WordClouds(brands[1..], wcDir, fileExists, seen)
    else [(brands[0], ImagePath(wcDir, brands[0]))] + WordClouds(brands[1..], wcDir, fileExists, seen + {brands[0]})
  }

  /** `counts.index`: the brands of the counts table, in its order. */
  function CountsIndex(counts: seq<(string, nat)>): seq<string>
  {
    seq(|counts|, i requires 0 <= i < |counts| => counts[i].0)
  }

  /** `f"### {b}\n![{b}]({p})\n\n"`. */
  function ImageSection(e: (string, string)): string
  {
    "### " + e.0 + "\n![" + e.0 + "](" + e.1 + ")\n\n"
  }

  /** One section per item of `wc_map`, in its order. */
  function ImageSections(images: seq<(string, string)>): (r: seq<string>)
    ensures |r| == |images|
  {
    seq(|images|, i requires 0 <= i < |images| => ImageSection(images[i]))
  }

  const TITLE: string := "# \U{1F697} Reddit 自動車ブランド分析レポート\n\n"

  /** The whole report file. The counts table, rendered by pandas'
      `to_markdown`, is the input `countsTable`; `today` is the date; and
      `fileExists` says which image files are on disk. */
  function ReportText(today: string, countsTable: string, counts: seq<(string, nat)>,
                      senti: map<string, Senti>, wcDir: string, fileExists: string -> bool): string
  {
    var images := WordClouds(CountsIndex(counts), wcDir, fileExists, {});
    TITLE + ("- 収集日: " + today + "\n\n") + "## ブランド言及件数\n\n" + countsTable + "\n\n" +
    "## 感情分析結果\n\n" + SENTI_TABLE_HEADER + Concat(SentimentRows(counts, senti)) + "\n\n" +
    "## ワードクラウド\n\n" + Concat(ImageSections(images))
  }

  /** The sentiment-table loop: one row written per counts row. */
  method WriteSentimentRows(f: MarkdownFile, counts: seq<(string, nat)>, senti: map<string, Senti>)
    modifies f
    ensures f.content == old(f.content) + Concat(SentimentRows(counts, senti))
  {
    ghost var all := SentimentRows(counts, senti);
    var i := 0;
    while i < |counts|
      invariant 0 <= i <= |counts|
      invariant f.content == old(f.content) + Concat(all[..i])
    {
      var brand := counts[i].0;
      var s := SentiOf(senti, brand);
      f.Write(SentimentRow(brand, s));
      AppendStep(old(f.content), all, i);
      i := i + 1;
    }
    assert all[..i] == all;
  }

  /** The word-cloud loop over `wc_map`. */
  method WriteImageSections(f: MarkdownFile, images: seq<(string, string)>)
    modifies f
    ensures f.content == old(f.content) + Concat(ImageSections(images))
  {
    ghost var all := ImageSections(images);
    var i := 0;
    while i < |images|
      invariant 0 <= i <= |images|
      invariant f.content == old(f.content) + Concat(all[..i])
    {
      f.Write(ImageSection(images[i]));
      AppendStep(old(f.content), all, i);
      i := i + 1;
    }
    assert all[..i] == all;
  }

  /** `ReportTool._run`: writes the report into a new file and returns its path. */
  method ReportToolRun(today: string, countsTable: string, counts: seq<(string, nat)>,
                       senti: map<string, Senti>, wcDir: string, fileExists: string -> bool)
    returns (mdPath: string, f: MarkdownFile)
    ensures fresh(f)
    ensures mdPath == "data/reddit_auto_brand_report_" + today + ".md"
    ensures f.content == ReportText(today, countsTable, counts, senti, wcDir, fileExists)
  {
    var images := WordClouds(CountsIndex(counts), wcDir, fileExists, {});
    mdPath := "data/reddit_auto_brand_report_" + today + ".md";
    f := new MarkdownFile();
    f.Write(TITLE);
    assert f.content == TITLE;
    f.Write("- 収集日: " + today + "\n\n");
    f.Write("## ブランド言及件数\n\n");
    f.Write(countsTable);
    f.Write("\n\n");
    f.Write("## 感情分析結果\n\n");
    f.Write(SENTI_TABLE_HEADER);
    WriteSentimentRows(f, counts, senti);
    f.Write("\n\n");
    f.Write("## ワードクラウド\n\n");
    WriteImageSections(f, images);
  }
}
