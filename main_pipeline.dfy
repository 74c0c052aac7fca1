/** The data functions of the CrewAI pipeline script: `collect_posts`,
    `brand_counts`, `brand_texts` and `sentiments`. A DataFrame of posts is
    a sequence of rows; file writes are not modelled. */
module MainPipeline {
  import opened Text
  import opened Tally
  import opened Brands
  import opened Reddit
  import opened Sentiment
  import opened Corpus

  /** A row of `raw_posts.csv` (the creation timestamp is not modelled). */
  datatype Row = Row(
    subreddit: string,
    title: string,
    selftext: string,
    brand: Option<string>,
    score: Option<int>,
    upvoteRatio: Option<real>,
    url: string)

  const CUSTOM_STOPWORDS: set<string> := {
    "car", "cars",
    "t", "ve", "re", "ll", "im", "u",
    "dont", "doesnt", "cant", "didnt", "isnt", "wont"
  }

  /** The row `collect_posts` builds for `post` from `sub`: a missing title
      or body becomes "", and the brand is detected in `title + " " + body`. */
  function MakeRow(sub: string, p: Post): Row
  {
    var title := p.title.GetOr("");
    var body := p.selftext.GetOr("");
    Row(sub, title, body, Detect(BRANDS, title + " " + body), p.score, p.upvoteRatio, p.url)
  }

  function RowsOf(fetched: seq<(string, Post)>): seq<Row>
  {
    seq(|fetched|, k requires 0 <= k < |fetched| => MakeRow(fetched[k].0, fetched[k].1))
  }

  /** `collect_posts()`: one row per visited post, in visiting order, every
      post kept whether or not a brand was found. */
  method CollectPosts(hot: string -> seq<Post>) returns (rows: seq<Row>)
    ensures |rows| == |Fetched(TARGET_SUBS, hot)| <= LIMIT_PER_SUB * |TARGET_SUBS|
    ensures forall k :: 0 <= k < |rows| ==>
      var (sub, p) := Fetched(TARGET_SUBS, hot)[k];
      rows[k].subreddit == sub && rows[k].title == p.title.GetOr("") &&
      rows[k].selftext == p.selftext.GetOr("") &&
      rows[k].brand == Detect(BRANDS, p.title.GetOr("") + " " + p.selftext.GetOr("")) &&
      rows[k].score == p.score && rows[k].upvoteRatio == p.upvoteRatio && rows[k].url == p.url
  {
    rows := [];
    var i := 0;
    while i < |TARGET_SUBS|
      invariant 0 <= i <= |TARGET_SUBS|
      invariant rows == RowsOf(Fetched(TARGET_SUBS[..i], hot))
    {
      var sub := TARGET_SUBS[i];
      var listing := Listing(hot, sub);
      var j := 0;
      while j < |listing|
        invariant 0 <= j <= |listing|
        invariant rows == RowsOf(Fetched(TARGET_SUBS[..i], hot) + Tagged(sub, listing[..j]))
      {
        var post := listing[j];
        var title := post.title.GetOr("");
        var body := post.selftext.GetOr("");
        var brand := DetectBrand(title + " " + body, BRANDS);
        rows := rows + [Row(sub, title, body, brand, post.score, post.upvoteRatio, post.url)];
        TaggedStep(sub, listing, j);
        j := j + 1;
      }
      assert listing[..j] == listing;
      FetchedStep(TARGET_SUBS, hot, i);
      i := i + 1;
    }
    assert TARGET_SUBS[..i] == TARGET_SUBS;
    FetchedFacts(TARGET_SUBS, hot);
  }

  /** The brands of the rows that have one, in row order (`dropna`). */
  function Branded(rows: seq<Row>): seq<string>
  {
    if rows == [] then []
    else Branded(rows[..|rows| - 1]) + (if rows[|rows| - 1].brand.Some? then [rows[|rows| - 1].brand.value] else [])
  }

  /** The number of rows tagged with brand `b`. */
  function RowsTagged(rows: seq<Row>, b: string): nat
  {
    if rows == [] then 0
    else RowsTagged(rows[..|rows| - 1], b) + (if rows[|rows| - 1].brand == Some(b) then 1 else 0)
  }

  /** The number of rows that have a brand. */
  function RowsBranded(rows: seq<Row>): nat
  {
    if rows == [] then 0
    else RowsBranded(rows[..|rows| - 1]) + (if rows[|rows| - 1].brand.Some? then 1 else 0)
  }

  lemma {:induction false} BrandedCounts(rows: seq<Row>)
    ensures |Branded(rows)| == RowsBranded(rows)
    ensures forall b :: multiset(Branded(rows))[b] == RowsTagged(rows, b)
    ensures forall b :: b in Branded(rows) <==> RowsTagged(rows, b) > 0
  {
    if rows != [] {
      BrandedCounts(rows[..|rows| - 1]);
    }
  }

  /** `brand_counts(df)`: `df.dropna(subset=["brand"])["brand"].value_counts()`. */
  function BrandCounts(rows: seq<Row>): seq<(string, nat)>
  {
    ValueCounts(Branded(rows))
  }

  /** Rows without a brand are not counted; each brand that some row has
      is listed once, with the number of its rows (at least one); nothing
      else is listed; the counts add up to the number of branded rows; and
      the largest counts come first. */
  lemma BrandCountsSpec(rows: seq<Row>)
    ensures DistinctKeys(BrandCounts(rows))
    ensures forall e :: e in BrandCounts(rows) ==> e.1 >= 1 && e.1 == RowsTagged(rows, e.0)
    ensures forall b :: b in Keys(BrandCounts(rows)) <==> RowsTagged(rows, b) > 0
    ensures Total(BrandCounts(rows)) == RowsBranded(rows)
    ensures forall i, j :: 0 <= i < j < |BrandCounts(rows)| ==> BrandCounts(rows)[i].1 >= BrandCounts(rows)[j].1
  {
    ValueCountsSpec(Branded(rows));
    BrandedCounts(rows);
  }

  /** `title + " " + selftext` of the rows tagged `brand`, in row order (the
      `loc[...].fillna("").agg(" ".join, axis=1)` of `brand_texts` and
      `sentiments`). */
  function TextsOfBrand(rows: seq<Row>, brand: string): seq<string>
  {
    if rows == [] then []
    else
      var r := rows[|rows| - 1];
      TextsOfBrand(rows[..|rows| - 1], brand) + (if r.brand == Some(brand) then [r.title + " " + r.selftext] else [])
  }

  lemma {:induction false} TextsOfBrandCount(rows: seq<Row>, brand: string)
    ensures |TextsOfBrand(rows, brand)| == RowsTagged(rows, brand)
  {
    if rows != [] {
      TextsOfBrandCount(rows[..|rows| - 1], brand);
    }
  }

  /** `BRANDS[brand]`: the keywords of the first entry named `brand`. */
  function KeywordsOf(table: BrandTable, brand: string): Option<seq<string>>
  {
    if table == [] then None
    else if table[0].0 == brand then Some(table[0].1)
    else KeywordsOf(table[1..], brand)
  }

  /** `brand_texts(df, brand)`: the texts of the brand joined by spaces,
      with single-letter words blanked, and the stop words: the library's
      `stopwords`, the custom ones, the lower-cased brand and the brand's
      keywords. A brand that is not in the dictionary raises KeyError. */
  function BrandTexts(rows: seq<Row>, brand: string, stopwords: set<string>): (r: Option<(string, set<string>)>)
    ensures r.None? <==> KeywordsOf(BRANDS, brand).None?
    ensures r.Some? ==>
      var (corpus, sw) := r.value;
      corpus == StripSingleLetters(JoinWith(" ", TextsOfBrand(rows, brand))) &&
      |corpus| == |JoinWith(" ", TextsOfBrand(rows, brand))| &&
      (forall i :: 0 <= i < |corpus| && corpus[i] != JoinWith(" ", TextsOfBrand(rows, brand))[i] ==>
        IsAsciiLetter(JoinWith(" ", TextsOfBrand(rows, brand))[i]) && corpus[i] == ' ') &&
      (forall i :: 0 <= i < |corpus| ==> !Standalone(corpus, i)) &&
      stopwords <= sw && CUSTOM_STOPWORDS <= sw && Lower(brand) in sw &&
      (forall k :: k in KeywordsOf(BRANDS, brand).value ==> k in sw)
  {
    var corpus := StripSingleLetters(JoinWith(" ", TextsOfBrand(rows, brand)));
    StripLeavesNoStandalone(JoinWith(" ", TextsOfBrand(rows, brand)));
    match KeywordsOf(BRANDS, brand)
    case None => None
    case Some(kws) => Some((corpus, stopwords + CUSTOM_STOPWORDS + {Lower(brand)} + set k | k in kws))
  }

  /** `sentiments(df, brand)`: the texts of the brand are scored one by one
      and each score is counted in exactly one band; no texts gives all
      zeros. */
  method Sentiments(rows: seq<Row>, brand: string, compound: string -> real) returns (s: Senti)
    ensures s.n == |TextsOfBrand(rows, brand)| == RowsTagged(rows, brand)
    ensures s.pos == CountBand(Scores(TextsOfBrand(rows, brand), compound), Positive)
    ensures s.neg == CountBand(Scores(TextsOfBrand(rows, brand), compound), Negative)
    ensures s.neu == CountBand(Scores(TextsOfBrand(rows, brand), compound), Neutral)
    ensures s.pos + s.neg + s.neu == s.n
    ensures s.n == 0 ==> s == ZERO
  {
    var texts := TextsOfBrand(rows, brand);
    TextsOfBrandCount(rows, brand);
    if |texts| == 0 {
      return ZERO;
    }
    var pos, neg, neu := 0, 0, 0;
    var i := 0;
    while i < |texts|
      invariant 0 <= i <= |texts|
      invariant pos == CountBand(Scores(texts[..i], compound), Positive)
      invariant neg == CountBand(Scores(texts[..i], compound), Negative)
      invariant neu == CountBand(Scores(texts[..i], compound), Neutral)
      invariant pos + neg + neu == i
    {
      var score := compound(texts[i]);
      ScoresStep(texts, compound, i);
      CountBandSnoc(Scores(texts[..i], compound), score, Positive);
      CountBandSnoc(Scores(texts[..i], compound), score, Negative);
      CountBandSnoc(Scores(texts[..i], compound), score, Neutral);
      if score > THRESHOLD {
        pos := pos + 1;
      } else if score < -THRESHOLD {
        neg := neg + 1;
      } else {
        neu := neu + 1;
      }
      i := i + 1;
    }
    assert texts[..i] == texts;
    s := Senti(pos, neg, neu, |texts|);
  }
}
