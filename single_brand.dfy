/** The single-brand scripts: `Reddit_toyota.py` collects the Toyota posts
    and cleans their text for a word cloud; `Reddit_tesla_senti.py`
    collects the Tesla posts and counts their sentiment bands. Each uses a
    one-entry brand dictionary. */
module SingleBrand {
  import opened Text
  import opened Brands
  import opened Reddit
  import opened Sentiment
  import opened Corpus

  /** `title + " " + selftext` of each visited post detected as `brand`,
      in visiting order. */
  function TextsDetected(table: BrandTable, brand: string, fetched: seq<(string, Post)>): seq<string>
  {
    if fetched == [] then []
    else
      var p := fetched[|fetched| - 1].1;
      TextsDetected(table, brand, fetched[..|fetched| - 1]) +
      (if Detect(table, PostText(p)) == Some(brand) then [PostText(p)] else [])
  }

  /** `title + " " + selftext` of each visited post whose lower-cased text
      contains `kw`, in visiting order. */
  function TextsMentioning(kw: string, fetched: seq<(string, Post)>): seq<string>
  {
    if fetched == [] then []
    else
      var p := fetched[|fetched| - 1].1;
      TextsMentioning(kw, fetched[..|fetched| - 1]) +
      (if Contains(Lower(PostText(p)), kw) then [PostText(p)] else [])
  }

  lemma {:induction false} TextsDetectedAppend(table: BrandTable, brand: string, a: seq<(string, Post)>, b: seq<(string, Post)>)
    ensures TextsDetected(table, brand, a + b) == TextsDetected(table, brand, a) + TextsDetected(table, brand, b)
  {
    if b != [] {
      var init := b[..|b| - 1];
      TextsDetectedAppend(table, brand, a, init);
      assert (a + b)[..|a + b| - 1] == a + init;
    } else {
      assert a + b == a;
    }
  }

  /** The inner collection loop over one subreddit's listing. */
  method CollectFrom(table: BrandTable, brand: string, sub: string, listing: seq<Post>) returns (texts: seq<string>)
    requires forall p :: p in listing ==> Complete(p)
    ensures texts == TextsDetected(table, brand, Tagged(sub, listing))
  {
    texts := [];
    var j := 0;
    while j < |listing|
      invariant 0 <= j <= |listing|
      invariant texts == TextsDetected(table, brand, Tagged(sub, listing[..j]))
    {
      var post := listing[j];
      assert post in listing;
      TaggedStep(sub, listing, j);
      assert Tagged(sub, listing[..j + 1])[..j] == Tagged(sub, listing[..j]);
      var found := DetectBrand(post.title.value + " " + post.selftext.value, table);
      if found == Some(brand) {
        texts := texts + [post.title.value + " " + post.selftext.value];
      }
      j := j + 1;
    }
    assert listing[..j] == listing;
  }

  /** The collection loops: `texts` gets the text of every post detected as
      `brand`, in visiting order. */
  method CollectTexts(table: BrandTable, brand: string, hot: string -> seq<Post>) returns (texts: seq<string>)
    requires AllComplete(TARGET_SUBS, hot)
    ensures texts == TextsDetected(table, brand, Fetched(TARGET_SUBS, hot))
  {
    texts := [];
    var i := 0;
    while i < |TARGET_SUBS|
      invariant 0 <= i <= |TARGET_SUBS|
      invariant texts == TextsDetected(table, brand, Fetched(TARGET_SUBS[..i], hot))
    {
      var sub := TARGET_SUBS[i];
      var listing := Listing(hot, sub);
      var more := CollectFrom(table, brand, sub, listing);
      FetchedStep(TARGET_SUBS, hot, i);
      TextsDetectedAppend(table, brand, Fetched(TARGET_SUBS[..i], hot), Tagged(sub, listing));
      texts := texts + more;
      i := i + 1;
    }
    assert TARGET_SUBS[..i] == TARGET_SUBS;
  }

  /** With the dictionary `{"Toyota": ["toyota"]}`, the collected texts are
      exactly those whose lower-cased text contains "toyota", in order. */
  lemma {:induction false} ToyotaTexts(fetched: seq<(string, Post)>)
    ensures TextsDetected(TOYOTA_ONLY, "Toyota", fetched) == TextsMentioning("toyota", fetched)
  {
    if fetched != [] {
      ToyotaTexts(fetched[..|fetched| - 1]);
      ToyotaOnlyDetect(PostText(fetched[|fetched| - 1].1));
    }
  }

  /** With the dictionary `{"Tesla": ["tesla"]}`, the collected texts are
      exactly those whose lower-cased text contains "tesla", in order. */
  lemma {:induction false} TeslaTexts(fetched: seq<(string, Post)>)
    ensures TextsDetected(TESLA_ONLY, "Tesla", fetched) == TextsMentioning("tesla", fetched)
  {
    if fetched != [] {
      TeslaTexts(fetched[..|fetched| - 1]);
      TeslaOnlyDetect(PostText(fetched[|fetched| - 1].1));
    }
  }

  // ---------------------------------------------------------------
  // Reddit_toyota.py: preprocessing

  /** `custom_stopwords`. */
  const TOYOTA_STOPWORDS: set<string> :=
    {"toyota", "car", "cars", "t", "ve", "re", "ll", "im", "u", "dont", "doesnt", "cant"}

  /** `set(STOPWORDS).union(custom_stopwords)`; the library's word list is
      the input `library`. */
  function ToyotaStopwords(library: set<string>): (r: set<string>)
    ensures TOYOTA_STOPWORDS <= r && library <= r
    ensures forall w :: w in r ==> w in library || w in TOYOTA_STOPWORDS
  {
    library + TOYOTA_STOPWORDS
  }

  /** `text_data`: the texts joined by single spaces, then every standalone
      single letter blanked. */
  function ToyotaCorpus(texts: seq<string>): string
  {
    StripSingleLetters(JoinWith(" ", texts))
  }

  /** The cleaned corpus has the joined text's length; it differs from it
      only where a letter stood alone, which became a space; no standalone
      letter is left, so cleaning it again changes nothing; and each text
      sits at its place in the joined string, with one space between
      neighbours. */
  lemma ToyotaCorpusSpec(texts: seq<string>)
    ensures |ToyotaCorpus(texts)| == |JoinWith(" ", texts)|
    ensures forall k :: 0 <= k < |ToyotaCorpus(texts)| && ToyotaCorpus(texts)[k] != JoinWith(" ", texts)[k] ==>
      IsAsciiLetter(JoinWith(" ", texts)[k]) && ToyotaCorpus(texts)[k] == ' '
    ensures forall k :: 0 <= k < |ToyotaCorpus(texts)| ==> !Standalone(ToyotaCorpus(texts), k)
    ensures StripSingleLetters(ToyotaCorpus(texts)) == ToyotaCorpus(texts)
    ensures forall i :: 0 <= i < |texts| ==>
      JoinOffset(" ", texts, i) + |texts[i]| <= |JoinWith(" ", texts)| &&
      JoinWith(" ", texts)[JoinOffset(" ", texts, i)..JoinOffset(" ", texts, i) + |texts[i]|] == texts[i]
  {
    var joined := JoinWith(" ", texts);
    StripLeavesNoStandalone(joined);
    StripIdempotent(joined);
    forall i | 0 <= i < |texts|
      ensures JoinOffset(" ", texts, i) + |texts[i]| <= |joined| &&
        joined[JoinOffset(" ", texts, i)..JoinOffset(" ", texts, i) + |texts[i]|] == texts[i]
    {
      JoinAt(" ", texts, i);
    }
    forall k | 0 <= k < |joined| && ToyotaCorpus(texts)[k] != joined[k]
      ensures IsAsciiLetter(joined[k]) && ToyotaCorpus(texts)[k] == ' '
    {
      StripOnlyBlanksLetters(joined, k);
    }
  }

  /** The Toyota script up to the word cloud: the texts, the cleaned corpus
      and the stop words handed to WordCloud. */
  method ToyotaPrepare(hot: string -> seq<Post>, library: set<string>)
    returns (texts: seq<string>, textData: string, stopwords: set<string>)
    requires AllComplete(TARGET_SUBS, hot)
    ensures texts == TextsMentioning("toyota", Fetched(TARGET_SUBS, hot))
    ensures textData == ToyotaCorpus(texts)
    ensures stopwords == ToyotaStopwords(library)
  {
    texts := CollectTexts(TOYOTA_ONLY, "Toyota", hot);
    ToyotaTexts(Fetched(TARGET_SUBS, hot));
    textData := JoinWith(" ", texts);
    textData := StripSingleLetters(textData);
    stopwords := library + TOYOTA_STOPWORDS;
  }

  // ---------------------------------------------------------------
  // Reddit_tesla_senti.py: band counts

  /** `sum(1 for r in results if r["compound"] > 0.05)`. */
  function CountAbove(scores: seq<real>): nat
  {
    if scores == [] then 0
    else CountAbove(scores[..|scores| - 1]) + (if scores[|scores| - 1] > THRESHOLD then 1 else 0)
  }

  /** `sum(1 for r in results if r["compound"] < -0.05)`. */
  function CountBelow(scores: seq<real>): nat
  {
    if scores == [] then 0
    else CountBelow(scores[..|scores| - 1]) + (if scores[|scores| - 1] < -THRESHOLD then 1 else 0)
  }

  /** `sum(1 for r in results if -0.05 <= r["compound"] <= 0.05)`. */
  function CountBetween(scores: seq<real>): nat
  {
    if scores == [] then 0
    else CountBetween(scores[..|scores| - 1]) + (if -THRESHOLD <= scores[|scores| - 1] <= THRESHOLD then 1 else 0)
  }

  /** The three independent sums count the same scores as the
      if/elif/else classification of the pipeline's `sentiments`, so every
      score is counted exactly once. */
  lemma {:induction false} GeneratorSumsAgree(scores: seq<real>)
    ensures CountAbove(scores) == CountBand(scores, Positive)
    ensures CountBelow(scores) == CountBand(scores, Negative)
    ensures CountBetween(scores) == CountBand(scores, Neutral)
    ensures CountAbove(scores) + CountBelow(scores) + CountBetween(scores) == |scores|
  {
    if scores != [] {
      GeneratorSumsAgree(scores[..|scores| - 1]);
    }
    BandsPartition(scores);
  }

  /** The Tesla script: its texts, one score per text, and the three
      counts, which add up to the number of texts. */
  method TeslaSentiment(hot: string -> seq<Post>, compound: string -> real)
    returns (texts: seq<string>, results: seq<real>, pos: nat, neg: nat, neu: nat)
    requires AllComplete(TARGET_SUBS, hot)
    ensures texts == TextsMentioning("tesla", Fetched(TARGET_SUBS, hot))
    ensures |results| == |texts| && forall i :: 0 <= i < |texts| ==> results[i] == compound(texts[i])
    ensures pos == CountBand(results, Positive) && neg == CountBand(results, Negative) && neu == CountBand(results, Neutral)
    ensures pos + neg + neu == |results|
  {
    texts := CollectTexts(TESLA_ONLY, "Tesla", hot);
    TeslaTexts(Fetched(TARGET_SUBS, hot));
    results := Scores(texts, compound);
    pos := CountAbove(results);
    neg := CountBelow(results);
    neu := CountBetween(results);
    GeneratorSumsAgree(results);
  }
}
