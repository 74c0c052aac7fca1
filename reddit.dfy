/** What the scripts read from Reddit. Fetching is not modelled: a
    subreddit's hot listing is an input function, and the scripts see the
    posts of their target subreddits one subreddit after the other, each
    listing cut to the first 200 posts. */
module Reddit {
  import opened Text

  /** The attributes of a submission that the scripts read. */
  datatype Post = Post(
    title: Option<string>,
    selftext: Option<string>,
    score: Option<int>,
    upvoteRatio: Option<real>,
    url: string)

  /** The subreddits every script walks, in this order. */
  const TARGET_SUBS: seq<string> := ["cars", "whatcarshouldIbuy", "askcarsales"]

  /** `hot(limit=200)`. */
  const LIMIT_PER_SUB: nat := 200

  /** `reddit.subreddit(sub).hot(limit=LIMIT_PER_SUB)`, where `hot(sub)` is
      the full hot listing: its first posts, at most the limit. */
  function Listing(hot: string -> seq<Post>, sub: string): (r: seq<Post>)
    ensures |r| <= LIMIT_PER_SUB
    ensures |r| == LIMIT_PER_SUB || r == hot(sub)
    ensures |r| <= |hot(sub)| && r == hot(sub)[..|r|]
  {
    if |hot(sub)| <= LIMIT_PER_SUB then hot(sub) else hot(sub)[..LIMIT_PER_SUB]
  }

  /** Each post paired with the subreddit it came from. */
  function Tagged(sub: string, ps: seq<Post>): seq<(string, Post)>
  {
    seq(|ps|, k requires 0 <= k < |ps| => (sub, ps[k]))
  }

  /** All posts the nested `for sub ...: for post in ...hot(...)` loops
      visit, in visiting order: subreddit by subreddit, each in listing order. */
  function Fetched(subs: seq<string>, hot: string -> seq<Post>): seq<(string, Post)>
  {
    if subs == [] then []
    else Fetched(subs[..|subs| - 1], hot) + Tagged(subs[|subs| - 1], Listing(hot, subs[|subs| - 1]))
  }

  /** Every visited post comes from the listing of a listed subreddit,
      and there are at most 200 per subreddit. */
  lemma {:induction false} FetchedFacts(subs: seq<string>, hot: string -> seq<Post>)
    ensures |Fetched(subs, hot)| <= LIMIT_PER_SUB * |subs|
    ensures forall e :: e in Fetched(subs, hot) ==> e.0 in subs && e.1 in Listing(hot, e.0)
  {
    if subs != [] {
      var init, last := subs[..|subs| - 1], subs[|subs| - 1];
      FetchedFacts(init, hot);
      forall e | e in Fetched(subs, hot) ensures e.0 in subs && e.1 in Listing(hot, e.0) {
        if e in Fetched(init, hot) {
          assert e.0 in init;
        } else {
          var t := Tagged(last, Listing(hot, last));
          assert e in t;
          var k :| 0 <= k < |t| && t[k] == e;
          assert e.1 == Listing(hot, last)[k];
        }
      }
    }
  }

  /** One more step of the outer loop appends the next subreddit's listing. */
  lemma FetchedStep(subs: seq<string>, hot: string -> seq<Post>, i: nat)
    requires i < |subs|
    ensures Fetched(subs[..i + 1], hot) == Fetched(subs[..i], hot) + Tagged(subs[i], Listing(hot, subs[i]))
  {
    assert subs[..i + 1][..i] == subs[..i];
  }

  /** One more step of the inner loop appends the next post. */
  lemma TaggedStep(sub: string, ps: seq<Post>, j: nat)
    requires j < |ps|
    ensures Tagged(sub, ps[..j + 1]) == Tagged(sub, ps[..j]) + [(sub, ps[j])]
  {
  }

  /** A post carries both a title and a body, as the scripts that
      concatenate them without a fallback need. */
  predicate Complete(p: Post)
  {
    p.title.Some? && p.selftext.Some?
  }

  /** `post.title + " " + post.selftext` in the stand-alone scripts. Those
      scripts only get that far for a complete post; their methods require
      it, and for a complete post this is the two texts joined by a space. */
  function PostText(p: Post): (r: string)
    ensures Complete(p) ==> r == p.title.value + " " + p.selftext.value
  {
    p.title.GetOr("") + " " + p.selftext.GetOr("")
  }

  /** Every post the listings of `subs` show is complete. */
  ghost predicate AllComplete(subs: seq<string>, hot: string -> seq<Post>)
  {
    forall s, p :: s in subs && p in Listing(hot, s) ==> Complete(p)
  }
}
