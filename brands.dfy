/** Brand detection: a text is tagged with the first brand, in the
    dictionary's insertion order, one of whose keywords occurs anywhere in
    the lower-cased text. */
module Brands {
  import opened Text

  /** An insertion-ordered dictionary from brand name to its keywords. */
  type BrandTable = seq<(string, seq<string>)>

  /** The manufacturer dictionary of the main pipeline and of the two
      multi-brand scripts (identical in all three). */
  const BRANDS: BrandTable := [
    ("Toyota", ["toyota"]),
    ("Tesla", ["tesla"]),
    ("BMW", ["bmw"]),
    ("Honda", ["honda"]),
    ("Ford", ["ford"]),
    ("Mercedes", ["mercedes", "mercedes-benz", "benz"]),
    ("Volkswagen", ["volkswagen", "vw"]),
    ("Nissan", ["nissan"]),
    ("Hyundai", ["hyundai"]),
    ("Kia", ["kia"]),
    ("Chevrolet", ["chevrolet", "chevy"]),
    ("Volvo", ["volvo"]),
    ("GM", ["gm", "general motors"]),
    ("Stellantis", ["stellantis"]),
    ("Rivian", ["rivian"]),
    ("Chrysler", ["chrysler"]),
    ("Jeep", ["jeep"]),
    ("Dodge", ["dodge"]),
    ("Ram", ["ram"])
  ]

  /** The one-entry dictionaries of the single-brand scripts. */
  const TOYOTA_ONLY: BrandTable := [("Toyota", ["toyota"])]
  const TESLA_ONLY: BrandTable := [("Tesla", ["tesla"])]

  /** Some keyword of `kws` is in `t`, checked keyword by keyword. */
  function AnyKeyword(kws: seq<string>, t: string): bool
  {
    kws != [] && (Contains(t, kws[0]) || AnyKeyword(kws[1..], t))
  }

  /** Some keyword of `kws` occurs at some position of `t`. */
  ghost predicate Mentions(kws: seq<string>, t: string)
  {
    exists k :: k in kws && Occurs(t, k)
  }

  lemma {:induction false} AnyKeywordIffMentions(kws: seq<string>, t: string)
    ensures AnyKeyword(kws, t) <==> Mentions(kws, t)
  {
    if kws != [] {
      ContainsIffOccurs(t, kws[0]);
      AnyKeywordIffMentions(kws[1..], t);
      if Mentions(kws, t) {
        var k :| k in kws && Occurs(t, k);
        if k != kws[0] { assert k in kws[1..]; }
      }
    }
  }

  /** The first entry of `table` with a keyword in `t`. */
  function FirstMatch(table: BrandTable, t: string): Option<string>
  {
    if table == [] then None
    else if AnyKeyword(table[0].1, t) then Some(table[0].0)
    else FirstMatch(table[1..], t)
  }

  /** `detect_brand(text, brand_dict)`: the keywords are searched in the
      lower-cased text, the keywords themselves are taken as they are. */
  function Detect(table: BrandTable, text: string): Option<string>
  {
    FirstMatch(table, Lower(text))
  }

  /** Entry `i` is the first entry of `table` with a keyword in `t`. */
  ghost predicate IsFirstMatch(table: BrandTable, t: string, i: int)
  {
    0 <= i < |table| && Mentions(table[i].1, t) &&
    forall j :: 0 <= j < i ==> !Mentions(table[j].1, t)
  }

  lemma {:induction false} FirstMatchIndex(table: BrandTable, t: string)
    ensures FirstMatch(table, t) == None <==> forall i :: 0 <= i < |table| ==> !Mentions(table[i].1, t)
    ensures FirstMatch(table, t).Some? ==>
      exists i :: IsFirstMatch(table, t, i) && table[i].0 == FirstMatch(table, t).value
    ensures forall i :: IsFirstMatch(table, t, i) ==> FirstMatch(table, t) == Some(table[i].0)
  {
    if table != [] {
      AnyKeywordIffMentions(table[0].1, t);
      FirstMatchIndex(table[1..], t);
      var tail := table[1..];
      if !AnyKeyword(table[0].1, t) {
        if FirstMatch(tail, t).Some? {
          var i :| IsFirstMatch(tail, t, i) && tail[i].0 == FirstMatch(tail, t).value;
          assert IsFirstMatch(table, t, i + 1) by {
            forall j | 0 <= j < i + 1 ensures !Mentions(table[j].1, t) {
              if j > 0 { assert table[j] == tail[j - 1]; }
            }
          }
        }
        forall i | IsFirstMatch(table, t, i) ensures FirstMatch(table, t) == Some(table[i].0) {
          assert i > 0;
          assert IsFirstMatch(tail, t, i - 1) by {
            forall j | 0 <= j < i - 1 ensures !Mentions(tail[j].1, t) {
              assert tail[j] == table[j + 1];
            }
          }
        }
        if forall i :: 0 <= i < |tail| ==> !Mentions(tail[i].1, t) {
          forall i | 0 <= i < |table| ensures !Mentions(table[i].1, t) {
            if i > 0 { assert table[i] == tail[i - 1]; }
          }
        }
        if forall i :: 0 <= i < |table| ==> !Mentions(table[i].1, t) {
          forall i | 0 <= i < |tail| ensures !Mentions(tail[i].1, t) {
            assert tail[i] == table[i + 1];
          }
        }
      } else {
        assert IsFirstMatch(table, t, 0);
        forall i | IsFirstMatch(table, t, i) ensures i == 0 { }
      }
    }
  }

  /** `detect_brand` returns None exactly when no keyword of any brand
      occurs in the lower-cased text. */
  lemma DetectNoneIff(table: BrandTable, text: string)
    ensures Detect(table, text) == None <==>
      forall i :: 0 <= i < |table| ==> forall k :: k in table[i].1 ==> !Occurs(Lower(text), k)
  {
    FirstMatchIndex(table, Lower(text));
  }

  /** First match wins: the result is the name of the earliest entry that
      has a keyword in the lower-cased text, whatever later entries match;
      in particular any result is a key of the dictionary. */
  lemma DetectFirstMatch(table: BrandTable, text: string, b: string)
    ensures Detect(table, text) == Some(b) <==>
      exists i :: IsFirstMatch(table, Lower(text), i) && table[i].0 == b
  {
    FirstMatchIndex(table, Lower(text));
  }

  /** Upper and lower case in the text make no difference. */
  lemma DetectCaseInsensitive(table: BrandTable, text: string)
    ensures Detect(table, text) == Detect(table, Lower(text))
  {
    LowerIdempotent(text);
  }

  /** Only the text is lower-cased: a keyword holding an upper-case ASCII
      letter can never match. */
  lemma UpperCaseKeywordNeverMatches(text: string, kw: string, c: nat)
    requires c < |kw| && 'A' <= kw[c] <= 'Z'
    ensures !Contains(Lower(text), kw)
  {
    ContainsIffOccurs(Lower(text), kw);
  }

  /** `detect_brand(text, brand_dict)` itself: the scan over entries and
      keywords, returning at the first keyword found. */
  method DetectBrand(text: string, table: BrandTable) returns (brand: Option<string>)
    ensures brand == Detect(table, text)
  {
    var t := Lower(text);
    var i := 0;
    while i < |table|
      invariant 0 <= i <= |table|
      invariant FirstMatch(table, t) == FirstMatch(table[i..], t)
    {
      var kws := table[i].1;
      var j := 0;
      while j < |kws|
        invariant 0 <= j <= |kws|
        invariant AnyKeyword(kws, t) == AnyKeyword(kws[j..], t)
      {
        if Contains(t, kws[j]) {
          return Some(table[i].0);
        }
        assert kws[j..][1..] == kws[j + 1..];
        j := j + 1;
      }
      assert table[i..][1..] == table[i + 1..];
      i := i + 1;
    }
    return None;
  }

  /** In the manufacturer dictionary every keyword is lower-case (so each
      can match), and every brand name is a distinct, non-empty string (so a
      detected brand is always truthy). */
  lemma BrandsWellFormed()
    ensures forall i :: 0 <= i < |BRANDS| ==> BRANDS[i].0 != ""
    ensures forall i, j :: 0 <= i < j < |BRANDS| ==> BRANDS[i].0 != BRANDS[j].0
    ensures forall i, k :: 0 <= i < |BRANDS| && k in BRANDS[i].1 ==> Lower(k) == k
  {
  }

  /** First match, not best match, decides: "GM" precedes "Ram" in the
      dictionary, so any text holding "gm" (a "GM and RAM" post, or the word
      "dogma") gets a brand and never "Ram", whatever else it holds. */
  lemma GmShadowsRam(text: string)
    requires Contains(Lower(text), "gm")
    ensures Detect(BRANDS, text).Some? && Detect(BRANDS, text) != Some("Ram")
  {
    var t := Lower(text);
    ContainsIffOccurs(t, "gm");
    assert "gm" in BRANDS[12].1 && Occurs(t, "gm");
    assert Mentions(BRANDS[12].1, t);
    FirstMatchIndex(BRANDS, t);
    var i :| IsFirstMatch(BRANDS, t, i) && BRANDS[i].0 == FirstMatch(BRANDS, t).value;
    assert i <= 12;
    BrandsWellFormed();
    assert BRANDS[18].0 == "Ram";
  }

  /** `kw` cannot occur in `t` when, at every place it would fit, one of
      its first two characters differs from the text. */
  lemma Absent(t: string, kw: string)
    requires |kw| >= 2
    requires forall p :: 0 <= p && p + |kw| <= |t| ==> t[p] != kw[0] || t[p + 1] != kw[1]
    ensures !Occurs(t, kw)
  {
    forall p | 0 <= p && p + |kw| <= |t|
      ensures !OccursAt(t, kw, p)
    {
      assert t[p..p + |kw|][0] != kw[0] || t[p..p + |kw|][1] != kw[1];
    }
  }

  /** Matching is by substring, not by word: "program" is tagged "Ram",
      since no keyword of an earlier entry occurs in it. */
  lemma ProgramIsTagged()
    ensures Detect(BRANDS, "program") == Some("Ram")
  {
    var t := Lower("program");
    assert t == "program";
    forall j, k | 0 <= j < 18 && k in BRANDS[j].1
      ensures !Occurs(t, k)
    {
      if j == 0 {
        Absent(t, "toyota");
      } else if j == 1 {
        Absent(t, "tesla");
      } else if j == 2 {
        Absent(t, "bmw");
      } else if j == 3 {
        Absent(t, "honda");
      } else if j == 4 {
        Absent(t, "ford");
      } else if j == 5 {
        Absent(t, "mercedes");
        Absent(t, "mercedes-benz");
        Absent(t, "benz");
      } else if j == 6 {
        Absent(t, "volkswagen");
        Absent(t, "vw");
      } else if j == 7 {
        Absent(t, "nissan");
      } else if j == 8 {
        Absent(t, "hyundai");
      } else if j == 9 {
        Absent(t, "kia");
      } else if j == 10 {
        Absent(t, "chevrolet");
        Absent(t, "chevy");
      } else if j == 11 {
        Absent(t, "volvo");
      } else if j == 12 {
        Absent(t, "gm");
        Absent(t, "general motors");
      } else if j == 13 {
        Absent(t, "stellantis");
      } else if j == 14 {
        Absent(t, "rivian");
      } else if j == 15 {
        Absent(t, "chrysler");
      } else if j == 16 {
        Absent(t, "jeep");
      } else if j == 17 {
        Absent(t, "dodge");
      }
    }
    assert OccursAt(t, "ram", 4);
    assert "ram" in BRANDS[18].1;
    assert IsFirstMatch(BRANDS, t, 18);
    FirstMatchIndex(BRANDS, t);
  }

  /** With only ("Toyota", ["toyota"]), the result is "Toyota" exactly when
      "toyota" is in the lower-cased text, and None otherwise. */
  lemma ToyotaOnlyDetect(text: string)
    ensures Detect(TOYOTA_ONLY, text) == Some("Toyota") <==> Contains(Lower(text), "toyota")
    ensures Detect(TOYOTA_ONLY, text) != Some("Toyota") ==> Detect(TOYOTA_ONLY, text) == None
  {
    var kws: seq<string> := ["toyota"];
    assert kws[1..] == [];
    assert TOYOTA_ONLY == [("Toyota", kws)] && TOYOTA_ONLY[1..] == [];
    assert AnyKeyword(kws, Lower(text)) == Contains(Lower(text), "toyota");
    assert FirstMatch(TOYOTA_ONLY, Lower(text)) == if Contains(Lower(text), "toyota") then Some("Toyota") else FirstMatch([], Lower(text));
  }

  /** With only ("Tesla", ["tesla"]), the result is "Tesla" exactly when
      "tesla" is in the lower-cased text, and None otherwise. */
  lemma TeslaOnlyDetect(text: string)
    ensures Detect(TESLA_ONLY, text) == Some("Tesla") <==> Contains(Lower(text), "tesla")
    ensures Detect(TESLA_ONLY, text) != Some("Tesla") ==> Detect(TESLA_ONLY, text) == None
  {
    var kws: seq<string> := ["tesla"];
    assert kws[1..] == [];
    assert TESLA_ONLY == [("Tesla", kws)] && TESLA_ONLY[1..] == [];
    assert AnyKeyword(kws, Lower(text)) == Contains(Lower(text), "tesla");
    assert FirstMatch(TESLA_ONLY, Lower(text)) == if Contains(Lower(text), "tesla") then Some("Tesla") else FirstMatch([], Lower(text));
  }
}
