/** The two keyword classifiers of the fraud engine: a merchant name and a location are
    lower-cased and searched for fixed keywords, the high-risk list first. */
module RiskCurves {
  import opened Text

  const HighRiskMerchants: seq<string> := ["casino", "gambling", "crypto exchange", "jewelry"]
  const MediumRiskMerchants: seq<string> := ["online shopping", "electronics", "luxury goods"]
  const HighRiskLocations: seq<string> := ["nigeria", "somalia", "north korea", "iran"]
  const MediumRiskLocations: seq<string> := ["caribbean", "panama", "cayman islands"]

  /** `keywords.some(k => text.includes(k))`. */
  predicate MentionsAny(text: string, keywords: seq<string>) {
    exists k :: k in keywords && Includes(text, k)
  }

  /** `calculateMerchantRisk`. */
  function MerchantRisk(merchant: string): (r: real)
    ensures r == 0.8 || r == 0.5 || r == 0.1
  {
    var lower := Lower(merchant);
    if MentionsAny(lower, HighRiskMerchants) then 0.8
    else if MentionsAny(lower, MediumRiskMerchants) then 0.5
    else 0.1
  }

  /** `calculateLocationRisk`. */
  function LocationRisk(location: string): (r: real)
    ensures r == 0.9 || r == 0.6 || r == 0.2
  {
    var lower := Lower(location);
    if MentionsAny(lower, HighRiskLocations) then 0.9
    else if MentionsAny(lower, MediumRiskLocations) then 0.6
    else 0.2
  }

  /** The merchant tier is decided by keyword occurrence in the lower-cased name,
      a high-risk keyword winning over a medium-risk one. */
  lemma MerchantRiskTiers(merchant: string)
    ensures MerchantRisk(merchant) == 0.8 <==>
      exists k :: k in HighRiskMerchants && Includes(Lower(merchant), k)
    ensures MerchantRisk(merchant) == 0.5 <==>
      (!exists k :: k in HighRiskMerchants && Includes(Lower(merchant), k)) &&
      (exists k :: k in MediumRiskMerchants && Includes(Lower(merchant), k))
    ensures MerchantRisk(merchant) == 0.1 <==>
      !exists k :: (k in HighRiskMerchants || k in MediumRiskMerchants) && Includes(Lower(merchant), k)
  {
  }

  /** The location tier is decided by keyword occurrence in the lower-cased location,
      a high-risk keyword winning over a medium-risk one. */
  lemma LocationRiskTiers(location: string)
    ensures LocationRisk(location) == 0.9 <==>
      exists k :: k in HighRiskLocations && Includes(Lower(location), k)
    ensures LocationRisk(location) == 0.6 <==>
      (!exists k :: k in HighRiskLocations && Includes(Lower(location), k)) &&
      (exists k :: k in MediumRiskLocations && Includes(Lower(location), k))
    ensures LocationRisk(location) == 0.2 <==>
      !exists k :: (k in HighRiskLocations || k in MediumRiskLocations) && Includes(Lower(location), k)
  {
  }

  /** Both classifiers ignore letter case. */
  lemma CaseInsensitive(s: string)
    ensures MerchantRisk(Lower(s)) == MerchantRisk(s)
    ensures LocationRisk(Lower(s)) == LocationRisk(s)
  {
    LowerIdempotent(s);
  }

  lemma MentionsAnyWiden(a: string, s: string, b: string, keywords: seq<string>)
    requires MentionsAny(s, keywords)
    ensures MentionsAny(a + s + b, keywords)
  {
    var k :| k in keywords && Includes(s, k);
    IncludesWiden(a, s, b, k);
  }

  /** Surrounding a name with more text can only raise its tier: a keyword already
      found is still found. */
  lemma RiskWiden(a: string, s: string, b: string)
    ensures MerchantRisk(a + s + b) >= MerchantRisk(s)
    ensures LocationRisk(a + s + b) >= LocationRisk(s)
  {
    LowerAppend(a + s, b);
    LowerAppend(a, s);
    var w := Lower(a + s + b);
    assert w == Lower(a) + Lower(s) + Lower(b);
    if MentionsAny(Lower(s), HighRiskMerchants) {
      MentionsAnyWiden(Lower(a), Lower(s), Lower(b), HighRiskMerchants);
    } else if MentionsAny(Lower(s), MediumRiskMerchants) {
      MentionsAnyWiden(Lower(a), Lower(s), Lower(b), MediumRiskMerchants);
    }
    if MentionsAny(Lower(s), HighRiskLocations) {
      MentionsAnyWiden(Lower(a), Lower(s), Lower(b), HighRiskLocations);
    } else if MentionsAny(Lower(s), MediumRiskLocations) {
      MentionsAnyWiden(Lower(a), Lower(s), Lower(b), MediumRiskLocations);
    }
  }

  /** A keyword with at least two letters cannot occur where its first two letters do not. */
  lemma Absent(s: string, p: string)
    requires |p| >= 2
    requires forall i :: 0 <= i <= |s| - |p| ==> s[i] != p[0] || s[i + 1] != p[1]
    ensures !Includes(s, p)
  {
    forall i | 0 <= i <= |s| - |p| ensures !OccursAt(s, p, i) {
      assert s[i..i + |p|][0] == s[i] && s[i..i + |p|][1] == s[i + 1];
    }
  }

  lemma LowerLiteral(s: string, t: string)
    requires |s| == |t|
    requires forall i :: 0 <= i < |s| ==> LowerChar(s[i]) == t[i]
    ensures Lower(s) == t
  {
    forall i | 0 <= i < |s| ensures Lower(s)[i] == t[i] {
      LowerAt(s, i);
    }
  }

  lemma DowntownCasinoLower()
    ensures Lower("Downtown Casino") == "downtown casino"
  {
    LowerLiteral("Downtown Casino", "downtown casino");
  }

  lemma DowntownCasinoKeyword()
    ensures MentionsAny("downtown casino", HighRiskMerchants)
  {
    assert Includes("downtown casino", "casino") by {
      assert OccursAt("downtown casino", "casino", 9);
    }
  }

  /** A casino is a high-risk merchant. */
  lemma DowntownCasino()
    ensures MerchantRisk("Downtown Casino") == 0.8
  {
    DowntownCasinoLower();
    DowntownCasinoKeyword();
  }

  lemma JewelryStoreLower()
    ensures Lower("Jewelry Store") == "jewelry store"
  {
    LowerLiteral("Jewelry Store", "jewelry store");
  }

  lemma JewelryStoreKeyword()
    ensures MentionsAny("jewelry store", HighRiskMerchants)
  {
    assert Includes("jewelry store", "jewelry") by {
      assert OccursAt("jewelry store", "jewelry", 0);
    }
  }

  /** A jewelry store is a high-risk merchant. */
  lemma JewelryStore()
    ensures MerchantRisk("Jewelry Store") == 0.8
  {
    JewelryStoreLower();
    JewelryStoreKeyword();
  }

  lemma StarbucksLower()
    ensures Lower("Starbucks") == "starbucks"
  {
    LowerLiteral("Starbucks", "starbucks");
  }

  lemma StarbucksNoKeyword()
    ensures !MentionsAny("starbucks", HighRiskMerchants)
    ensures !MentionsAny("starbucks", MediumRiskMerchants)
  {
    var s := "starbucks";
    Absent(s, "casino");
    Absent(s, "gambling");
    Absent(s, "crypto exchange");
    Absent(s, "jewelry");
    Absent(s, "online shopping");
    Absent(s, "electronics");
    Absent(s, "luxury goods");
  }

  /** A coffee shop matches no keyword and is low-risk. */
  lemma Starbucks()
    ensures MerchantRisk("Starbucks") == 0.1
  {
    StarbucksLower();
    StarbucksNoKeyword();
  }

  lemma LagosNigeriaLower()
    ensures Lower("Lagos, Nigeria") == "lagos, nigeria"
  {
    LowerLiteral("Lagos, Nigeria", "lagos, nigeria");
  }

  lemma LagosNigeriaKeyword()
    ensures MentionsAny("lagos, nigeria", HighRiskLocations)
  {
    assert Includes("lagos, nigeria", "nigeria") by {
      assert OccursAt("lagos, nigeria", "nigeria", 7);
    }
  }

  /** A location in Nigeria is high-risk. */
  lemma LagosNigeria()
    ensures LocationRisk("Lagos, Nigeria") == 0.9
  {
    LagosNigeriaLower();
    LagosNigeriaKeyword();
  }

  lemma SeattleLower()
    ensures Lower("Seattle, WA") == "seattle, wa"
  {
    LowerLiteral("Seattle, WA", "seattle, wa");
  }

  lemma SeattleNoKeyword()
    ensures !MentionsAny("seattle, wa", HighRiskLocations)
    ensures !MentionsAny("seattle, wa", MediumRiskLocations)
  {
    var s := "seattle, wa";
    Absent(s, "nigeria");
    Absent(s, "somalia");
    Absent(s, "north korea");
    Absent(s, "iran");
    Absent(s, "caribbean");
    Absent(s, "panama");
    Absent(s, "cayman islands");
  }

  /** Seattle matches no keyword and is low-risk. */
  lemma SeattleWa()
    ensures LocationRisk("Seattle, WA") == 0.2
  {
    SeattleLower();
    SeattleNoKeyword();
  }

  lemma MiamiLower()
    ensures Lower("Miami, FL") == "miami, fl"
  {
    LowerLiteral("Miami, FL", "miami, fl");
  }

  lemma MiamiNoKeyword()
    ensures !MentionsAny("miami, fl", HighRiskLocations)
    ensures !MentionsAny("miami, fl", MediumRiskLocations)
  {
    var m := "miami, fl";
    Absent(m, "nigeria");
    Absent(m, "somalia");
    Absent(m, "north korea");
    Absent(m, "iran");
    Absent(m, "caribbean");
    Absent(m, "panama");
    Absent(m, "cayman islands");
  }

  /** Miami matches no keyword and is low-risk. */
  lemma MiamiFl()
    ensures LocationRisk("Miami, FL") == 0.2
  {
    MiamiLower();
    MiamiNoKeyword();
  }
}
