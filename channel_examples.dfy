/**
 * The classifier on particular labels: one or more per keyword group,
 * labels that mix groups, and labels that match nothing. Each label is a
 * parameter fixed by the precondition.
 * An example is proved in steps: the lower-cased label, the chain's
 * decision on it, and the category of the label itself.
 */
module ChannelExamples {
  import opened Text
  import opened Channel

  /** A label is classified by the chain's decision on its lower-cased form. */
  lemma ClassifyVia(source: string, c: Category)
    requires Decide(Lower(source)) == c
    ensures Classify(source) == c
  {
    ClassifyIgnoresTrim(source);
  }

  // The chain's outcome on a label that lacks the letters ruling out the
  // earlier groups and has a keyword of the deciding group.

  lemma DecidesSocial(s: string)
    requires 'o' !in s && Contains(s, "instagram")
    ensures Decide(s) == Social
  {
    Absent(s, "google", 'o');
  }

  lemma DecidesOrganic(s: string)
    requires 'l' !in s && 'f' !in s && 's' !in s && Contains(s, "organic")
    ensures Decide(s) == Organic
  {
    Absent(s, "google", 'l');
    Absent(s, "facebook", 'f');
    Absent(s, "instagram", 's');
  }

  lemma DecidesDirect(s: string)
    requires 'g' !in s && 'f' !in s && 'n' !in s && 'o' !in s
    requires Contains(s, "direct") || Contains(s, "site")
    ensures Decide(s) == Direct
  {
    Absent(s, "google", 'g');
    Absent(s, "facebook", 'f');
    Absent(s, "instagram", 'n');
    Absent(s, "organic", 'o');
    Absent(s, "organico", 'o');
  }

  lemma DecidesEmail(s: string)
    requires 'o' !in s && 'f' !in s && 's' !in s && 'd' !in s && Contains(s, "mail")
    ensures Decide(s) == Email
  {
    Absent(s, "google", 'o');
    Absent(s, "facebook", 'f');
    Absent(s, "instagram", 's');
    Absent(s, "organic", 'o');
    Absent(s, "organico", 'o');
    Absent(s, "direct", 'd');
    Absent(s, "site", 's');
  }

  /** The chain gives the default when no keyword occurs. */
  lemma DecidesOther(s: string)
    requires forall k :: k in Keywords ==> !Contains(s, k)
    ensures Decide(s) == Other
  {
    DecideDefault(s);
  }

  // "Google / cpc": search engine.

  lemma GoogleCpcLower(s: string)
    requires s == "Google / cpc"
    ensures Lower(s) == "" + "google" + " / cpc"
  {
  }

  lemma GoogleCpc(s: string)
    requires s == "Google / cpc"
    ensures Classify(s) == Search
  {
    GoogleCpcLower(s);
    ContainsSpliced("", "google", " / cpc");
    GoogleWins(s);
  }

  // "Instagram Ads": social.

  lemma InstagramAdsLower(s: string)
    requires s == "Instagram Ads"
    ensures Lower(s) == "" + "instagram" + " ads"
  {
  }

  lemma InstagramAdsDecided(low: string)
    requires low == "" + "instagram" + " ads"
    ensures Decide(low) == Social
  {
    ContainsSpliced("", "instagram", " ads");
    DecidesSocial(low);
  }

  lemma InstagramAds(s: string)
    requires s == "Instagram Ads"
    ensures Classify(s) == Social
  {
    InstagramAdsLower(s);
    InstagramAdsDecided(Lower(s));
    ClassifyVia(s, Social);
  }

  // "organic": organic.

  lemma OrganicDecided(low: string)
    requires low == "organic"
    ensures Decide(low) == Organic
  {
    Found(low, "organic", 0);
    DecidesOrganic(low);
  }

  lemma OrganicLabel(s: string)
    requires s == "organic"
    ensures Classify(s) == Organic
  {
    assert Lower(s) == "organic";
    OrganicDecided(Lower(s));
    ClassifyVia(s, Organic);
  }

  // "site": direct.

  lemma SiteDecided(low: string)
    requires low == "site"
    ensures Decide(low) == Direct
  {
    Found(low, "site", 0);
    DecidesDirect(low);
  }

  lemma SiteLabel(s: string)
    requires s == "site"
    ensures Classify(s) == Direct
  {
    assert Lower(s) == "site";
    SiteDecided(Lower(s));
    ClassifyVia(s, Direct);
  }

  // "E-mail Marketing": e-mail.

  lemma EmailMarketingLower(s: string)
    requires s == "E-mail Marketing"
    ensures Lower(s) == "e-" + "mail" + " marketing"
  {
  }

  lemma EmailMarketingDecided(low: string)
    requires low == "e-" + "mail" + " marketing"
    ensures Decide(low) == Email
  {
    ContainsSpliced("e-", "mail", " marketing");
    DecidesEmail(low);
  }

  lemma EmailMarketing(s: string)
    requires s == "E-mail Marketing"
    ensures Classify(s) == Email
  {
    EmailMarketingLower(s);
    EmailMarketingDecided(Lower(s));
    ClassifyVia(s, Email);
  }

  // "site / e-mail": both "site" and "mail" occur; the direct group comes first.

  lemma SiteAndMailDecided(low: string)
    requires low == "site / e-" + "mail" + ""
    ensures Contains(low, "mail")
    ensures Decide(low) == Direct
  {
    ContainsSpliced("site / e-", "mail", "");
    Found(low, "site", 0);
    DecidesDirect(low);
  }

  lemma SiteAndMailLower(s: string)
    requires s == "site / e-mail"
    ensures Lower(s) == "site / e-" + "mail" + ""
  {
  }

  lemma SiteAndMail(s: string)
    requires s == "site / e-mail"
    ensures Contains(Lower(s), "mail")
    ensures Classify(s) == Direct
  {
    SiteAndMailLower(s);
    SiteAndMailDecided(Lower(s));
    ClassifyVia(s, Direct);
  }

  // The empty label and "tiktok": the default.

  lemma EmptyLabel(s: string)
    requires s == ""
    ensures Classify(s) == Other
  {
    forall k | k in Keywords ensures !Contains(Lower(s), k) {
      Absent(Lower(s), k, k[0]);
    }
    DecidesOther(Lower(s));
    ClassifyVia(s, Other);
  }

  lemma TiktokDecided(low: string)
    requires low == "tiktok"
    ensures Decide(low) == Other
  {
    forall k | k in Keywords ensures !Contains(low, k) {
      assert k[0] == 'g' || k[0] == 'f' || k[0] == 'i' || k == "organic" || k == "organico"
        || k[0] == 'd' || k[0] == 's' || k[0] == 'm';
      if k[0] == 'i' { Absent(low, k, 'n'); }
      else if k == "organic" || k == "organico" { Absent(low, k, 'r'); }
      else { Absent(low, k, k[0]); }
    }
    DecidesOther(low);
  }

  lemma Tiktok(s: string)
    requires s == "tiktok"
    ensures Classify(s) == Other
  {
    assert Lower(s) == "tiktok";
    TiktokDecided(Lower(s));
    ClassifyVia(s, Other);
  }

  // "Orgânico": lower-casing keeps the accented letter, and without a
  // plain "a" neither "organic" nor "organico" occurs, so it is the default.

  lemma OrganicoAccentLower(s: string)
    requires s == "Orgânico"
    ensures Lower(s) == "orgânico"
  {
  }

  lemma OrganicoAccentDecided(low: string)
    requires low == "orgânico"
    ensures Decide(low) == Other
  {
    forall k | k in Keywords ensures !Contains(low, k) {
      assert k == "google" || k[0] == 'f' || k[0] == 'i' || k == "organic" || k == "organico"
        || k[0] == 'd' || k[0] == 's' || k[0] == 'm';
      if k == "google" { Absent(low, k, 'l'); }
      else if k[0] == 'i' { Absent(low, k, 's'); }
      else if k == "organic" || k == "organico" { Absent(low, k, 'a'); }
      else { Absent(low, k, k[0]); }
    }
    DecidesOther(low);
  }

  lemma OrganicoWithAccent(s: string)
    requires s == "Orgânico"
    ensures Classify(s) == Other
  {
    OrganicoAccentLower(s);
    OrganicoAccentDecided(Lower(s));
    ClassifyVia(s, Other);
  }

  // "Direto": it contains neither "direct" nor "site", so it is the default.

  lemma DiretoLower(s: string)
    requires s == "Direto"
    ensures Lower(s) == "direto"
  {
  }

  lemma DiretoDecided(low: string)
    requires low == "direto"
    ensures Decide(low) == Other
  {
    forall k | k in Keywords ensures !Contains(low, k) {
      assert k[0] == 'g' || k[0] == 'f' || k[0] == 'i' || k == "organic" || k == "organico"
        || k == "direct" || k[0] == 's' || k[0] == 'm';
      if k[0] == 'i' { Absent(low, k, 'n'); }
      else if k == "organic" || k == "organico" { Absent(low, k, 'g'); }
      else if k == "direct" { Absent(low, k, 'c'); }
      else { Absent(low, k, k[0]); }
    }
    DecidesOther(low);
  }

  lemma Direto(s: string)
    requires s == "Direto"
    ensures Classify(s) == Other
  {
    DiretoLower(s);
    DiretoDecided(Lower(s));
    ClassifyVia(s, Other);
  }

  // "Google" and "Direct", the labels of a two-step path.

  lemma GoogleLabel(s: string)
    requires s == "Google"
    ensures Classify(s) == Search
  {
    assert Lower(s) == "" + "google" + "";
    ContainsSpliced("", "google", "");
    GoogleWins(s);
  }

  lemma DirectDecided(low: string)
    requires low == "direct"
    ensures Decide(low) == Direct
  {
    Found(low, "direct", 0);
    DecidesDirect(low);
  }

  lemma DirectLabel(s: string)
    requires s == "Direct"
    ensures Classify(s) == Direct
  {
    assert Lower(s) == "direct";
    DirectDecided(Lower(s));
    ClassifyVia(s, Direct);
  }

  // "GOOGLE ads" and "google ADS": equal up to case, both search engine.

  lemma GoogleAdsUpperLower(a: string)
    requires a == "GOOGLE ads"
    ensures Lower(a) == "" + "google" + " ads"
  {
  }

  lemma GoogleAdsMixedLower(b: string)
    requires b == "google ADS"
    ensures Lower(b) == "" + "google" + " ads"
  {
  }

  lemma GoogleAnyCase(a: string, b: string)
    requires a == "GOOGLE ads" && b == "google ADS"
    ensures Classify(a) == Classify(b) == Search
  {
    GoogleAdsUpperLower(a);
    GoogleAdsMixedLower(b);
    ContainsSpliced("", "google", " ads");
    GoogleWins(a);
    GoogleWins(b);
  }
}
