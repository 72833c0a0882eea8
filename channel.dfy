/**
 * The channel classifier `getChannelStyle`: a touchpoint's free-text
 * source label is lower-cased and trimmed, then tested against keyword
 * groups in a fixed order; the first group with a keyword in the label
 * decides the category, and each category has one fixed badge style.
 */
module Channel {
  import opened Text

  /** The six presentational categories: search engine, social, organic, direct, e-mail and the default. */
  datatype Category = Search | Social | Organic | Direct | Email | Other

  /** The static table from category to badge style. */
  function StyleOf(c: Category): string {
    match c
    case Search => "bg-blue-50 text-blue-700 border-blue-200 ring-blue-100"
    case Social => "bg-indigo-50 text-indigo-700 border-indigo-200 ring-indigo-100"
    case Organic => "bg-emerald-50 text-emerald-700 border-emerald-200 ring-emerald-100"
    case Direct => "bg-slate-50 text-slate-700 border-slate-200 ring-slate-100"
    case Email => "bg-amber-50 text-amber-700 border-amber-200 ring-amber-100"
    case Other => "bg-gray-50 text-gray-600 border-gray-200 ring-gray-100"
  }

  /** The label as the keyword tests see it. */
  function Normalize(source: string): string {
    Trim(Lower(source))
  }

  /** The chain of keyword tests on an already normalised label. */
  function Decide(s: string): Category {
    if Contains(s, "google") then Search
    else if Contains(s, "facebook") || Contains(s, "instagram") then Social
    else if Contains(s, "organic") || Contains(s, "organico") then Organic
    else if Contains(s, "direct") || Contains(s, "site") then Direct
    else if Contains(s, "mail") then Email
    else Other
  }

  function Classify(source: string): Category {
    Decide(Normalize(source))
  }

  /** `getChannelStyle`. */
  function ChannelStyle(source: string): string {
    StyleOf(Classify(source))
  }

  // An independent statement of the classifier: an ordered table of
  // keyword groups, evaluated first match wins.

  datatype Rule = Rule(keywords: seq<string>, category: Category)

  const Rules: seq<Rule> := [
    Rule(["google"], Search),
    Rule(["facebook", "instagram"], Social),
    Rule(["organic", "organico"], Organic),
    Rule(["direct", "site"], Direct),
    Rule(["mail"], Email)
  ]

  /** Every keyword of every group, in table order. */
  const Keywords: seq<string> := ["google", "facebook", "instagram", "organic", "organico", "direct", "site", "mail"]

  /** The keyword list is the table's groups, one after the other. */
  lemma KeywordsOfRules()
    ensures Keywords == Rules[0].keywords + Rules[1].keywords + Rules[2].keywords
      + Rules[3].keywords + Rules[4].keywords
  {
  }

  predicate Fires(rule: Rule, s: string) {
    exists k :: k in rule.keywords && Contains(s, k)
  }

  function FirstMatch(rules: seq<Rule>, s: string): Category {
    if rules == [] then Other
    else if Fires(rules[0], s) then rules[0].category
    else FirstMatch(rules[1..], s)
  }

  /** The first group that fires decides, whatever the later groups would say. */
  lemma {:induction false} FirstMatchHit(rules: seq<Rule>, s: string, i: int)
    requires 0 <= i < |rules| && Fires(rules[i], s)
    requires forall j :: 0 <= j < i ==> !Fires(rules[j], s)
    ensures FirstMatch(rules, s) == rules[i].category
  {
    if i > 0 {
      assert !Fires(rules[0], s);
      assert forall j :: 0 <= j < i - 1 ==> rules[1..][j] == rules[j + 1];
      FirstMatchHit(rules[1..], s, i - 1);
    }
  }

  /** When no group fires the result is the default. */
  lemma {:induction false} FirstMatchNone(rules: seq<Rule>, s: string)
    requires forall j :: 0 <= j < |rules| ==> !Fires(rules[j], s)
    ensures FirstMatch(rules, s) == Other
  {
    if rules != [] {
      assert !Fires(rules[0], s);
      assert forall j :: 0 <= j < |rules| - 1 ==> rules[1..][j] == rules[j + 1];
      FirstMatchNone(rules[1..], s);
    }
  }

  /** The chain of tests is the rule table read first match wins. */
  lemma DecideFollowsRules(s: string)
    ensures Decide(s) == FirstMatch(Rules, s)
  {
    assert Fires(Rules[0], s) <==> Contains(s, "google");
    assert Fires(Rules[1], s) <==> Contains(s, "facebook") || Contains(s, "instagram");
    assert Fires(Rules[2], s) <==> Contains(s, "organic") || Contains(s, "organico");
    assert Fires(Rules[3], s) <==> Contains(s, "direct") || Contains(s, "site");
    assert Fires(Rules[4], s) <==> Contains(s, "mail");
    var i := 0;
    while i < |Rules| && !Fires(Rules[i], s)
      invariant 0 <= i <= |Rules|
      invariant forall j :: 0 <= j < i ==> !Fires(Rules[j], s)
    {
      i := i + 1;
    }
    if i < |Rules| {
      FirstMatchHit(Rules, s, i);
    } else {
      FirstMatchNone(Rules, s);
    }
  }

  /** No keyword is empty and none has white space in it. */
  lemma KeywordsAreWords(k: string)
    requires k in Keywords
    ensures k != [] && NoSpace(k)
  {
  }

  /** White space around the label never changes the chain's decision. */
  lemma DecideIgnoresFrame(t: string, s: string)
    requires Framed(t, s)
    ensures Decide(t) == Decide(s)
  {
    forall k | k in Keywords
      ensures Contains(t, k) == Contains(s, k)
    {
      KeywordsAreWords(k);
      ContainsFramed(t, s, k);
    }
  }

  /** Trimming is irrelevant: the classifier decides on the lower-cased label as it is. */
  lemma ClassifyIgnoresTrim(source: string)
    ensures Classify(source) == Decide(Lower(source))
  {
    TrimFramed(Lower(source));
    DecideIgnoresFrame(Normalize(source), Lower(source));
  }

  /** A label and the same label with white space around it classify alike. */
  lemma ClassifyPadded(source: string, padded: string)
    requires Framed(source, padded)
    ensures Classify(padded) == Classify(source)
  {
    var a, b :| 0 <= a <= b <= |padded| && source == padded[a..b] && AllSpace(padded[..a]) && AllSpace(padded[b..]);
    var low := Lower(padded);
    LowerSlice(padded, a, b);
    forall i | 0 <= i < a ensures IsSpace(low[..a][i]) {
      LowerKeepsSpace(padded[..a][i]);
    }
    forall i | 0 <= i < |padded| - b ensures IsSpace(low[b..][i]) {
      LowerKeepsSpace(padded[b..][i]);
    }
    assert Framed(Lower(source), low);
    ClassifyIgnoresTrim(source);
    ClassifyIgnoresTrim(padded);
    DecideIgnoresFrame(Lower(source), low);
  }

  /** In particular, classifying the trimmed label gives the same category. */
  lemma ClassifyTrimIdempotent(source: string)
    ensures Classify(Trim(source)) == Classify(source)
  {
    TrimFramed(source);
    ClassifyPadded(Trim(source), source);
  }

  /** Two labels that differ only in the case of ASCII letters classify alike. */
  lemma ClassifyIgnoresCase(a: string, b: string)
    requires |a| == |b|
    requires forall i :: 0 <= i < |a| ==> LowerChar(a[i]) == LowerChar(b[i])
    ensures Classify(a) == Classify(b)
  {
    assert Lower(a) == Lower(b);
  }

  /** The classifier is the rule table read first match wins, on the lower-cased label. */
  lemma ClassifyFollowsRules(source: string)
    ensures Classify(source) == FirstMatch(Rules, Lower(source))
  {
    ClassifyIgnoresTrim(source);
    DecideFollowsRules(Lower(source));
  }

  /** The chain ends in the default exactly when no keyword is in the label. */
  lemma DecideDefault(s: string)
    ensures Decide(s) == Other <==> forall k :: k in Keywords ==> !Contains(s, k)
  {
    if Decide(s) == Other {
      forall k | k in Keywords ensures !Contains(s, k) {
        assert k == "google" || k == "facebook" || k == "instagram" || k == "organic"
          || k == "organico" || k == "direct" || k == "site" || k == "mail";
      }
    } else {
      assert Keywords[0] == "google" && Keywords[1] == "facebook" && Keywords[2] == "instagram";
      assert Keywords[3] == "organic" && Keywords[4] == "organico" && Keywords[5] == "direct";
      assert Keywords[6] == "site" && Keywords[7] == "mail";
      var i :| 0 <= i < |Keywords| && Contains(s, Keywords[i]);
      assert Keywords[i] in Keywords;
    }
  }

  /** The default style is given exactly to the labels that contain no keyword. */
  lemma ClassifyDefault(source: string)
    ensures Classify(source) == Other <==> forall k :: k in Keywords ==> !Contains(Lower(source), k)
  {
    ClassifyIgnoresTrim(source);
    DecideDefault(Lower(source));
  }

  /** First match wins: a label with "google" in it is a search engine, whatever else it says. */
  lemma GoogleWins(source: string)
    requires Contains(Lower(source), "google")
    ensures Classify(source) == Search
  {
    ClassifyIgnoresTrim(source);
  }

  /** A label with "direct" or "site" and "mail", and no earlier keyword, is direct, not e-mail. */
  lemma DirectBeatsMail(source: string)
    requires Contains(Lower(source), "direct") || Contains(Lower(source), "site")
    requires Contains(Lower(source), "mail")
    requires !Contains(Lower(source), "google")
    requires !Contains(Lower(source), "facebook") && !Contains(Lower(source), "instagram")
    requires !Contains(Lower(source), "organic")
    ensures Classify(source) == Direct
  {
    ClassifyIgnoresTrim(source);
    OrganicoSubsumed(Lower(source));
  }

  /** Every "organico" is an "organic", so the second test of the organic group never decides anything. */
  lemma OrganicoSubsumed(s: string)
    ensures Contains(s, "organico") ==> Contains(s, "organic")
  {
    ContainsIffOccurs(s, "organico");
    if Contains(s, "organico") {
      var i :| OccursAt(s, "organico", i);
      assert s[i..i + 7] == s[i..i + 8][..7];
      Found(s, "organic", i);
    }
  }

  /** Dropping "organico" from the table leaves the classifier unchanged. */
  lemma OrganicoRedundant(s: string)
    ensures FirstMatch(Rules, s) == FirstMatch(Rules[2 := Rule(["organic"], Organic)], s)
  {
    OrganicoSubsumed(s);
    var simpler := Rules[2 := Rule(["organic"], Organic)];
    DecideFollowsRules(s);
    var i := 0;
    while i < |simpler| && !Fires(simpler[i], s)
      invariant 0 <= i <= |simpler|
      invariant forall j :: 0 <= j < i ==> !Fires(simpler[j], s) && !Fires(Rules[j], s)
    {
      assert Fires(simpler[i], s) == Fires(Rules[i], s);
      i := i + 1;
    }
    if i < |simpler| {
      assert Fires(simpler[i], s) == Fires(Rules[i], s);
      FirstMatchHit(simpler, s, i);
      FirstMatchHit(Rules, s, i);
    } else {
      FirstMatchNone(simpler, s);
      FirstMatchNone(Rules, s);
    }
  }
}
