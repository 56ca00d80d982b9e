/**
 * The pricing page with a billing-interval toggle: a static table
 * region -> plan -> (price, features), three plans shown in a fixed order,
 * the price picked by the selected billing interval (per-day plans ignore
 * it), a promotional label in front of the best-value plan, and a locale
 * heuristic that pre-selects the India region.
 */
module PricingClient {
  import opened Wrappers
  import opened Regions

  datatype Billing = Yearly | Monthly

  /** A per-day plan has one price string; the others have one per billing interval. */
  datatype Pricing = PerDay(text: string) | ByInterval(yearly: string, monthly: string)

  /** A plan's name, price, best-value flag (absent means false) and features in display order. */
  datatype Plan = Plan(name: string, pricing: Pricing, bestValue: bool, features: seq<(string, string)>)

  /** The three keys of each region's table. */
  datatype Tier = UltraLite | Lite | Pro

  const BestValueLabel: string := "Best Value for Money - "

  /** The eleven features every plan lists, in display order; four of the values differ between plans. */
  function Features(songLength: string, masteredDownloads: string, stemDownload: string, chordsDownload: string)
    : (r: seq<(string, string)>)
    ensures |r| == 11
    ensures r[3] == ("Maximum Song Length", songLength)
    ensures r[5] == ("Number of Mastered Song Downloads", masteredDownloads)
    ensures r[7] == ("Stem Download", stemDownload)
    ensures r[10] == ("Chords Download", chordsDownload)
  {
    [ ("Number of Tracks", "Any"),
      ("Input/Output Format", "MP3, WAV, OGG, FLAC, AVI, MP4, MKV, AIFF, ACC"),
      ("Fast Processing", "Yes"),
      ("Maximum Song Length", songLength),
      ("Maximum Length for Download", "Full Length"),
      ("Number of Mastered Song Downloads", masteredDownloads),
      ("Vocal/Basic/Advanced Stem Separation", "Yes"),
      ("Stem Download", stemDownload),
      ("Batch Upload", "Yes"),
      ("Chords Conversion", "Yes"),
      ("Chords Download", chordsDownload) ]
  }

  /** No two features of a plan share a key, as in the object literal they come from. */
  lemma FeatureKeysDistinct(songLength: string, masteredDownloads: string, stemDownload: string, chordsDownload: string)
    ensures var f := Features(songLength, masteredDownloads, stemDownload, chordsDownload);
      forall i, j :: 0 <= i < j < |f| ==> f[i].0 != f[j].0
  {
  }

  /** The static pricing table. */
  function PricingData(region: Region, tier: Tier): (r: Plan)
    ensures r.name == match tier case UltraLite => "Ultra Lite" case Lite => "Lite" case Pro => "Pro"
    ensures r.pricing.PerDay? <==> tier == UltraLite
    ensures r.bestValue <==> tier == Pro
    ensures |r.features| == 11 && r.features[10].0 == "Chords Download"
  {
    match (region, tier)
    case (International, UltraLite) =>
      Plan("Ultra Lite", PerDay("$1.99 per day"), false,
           Features("5 minutes", "3 Tracks", "50 minutes", "3 Tracks"))
    case (International, Lite) =>
      Plan("Lite", ByInterval("$9.99", "$19.99"), false,
           Features("Any", "100 per month", "500 minutes", "50 Tracks per month"))
    case (International, Pro) =>
      Plan("Pro", ByInterval("$14.99", "$29.99"), true,
           Features("Any", "200 per month", "800 Minutes", "100 Tracks per month"))
    case (India, UltraLite) =>
      Plan("Ultra Lite", PerDay("Rs.99 per day"), false,
           Features("5 minutes", "3 Tracks", "50 minutes", "3 Tracks"))
    case (India, Lite) =>
      Plan("Lite", ByInterval("Rs.150/month, Rs.1800 billed upfront", "Rs.190/month"), false,
           Features("Any", "100 per month", "500 minutes", "20 Tracks"))
    case (India, Pro) =>
      Plan("Pro", ByInterval("Rs.250/month, Rs.3000 billed upfront", "Rs.290/month"), true,
           Features("Any", "200 per month", "800 Minutes", "100 Tracks per month"))
  }

  /** The plans of a region in display order. */
  function Plans(region: Region): (r: seq<Plan>)
    ensures |r| == 3
    ensures r[0].name == "Ultra Lite" && r[1].name == "Lite" && r[2].name == "Pro"
    ensures r[0].pricing.PerDay? && r[1].pricing.ByInterval? && r[2].pricing.ByInterval?
    ensures forall i :: 0 <= i < |r| ==> (r[i].bestValue <==> i == 2)
  {
    [PricingData(region, UltraLite), PricingData(region, Lite), PricingData(region, Pro)]
  }

  /** The price string a plan's pricing offers for the selected interval. */
  function SelectedPrice(p: Pricing, billing: Billing): (r: string)
    ensures p.PerDay? ==> r == p.text
    ensures p.ByInterval? ==> r == if billing == Yearly then p.yearly else p.monthly
  {
    match p
    case PerDay(text) => text
    case ByInterval(yearly, monthly) => if billing == Yearly then yearly else monthly
  }

  /** The price line of a card: the selected price, behind the promotional label on a best-value plan. */
  function PriceDisplay(plan: Plan, billing: Billing): (r: string)
    ensures plan.bestValue ==>
      |r| == |BestValueLabel| + |SelectedPrice(plan.pricing, billing)|
      && r[..|BestValueLabel|] == BestValueLabel
      && r[|BestValueLabel|..] == SelectedPrice(plan.pricing, billing)
    ensures !plan.bestValue ==> r == SelectedPrice(plan.pricing, billing)
  {
    var shown := SelectedPrice(plan.pricing, billing);
    if plan.bestValue then BestValueLabel + shown else shown
  }

  /** What one card shows. */
  datatype Card = Card(name: string, price: string, features: seq<(string, string)>)

  /** The three cards of the page for a region and billing selection. */
  function Cards(region: Region, billing: Billing): (r: seq<Card>)
    ensures |r| == 3
    ensures forall i :: 0 <= i < 3 ==>
      r[i].name == Plans(region)[i].name && r[i].features == Plans(region)[i].features
    ensures r[0].price == Plans(region)[0].pricing.text
    ensures r[1].price == SelectedPrice(Plans(region)[1].pricing, billing)
    ensures r[2].price == BestValueLabel + SelectedPrice(Plans(region)[2].pricing, billing)
  {
    var plans := Plans(region);
    seq(3, i requires 0 <= i < 3 => Card(plans[i].name, PriceDisplay(plans[i], billing), plans[i].features))
  }

  /** A feature's value by its key (keys of one plan are distinct). */
  function FeatureValue(features: seq<(string, string)>, key: string): (r: Option<string>)
    ensures r.Some? <==> exists i :: 0 <= i < |features| && features[i].0 == key
    ensures r.Some? ==> exists i :: 0 <= i < |features| && features[i] == (key, r.value)
    decreases |features|
  {
    if features == [] then None
    else if features[0].0 == key then Some(features[0].1)
    else
      var r := FeatureValue(features[1..], key);
      assert forall i :: 1 <= i < |features| ==> features[i] == features[1..][i - 1];
      r
  }

  /** The first entry with a key decides its value. */
  lemma {:induction false} FeatureValueAt(features: seq<(string, string)>, key: string, i: nat)
    requires i < |features| && features[i].0 == key
    requires forall j :: 0 <= j < i ==> features[j].0 != key
    ensures FeatureValue(features, key) == Some(features[i].1)
    decreases i
  {
    if i > 0 {
      FeatureValueAt(features[1..], key, i - 1);
    }
  }

  /** Chords Download is the last feature and no other key equals it. */
  lemma ChordsDownloadOf(songLength: string, masteredDownloads: string, stemDownload: string, chordsDownload: string)
    ensures FeatureValue(Features(songLength, masteredDownloads, stemDownload, chordsDownload), "Chords Download")
         == Some(chordsDownload)
  {
    var f := Features(songLength, masteredDownloads, stemDownload, chordsDownload);
    assert forall j :: 0 <= j < 10 ==> f[j].0 != "Chords Download";
    FeatureValueAt(f, "Chords Download", 10);
  }

  /** International, yearly: Pro is offered at $14.99 behind the best-value label. */
  lemma InternationalYearlyPro()
    ensures Cards(International, Yearly)[2].price == "Best Value for Money - $14.99"
  {
  }

  /** India, monthly: Lite costs Rs.190/month and its Chords Download differs from the international one. */
  lemma IndiaMonthlyLite()
    ensures Cards(India, Monthly)[1].price == "Rs.190/month"
    ensures FeatureValue(Cards(India, Monthly)[1].features, "Chords Download") == Some("20 Tracks")
    ensures FeatureValue(Cards(International, Monthly)[1].features, "Chords Download") == Some("50 Tracks per month")
  {
    ChordsDownloadOf("Any", "100 per month", "500 minutes", "20 Tracks");
    ChordsDownloadOf("Any", "100 per month", "500 minutes", "50 Tracks per month");
  }

  // ---------------------------------------------------------------------------
  // The locale heuristic.

  /** Lower-casing of one character (ASCII letters only). */
  function LowerChar(c: char): char {
    if 'A' <= c <= 'Z' then (c as int + 32) as char else c
  }

  function ToLower(s: string): (r: string)
    ensures |r| == |s|
    ensures forall i :: 0 <= i < |s| ==> r[i] == LowerChar(s[i])
    ensures forall i :: 0 <= i < |r| ==> !('A' <= r[i] <= 'Z')
  {
    seq(|s|, i requires 0 <= i < |s| => LowerChar(s[i]))
  }

  predicate OccursAt(s: string, needle: string, i: nat) {
    i + |needle| <= |s| && s[i..i + |needle|] == needle
  }

  /** Substring search, as a string's `includes`. */
  function Includes(s: string, needle: string): (r: bool)
    ensures r <==> exists i: nat :: i <= |s| && OccursAt(s, needle, i)
    decreases |s|
  {
    if OccursAt(s, needle, 0) then true
    else if s == [] then false
    else
      OccursShifted(s, needle);
      Includes(s[1..], needle)
  }

  lemma OccursShifted(s: string, needle: string)
    requires s != []
    ensures forall i: nat :: OccursAt(s[1..], needle, i) <==> OccursAt(s, needle, i + 1)
    ensures forall j: nat :: 1 <= j ==> (OccursAt(s, needle, j) <==> OccursAt(s[1..], needle, j - 1))
  {
    forall i: nat
      ensures OccursAt(s[1..], needle, i) <==> OccursAt(s, needle, i + 1)
    {
      if i + |needle| <= |s[1..]| {
        assert s[1..][i..i + |needle|] == s[i + 1..i + 1 + |needle|];
      }
    }
  }

  /** The heuristic: the lower-cased browser language contains "in". */
  function SuggestsIndia(language: string): (r: bool)
    ensures r <==> exists i :: 0 <= i < |language| - 1
                           && LowerChar(language[i]) == 'i' && LowerChar(language[i + 1]) == 'n'
  {
    var lower := ToLower(language);
    LowerPair(language);
    Includes(lower, "in")
  }

  lemma LowerPair(language: string)
    ensures (exists i: nat :: i <= |ToLower(language)| && OccursAt(ToLower(language), "in", i))
        <==> exists i :: 0 <= i < |language| - 1 && LowerChar(language[i]) == 'i' && LowerChar(language[i + 1]) == 'n'
  {
    var lower := ToLower(language);
    OccursPair(lower);
    if i: nat :| i <= |lower| && OccursAt(lower, "in", i) {
      assert LowerChar(language[i]) == 'i' && LowerChar(language[i + 1]) == 'n';
    }
    if i :| 0 <= i < |language| - 1 && LowerChar(language[i]) == 'i' && LowerChar(language[i + 1]) == 'n' {
      assert OccursAt(lower, "in", i);
    }
  }

  lemma OccursPair(s: string)
    ensures forall i: nat :: OccursAt(s, "in", i) <==> i + 1 < |s| && s[i] == 'i' && s[i + 1] == 'n'
  {
    forall i: nat
      ensures OccursAt(s, "in", i) <==> i + 1 < |s| && s[i] == 'i' && s[i + 1] == 'n'
    {
      if i + 1 < |s| {
        assert s[i..i + 2] == [s[i], s[i + 1]];
      }
    }
  }

  lemma LanguageExamples()
    ensures SuggestsIndia("en-IN") && SuggestsIndia("hi-IN")
    ensures !SuggestsIndia("en-US") && !SuggestsIndia("hi")
  {
    assert "en-IN"[3] == 'I' && "en-IN"[4] == 'N';
    assert "hi-IN"[3] == 'I' && "hi-IN"[4] == 'N';
  }

  /** The page's selection state. */
  class PricingPage {
    var selectedRegion: Region
    var selectedBilling: Billing

    constructor ()
      ensures selectedRegion == International && selectedBilling == Yearly
    {
      selectedRegion := International;
      selectedBilling := Yearly;
    }

    /**
     * The effect run on mount. `language` is the browser's language tag, or
     * None when there is no window (server-side rendering).
     */
    method DetectRegion(language: Option<string>)
      modifies this
      ensures language.Some? && SuggestsIndia(language.value) ==> selectedRegion == India
      ensures !(language.Some? && SuggestsIndia(language.value)) ==> selectedRegion == old(selectedRegion)
      ensures selectedBilling == old(selectedBilling)
    {
      if language.Some? {
        var lang := ToLower(language.value);
        if Includes(lang, "in") {
          selectedRegion := India;
        }
      }
    }

    /** The Monthly / Yearly buttons. */
    method SelectBilling(billing: Billing)
      modifies this
      ensures selectedBilling == billing && selectedRegion == old(selectedRegion)
    {
      selectedBilling := billing;
    }

    /** The cards rendered for the current selection. */
    method Render() returns (cards: seq<Card>)
      ensures |cards| == 3 && cards == Cards(selectedRegion, selectedBilling)
    {
      var plans := Plans(selectedRegion);
      cards := [];
      for i := 0 to 3
        invariant cards == Cards(selectedRegion, selectedBilling)[..i]
      {
        var plan := plans[i];
        var pricingDisplay := SelectedPrice(plan.pricing, selectedBilling);
        if plan.bestValue {
          pricingDisplay := BestValueLabel + pricingDisplay;
        }
        cards := cards + [Card(plan.name, pricingDisplay, plan.features)];
      }
    }
  }
}
