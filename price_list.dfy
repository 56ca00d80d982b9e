/**
 * The pricing page with a region switch: a static list of three plans per
 * region, each card showing a currency symbol before the plan's price, a
 * "/duration" suffix, and its features, whose camelCase keys are turned
 * into labels by putting a space before every upper-case letter.
 */
module PriceList {
  import opened Regions

  datatype PlanEntry = PlanEntry(name: string, price: string, duration: string, features: seq<(string, string)>)

  /** The five feature keys every plan lists, in display order. */
  const FeatureKeys: seq<string> := ["tracks", "songLength", "downloads", "stemDownload", "chordsDownload"]

  function Features(tracks: string, songLength: string, downloads: string, stemDownload: string, chordsDownload: string)
    : (r: seq<(string, string)>)
    ensures |r| == |FeatureKeys| && forall i :: 0 <= i < |r| ==> r[i].0 == FeatureKeys[i]
  {
    [ ("tracks", tracks), ("songLength", songLength), ("downloads", downloads),
      ("stemDownload", stemDownload), ("chordsDownload", chordsDownload) ]
  }

  /** The static table: each region's plans in display order. */
  function PricingPlans(region: Region): (r: seq<PlanEntry>)
    ensures |r| == 3
    ensures r[0].name == "Ultra Lite" && r[1].name == "Lite" && r[2].name == "Pro"
    ensures forall i :: 0 <= i < |r| ==> |r[i].features| == |FeatureKeys|
    ensures forall i, j :: 0 <= i < |r| && 0 <= j < |FeatureKeys| ==> r[i].features[j].0 == FeatureKeys[j]
  {
    match region
    case International =>
      [ PlanEntry("Ultra Lite", "1.99", "day",
                  Features("3 Tracks", "5 minutes", "3 Tracks", "50 minutes", "3 Tracks")),
        PlanEntry("Lite", "9.99", "yearly",
                  Features("100/month", "Any", "100/month", "500 minutes", "50/month")),
        PlanEntry("Pro", "14.99", "yearly",
                  Features("200/month", "Any", "200/month", "800 minutes", "100/month")) ]
    case India =>
      [ PlanEntry("Ultra Lite", "99", "day",
                  Features("3 Tracks", "5 minutes", "3 Tracks", "50 minutes", "3 Tracks")),
        PlanEntry("Lite", "190", "month",
                  Features("100/month", "Any", "100/month", "500 minutes", "20/month")),
        PlanEntry("Pro", "290", "month",
                  Features("200/month", "Any", "200/month", "800 minutes", "100/month")) ]
  }

  /** India's Lite allows fewer chord downloads than the international Lite. */
  lemma LiteChordsDownloads()
    ensures PricingPlans(India)[1].features[4] == ("chordsDownload", "20/month")
    ensures PricingPlans(International)[1].features[4] == ("chordsDownload", "50/month")
  {
  }

  // ---------------------------------------------------------------------------
  // The price line.

  const Rupee: string := "\U{20B9}"
  const Dollar: string := "$"

  /** The currency symbol shown before a price: the rupee sign for India, the dollar sign otherwise. */
  function CurrencySymbol(region: Region): (r: string)
    ensures |r| == 1
    ensures r == Rupee <==> region == India
    ensures r == Dollar <==> region != India
  {
    if region == India then Rupee else Dollar
  }

  /** The price as displayed: one currency character, then the plan's price unchanged. */
  function PriceText(region: Region, plan: PlanEntry): (r: string)
    ensures |r| == |plan.price| + 1
    ensures r[..1] == CurrencySymbol(region) && r[1..] == plan.price
  {
    CurrencySymbol(region) + plan.price
  }

  /** The duration suffix: a slash, then the plan's duration unchanged. */
  function DurationText(plan: PlanEntry): (r: string)
    ensures |r| == |plan.duration| + 1
    ensures r[0] == '/' && r[1..] == plan.duration
  {
    "/" + plan.duration
  }

  // ---------------------------------------------------------------------------
  // The currency symbol as the page's source text spells it.

  /**
   * The three characters that stand in the source where the rupee sign is
   * meant: the rupee sign's UTF-8 bytes read back as Windows-1252.
   */
  const RupeeAsWritten: string := "\U{00E2}\U{201A}\U{00B9}"

  function CurrencySymbolAsWritten(region: Region): (r: string)
    ensures region == India ==> r == RupeeAsWritten
    ensures region != India ==> r == CurrencySymbol(region)
  {
    if region == India then RupeeAsWritten else Dollar
  }

  function PriceTextAsWritten(region: Region, plan: PlanEntry): (r: string)
    ensures |r| == |CurrencySymbolAsWritten(region)| + |plan.price|
    ensures r[..|CurrencySymbolAsWritten(region)|] == CurrencySymbolAsWritten(region)
    ensures r[|CurrencySymbolAsWritten(region)|..] == plan.price
  {
    CurrencySymbolAsWritten(region) + plan.price
  }

  /** The UTF-8 encoding of a character from U+0800 to U+FFFF: three bytes. */
  function Utf8Bytes3(c: char): (r: seq<int>)
    requires 0x800 <= c as int < 0x10000
    ensures |r| == 3 && 0xE0 <= r[0] < 0xF0 && 0x80 <= r[1] < 0xC0 && 0x80 <= r[2] < 0xC0
  {
    var n := c as int;
    [0xE0 + n / 0x1000, 0x80 + (n / 0x40) % 0x40, 0x80 + n % 0x40]
  }

  /** Windows-1252: bytes 0x80..0x9F map to the code points of its table; the other bytes to themselves. */
  function Cp1252(b: int): (r: char)
    requires 0 <= b < 0x100
    ensures (b < 0x80 || 0xA0 <= b) ==> r as int == b
  {
    match b
    case 0x80 => '\U{20AC}' case 0x82 => '\U{201A}' case 0x83 => '\U{0192}' case 0x84 => '\U{201E}'
    case 0x85 => '\U{2026}' case 0x86 => '\U{2020}' case 0x87 => '\U{2021}' case 0x88 => '\U{02C6}'
    case 0x89 => '\U{2030}' case 0x8A => '\U{0160}' case 0x8B => '\U{2039}' case 0x8C => '\U{0152}'
    case 0x8E => '\U{017D}' case 0x91 => '\U{2018}' case 0x92 => '\U{2019}' case 0x93 => '\U{201C}'
    case 0x94 => '\U{201D}' case 0x95 => '\U{2022}' case 0x96 => '\U{2013}' case 0x97 => '\U{2014}'
    case 0x98 => '\U{02DC}' case 0x99 => '\U{2122}' case 0x9A => '\U{0161}' case 0x9B => '\U{203A}'
    case 0x9C => '\U{0153}' case 0x9E => '\U{017E}' case 0x9F => '\U{0178}'
    // the five bytes Windows-1252 leaves undefined pass through, as decoders commonly do
    case _ => b as char
  }

  /**
   * The symbol in the source is the rupee sign mis-decoded, so India's prices
   * render as, for example, "â‚¹99" where "₹99" is meant.
   */
  lemma RupeeMisencoded()
    ensures var bytes := Utf8Bytes3(Rupee[0]); [Cp1252(bytes[0]), Cp1252(bytes[1]), Cp1252(bytes[2])] == RupeeAsWritten
    ensures PriceTextAsWritten(India, PricingPlans(India)[0]) == "\U{00E2}\U{201A}\U{00B9}99"
    ensures PriceTextAsWritten(India, PricingPlans(India)[0]) != PriceText(India, PricingPlans(India)[0])
    ensures PriceText(India, PricingPlans(India)[0]) == "\U{20B9}99"
  {
    assert Utf8Bytes3(Rupee[0]) == [0xE2, 0x82, 0xB9];
  }

  // ---------------------------------------------------------------------------
  // Feature labels: a space before every upper-case letter (A to Z).

  predicate IsUpper(c: char) {
    'A' <= c <= 'Z'
  }

  function CountUpper(s: string): nat
    decreases |s|
  {
    if s == [] then 0 else (if IsUpper(s[0]) then 1 else 0) + CountUpper(s[1..])
  }

  /**
   * The label of a feature key. It never starts with an upper-case letter,
   * and it is one character longer than the key for every upper-case letter.
   */
  function Label(key: string): (r: string)
    ensures |r| == |key| + CountUpper(key)
    ensures r != [] ==> !IsUpper(r[0])
    decreases |key|
  {
    if key == [] then []
    else (if IsUpper(key[0]) then [' ', key[0]] else [key[0]]) + Label(key[1..])
  }

  /** Removes a space that stands right before an upper-case letter. */
  function Unspace(s: string): string
    decreases |s|
  {
    if s == [] then []
    else if |s| >= 2 && s[0] == ' ' && IsUpper(s[1]) then [s[1]] + Unspace(s[2..])
    else [s[0]] + Unspace(s[1..])
  }

  /** Labelling only inserts spaces: removing them gives back the key, every other character in order. */
  lemma {:induction false} UnspaceLabel(key: string)
    ensures Unspace(Label(key)) == key
    decreases |key|
  {
    if key != [] {
      var rest := Label(key[1..]);
      UnspaceLabel(key[1..]);
      if IsUpper(key[0]) {
        assert Label(key) == [' ', key[0]] + rest;
        assert ([' ', key[0]] + rest)[2..] == rest;
      } else {
        assert Label(key) == [key[0]] + rest;
        assert ([key[0]] + rest)[1..] == rest;
      }
    }
  }

  /** Every upper-case letter of a label has a space right before it. */
  lemma {:induction false} LabelSpacesUppers(key: string)
    ensures forall i :: 0 <= i < |Label(key)| && IsUpper(Label(key)[i]) ==> 1 <= i && Label(key)[i - 1] == ' '
    decreases |key|
  {
    if key != [] {
      LabelSpacesUppers(key[1..]);
      var head := if IsUpper(key[0]) then [' ', key[0]] else [key[0]];
      var rest := Label(key[1..]);
      assert Label(key) == head + rest;
      forall i | 0 <= i < |Label(key)| && IsUpper(Label(key)[i])
        ensures 1 <= i && Label(key)[i - 1] == ' '
      {
        if i >= |head| {
          assert Label(key)[i] == rest[i - |head|];
          if i - |head| == 0 {
            assert false;
          }
        }
      }
    }
  }

  /** Labels of a concatenation are the concatenated labels. */
  lemma {:induction false} LabelAppend(a: string, b: string)
    ensures Label(a + b) == Label(a) + Label(b)
    decreases |a|
  {
    if a == [] {
      assert a + b == b;
    } else {
      var head := if IsUpper(a[0]) then [' ', a[0]] else [a[0]];
      assert (a + b)[0] == a[0];
      assert (a + b)[1..] == a[1..] + b;
      calc {
        Label(a + b);
        head + Label(a[1..] + b);
        { LabelAppend(a[1..], b); }
        head + (Label(a[1..]) + Label(b));
        (head + Label(a[1..])) + Label(b);
        Label(a) + Label(b);
      }
    }
  }

  /** A key without upper-case letters is its own label. */
  lemma {:induction false} LabelWithoutUppers(key: string)
    requires forall i :: 0 <= i < |key| ==> !IsUpper(key[i])
    ensures Label(key) == key
    decreases |key|
  {
    if key != [] {
      LabelWithoutUppers(key[1..]);
      assert [key[0]] + key[1..] == key;
    }
  }

  /** A two-word camelCase key gets exactly one space, before its second word. */
  lemma CamelLabel(first: string, rest: string, capital: char)
    requires IsUpper(capital)
    requires forall i :: 0 <= i < |first| ==> !IsUpper(first[i])
    requires forall i :: 0 <= i < |rest| ==> !IsUpper(rest[i])
    ensures Label(first + [capital] + rest) == first + [' ', capital] + rest
  {
    var single := Label([capital]);
    assert single == [' ', capital] by {
      assert [capital][1..] == [];
    }
    calc {
      Label(first + [capital] + rest);
      { LabelAppend(first + [capital], rest); }
      Label(first + [capital]) + Label(rest);
      { LabelAppend(first, [capital]); }
      Label(first) + single + Label(rest);
      { LabelWithoutUppers(first); LabelWithoutUppers(rest); }
      first + [' ', capital] + rest;
    }
  }

  /** Keys without capitals keep their text. */
  lemma LowerCaseKeyLabels()
    ensures Label("tracks") == "tracks" && Label("downloads") == "downloads"
  {
    LabelWithoutUppers("tracks");
    LabelWithoutUppers("downloads");
  }

  lemma SongLengthLabel()
    ensures Label("songLength") == "song Length"
  {
    assert "song" + ['L'] + "ength" == "songLength";
    CamelLabel("song", "ength", 'L');
    assert "song" + [' ', 'L'] + "ength" == "song Length";
  }

  lemma StemDownloadLabel()
    ensures Label("stemDownload") == "stem Download"
  {
    assert "stem" + ['D'] + "ownload" == "stemDownload";
    CamelLabel("stem", "ownload", 'D');
    assert "stem" + [' ', 'D'] + "ownload" == "stem Download";
  }

  lemma ChordsDownloadLabel()
    ensures Label("chordsDownload") == "chords Download"
  {
    assert "chords" + ['D'] + "ownload" == "chordsDownload";
    CamelLabel("chords", "ownload", 'D');
    assert "chords" + [' ', 'D'] + "ownload" == "chords Download";
  }

  /** The three camelCase keys of the page get one space each. */
  lemma CamelCaseKeyLabels()
    ensures Label("songLength") == "song Length"
    ensures Label("stemDownload") == "stem Download"
    ensures Label("chordsDownload") == "chords Download"
  {
    SongLengthLabel();
    StemDownloadLabel();
    ChordsDownloadLabel();
  }

  /** What one card shows. */
  datatype Card = Card(name: string, price: string, duration: string, labels: seq<(string, string)>)

  /** The cards for the selected region, in the table's order. */
  function Cards(region: Region): (r: seq<Card>)
    ensures |r| == 3
    ensures forall i :: 0 <= i < 3 ==> r[i].name == PricingPlans(region)[i].name
    ensures forall i :: 0 <= i < 3 ==> r[i].price == PriceText(region, PricingPlans(region)[i])
    ensures forall i :: 0 <= i < 3 ==> r[i].duration == DurationText(PricingPlans(region)[i])
    ensures forall i :: 0 <= i < 3 ==> |r[i].labels| == |PricingPlans(region)[i].features|
    ensures forall i, j :: 0 <= i < 3 && 0 <= j < |PricingPlans(region)[i].features| ==>
      r[i].labels[j] == (Label(PricingPlans(region)[i].features[j].0), PricingPlans(region)[i].features[j].1)
  {
    var plans := PricingPlans(region);
    seq(3, i requires 0 <= i < 3 =>
      Card(plans[i].name, PriceText(region, plans[i]), DurationText(plans[i]),
           seq(|plans[i].features|, j requires 0 <= j < |plans[i].features| =>
             (Label(plans[i].features[j].0), plans[i].features[j].1))))
  }

  /** The page's region switch. */
  class PriceListPage {
    var selectedRegion: Region

    constructor ()
      ensures selectedRegion == International
    {
      selectedRegion := International;
    }

    /** The International / India buttons. */
    method SelectRegion(region: Region)
      modifies this
      ensures selectedRegion == region
    {
      selectedRegion := region;
    }
  }
}
