/**
 * The recommendation engine of the agro advisory prototype: from a crop
 * name, four soil readings, an expected rainfall and a rule table it picks a
 * pH advisory, a rainfall tip and nutrient warnings, and estimates an N/P/K
 * amount by scaling each base amount up by at most 30% when the soil reading
 * is below its threshold.
 *
 * Messages and tips are modelled by which variant is chosen, not by their
 * wording; soil readings and thresholds are exact reals.
 */
module Advisor {
  import opened Numeric
  import opened Text
  import opened StringOrder

  /** One entry of the rule table's `crops` section. */
  datatype CropRule = CropRule(
    idealPhLow: real, idealPhHigh: real,
    baseN: real, baseP: real, baseK: real,
    notes: seq<string>)

  /** The rule table's shared `thresholds` section. */
  datatype Thresholds = Thresholds(
    lowRainfallMm: int, highRainfallMm: int,
    lowN: real, lowP: real, lowK: real)

  datatype Rules = Rules(crops: map<string, CropRule>, thresholds: Thresholds)

  datatype Message =
    | PhLow(crop: string, ph: real)
    | PhHigh(crop: string, ph: real)
    | PhInRange(crop: string, ph: real)
    | NitrogenLow
    | PhosphorusLow
    | PotassiumLow
  {
    predicate IsPhAdvisory() {
      PhLow? || PhHigh? || PhInRange?
    }

    /** Position of a nutrient warning in the N, P, K order. */
    function NutrientRank(): nat {
      if NitrogenLow? then 0 else if PhosphorusLow? then 1 else 2
    }
  }

  datatype Tip = Note(text: string) | RainfallLow | RainfallHigh | RainfallModerate

  /** The readings echoed in the result, soil values rounded to two decimals. */
  datatype EchoedInputs = EchoedInputs(soilPh: real, soilN: real, soilP: real, soilK: real, rainfallMm: int)

  datatype Recommendation = Recommendation(
    crop: string,
    inputs: EchoedInputs,
    npkEstimate: seq<int>,
    messages: seq<Message>,
    tips: seq<Tip>)

  /** The error raised for a crop missing from the table: the name as given and the known keys. */
  datatype UnknownCrop = UnknownCrop(crop: string, known: seq<string>)

  datatype Result<+T, +E> = Success(value: T) | Failure(error: E)

  /** Stands in for a zero threshold in the severity's denominator. */
  const MinDenominator: real := 0.000001

  /**
   * How far `soilValue` falls below `lowThr`, relative to the threshold
   * (or to `MinDenominator` when the threshold is smaller), clamped to [0, 1].
   */
  function Severity(soilValue: real, lowThr: real): (s: real)
    ensures 0.0 <= s <= 1.0
    ensures soilValue < lowThr ==> 0.0 < s
    ensures lowThr <= soilValue ==> s == 0.0
  {
    Clamp((lowThr - soilValue) / Max(lowThr, MinDenominator), 0.0, 1.0)
  }

  /** The base amount scaled up by 30% of the severity. */
  function Boosted(base: real, severity: real): real {
    base * (1.0 + 0.3 * severity)
  }

  /** The nested `adjust(base, soil_value, low_thr)`. */
  function Adjust(base: real, soilValue: real, lowThr: real): (r: int)
    ensures lowThr <= soilValue ==> r == Round(base)
  {
    if soilValue < lowThr then
      Round(Boosted(base, Severity(soilValue, lowThr)))
    else
      Round(base)
  }

  /** A lower reading is at least as severe. */
  lemma SeverityMonotone(v: real, w: real, lowThr: real)
    requires v <= w
    ensures Severity(w, lowThr) <= Severity(v, lowThr)
  {
    var d := Max(lowThr, MinDenominator);
    assert (lowThr - w) / d <= (lowThr - v) / d by {
      assert (lowThr - v) / d - (lowThr - w) / d == (w - v) / d;
    }
    ClampMonotone((lowThr - w) / d, (lowThr - v) / d, 0.0, 1.0);
  }

  /** For a non-negative base, a larger severity never gives a smaller rounded amount. */
  lemma BoostedRoundMonotone(base: real, s: real, s': real)
    requires 0.0 <= base && s <= s'
    ensures Round(Boosted(base, s)) <= Round(Boosted(base, s'))
  {
    ScaleMonotone(base, 1.0 + 0.3 * s, 1.0 + 0.3 * s');
    RoundMonotone(Boosted(base, s), Boosted(base, s'));
  }

  /** For a non-negative base the estimate lies between `round(base)` and `round(1.3 * base)`. */
  lemma AdjustBounds(base: real, soilValue: real, lowThr: real)
    requires 0.0 <= base
    ensures Round(base) <= Adjust(base, soilValue, lowThr) <= Round(base * 1.3)
  {
    var s := Severity(soilValue, lowThr);
    BoostedRoundMonotone(base, 0.0, s);
    BoostedRoundMonotone(base, s, 1.0);
    assert Boosted(base, 0.0) == base && Boosted(base, 1.0) == base * 1.3;
  }

  /** For a non-negative base, lowering the soil reading never lowers the estimate. */
  lemma AdjustMonotone(base: real, v: real, w: real, lowThr: real)
    requires 0.0 <= base && v <= w
    ensures Adjust(base, w, lowThr) <= Adjust(base, v, lowThr)
  {
    if lowThr <= w {
      AdjustBounds(base, v, lowThr);
    } else {
      SeverityMonotone(v, w, lowThr);
      BoostedRoundMonotone(base, Severity(w, lowThr), Severity(v, lowThr));
    }
  }

  /**
   * The base must not be negative for `AdjustMonotone`: with base -100 and
   * threshold 30, a reading of 0 gives -130 while a reading of 30 gives -100.
   */
  lemma NegativeBaseNotMonotone()
    ensures Adjust(-100.0, 0.0, 30.0) < Adjust(-100.0, 30.0, 30.0)
  {
    assert Severity(0.0, 30.0) == 1.0;
    assert Boosted(-100.0, 1.0) == -130.0;
  }

  /**
   * With a threshold below `MinDenominator`, even zero, a reading far enough
   * below zero still gets the full boost.
   */
  lemma FarBelowZeroFullBoost()
    ensures Adjust(100.0, -1.0, 0.0000001) == 130
    ensures Adjust(100.0, -1.0, 0.0) == 130
  {
    assert Severity(-1.0, 0.0000001) == 1.0 && Severity(-1.0, 0.0) == 1.0;
    assert Boosted(100.0, 1.0) == 130.0;
  }

  /**
   * Without a shortfall the estimate is the rounded base, which can lie below
   * the base itself: 120.4 gives 120.
   */
  lemma EstimateBelowBase()
    ensures Adjust(120.4, 40.0, 30.0) == 120
    ensures (Adjust(120.4, 40.0, 30.0) as real) < 120.4
  {
    assert (120.4).Floor == 120;
  }

  /**
   * A reading at or below zero is the most severe shortfall once the
   * threshold is at least `MinDenominator`: the full 30% boost applies.
   */
  lemma AdjustFullBoost(base: real, soilValue: real, lowThr: real)
    requires MinDenominator <= lowThr && soilValue <= 0.0
    ensures Severity(soilValue, lowThr) == 1.0
    ensures Adjust(base, soilValue, lowThr) == Round(base * 1.3)
  {
    assert 1.0 <= (lowThr - soilValue) / lowThr;
  }

  /**
   * Below `MinDenominator` a positive threshold no longer gives the full
   * boost at zero: with threshold 1e-7, a reading of 0 has severity 0.1.
   */
  lemma TinyThresholdPartialBoost()
    ensures Severity(0.0, 0.0000001) == 0.1
    ensures Adjust(100.0, 0.0, 0.0000001) == 103
  {
  }

  /** `m` is the pH advisory for `soilPh` under `rule`: below, above or inside `[idealPhLow, idealPhHigh]`. */
  predicate PhAdvisoryFits(m: Message, key: string, soilPh: real, rule: CropRule) {
    && m.IsPhAdvisory() && m.crop == key && m.ph == soilPh
    && (m.PhLow? <==> soilPh < rule.idealPhLow)
    && (m.PhHigh? <==> rule.idealPhLow <= soilPh && rule.idealPhHigh < soilPh)
    && (m.PhInRange? <==> rule.idealPhLow <= soilPh <= rule.idealPhHigh)
  }

  /** `tip` is the rainfall tip for `rainfallMm`: low, high or moderate. */
  predicate RainfallTipFits(tip: Tip, rainfallMm: int, t: Thresholds) {
    && (tip.RainfallLow? <==> rainfallMm < t.lowRainfallMm)
    && (tip.RainfallHigh? <==> t.lowRainfallMm <= rainfallMm && t.highRainfallMm < rainfallMm)
    && (tip.RainfallModerate? <==> t.lowRainfallMm <= rainfallMm <= t.highRainfallMm)
  }

  /** The one pH advisory `recommend` gives. */
  function PhAdvisory(key: string, soilPh: real, rule: CropRule): (m: Message)
    ensures PhAdvisoryFits(m, key, soilPh, rule)
  {
    if soilPh < rule.idealPhLow then PhLow(key, soilPh)
    else if soilPh > rule.idealPhHigh then PhHigh(key, soilPh)
    else PhInRange(key, soilPh)
  }

  /** The one rainfall tip `recommend` gives. */
  function RainfallTip(rainfallMm: int, t: Thresholds): (tip: Tip)
    ensures RainfallTipFits(tip, rainfallMm, t)
  {
    if rainfallMm < t.lowRainfallMm then RainfallLow
    else if rainfallMm > t.highRainfallMm then RainfallHigh
    else RainfallModerate
  }

  /** `PhAdvisoryFits` admits exactly one advisory: the one `PhAdvisory` gives. */
  lemma PhAdvisoryUnique(m: Message, key: string, soilPh: real, rule: CropRule)
    requires PhAdvisoryFits(m, key, soilPh, rule)
    ensures m == PhAdvisory(key, soilPh, rule)
  {
  }

  /** The ideal range is closed: a reading equal to its upper end is within range. */
  lemma PhAtUpperEndInRange(key: string, rule: CropRule)
    requires rule.idealPhLow <= rule.idealPhHigh
    ensures PhAdvisory(key, rule.idealPhHigh, rule) == PhInRange(key, rule.idealPhHigh)
  {
  }

  /** `RainfallTipFits` admits exactly one tip: the one `RainfallTip` gives. */
  lemma RainfallTipUnique(tip: Tip, rainfallMm: int, t: Thresholds)
    requires RainfallTipFits(tip, rainfallMm, t)
    ensures tip == RainfallTip(rainfallMm, t)
  {
  }

  /** Nutrient warnings only, in strict N, P, K order. */
  predicate InNutrientOrder(ws: seq<Message>) {
    && (forall i :: 0 <= i < |ws| ==> !ws[i].IsPhAdvisory())
    && (forall i, j :: 0 <= i < j < |ws| ==> ws[i].NutrientRank() < ws[j].NutrientRank())
  }

  /** How many of the three readings are below their thresholds. */
  function LowCount(n: real, p: real, k: real, t: Thresholds): (c: nat)
    ensures c <= 3
    ensures c == 0 <==> (t.lowN <= n && t.lowP <= p && t.lowK <= k)
    ensures c == 3 <==> (n < t.lowN && p < t.lowP && k < t.lowK)
  {
    (if n < t.lowN then 1 else 0) + (if p < t.lowP then 1 else 0) + (if k < t.lowK then 1 else 0)
  }

  /**
   * `ws` are the nutrient warnings for the readings: each present exactly when
   * its reading is below its threshold, in N, P, K order.
   */
  predicate WarningsFit(ws: seq<Message>, n: real, p: real, k: real, t: Thresholds) {
    && InNutrientOrder(ws)
    && (NitrogenLow in ws <==> n < t.lowN)
    && (PhosphorusLow in ws <==> p < t.lowP)
    && (PotassiumLow in ws <==> k < t.lowK)
  }

  /** The nitrogen, phosphorus and potassium warnings that are switched on, in that order. */
  function WarningList(lowN: bool, lowP: bool, lowK: bool): (ws: seq<Message>)
    ensures NitrogenLow in ws <==> lowN
    ensures PhosphorusLow in ws <==> lowP
    ensures PotassiumLow in ws <==> lowK
  {
    var wk := if lowK then [PotassiumLow] else [];
    var wpk := if lowP then [PhosphorusLow] + wk else wk;
    if lowN then [NitrogenLow] + wpk else wpk
  }

  /** The warnings `WarningList` switches on come in strict N, P, K order. */
  lemma WarningListInOrder(lowN: bool, lowP: bool, lowK: bool)
    ensures InNutrientOrder(WarningList(lowN, lowP, lowK))
  {
    var wk := if lowK then [PotassiumLow] else [];
    var wpk := if lowP then [PhosphorusLow] + wk else wk;
    if lowP { PrependInOrder(PhosphorusLow, wk); }
    if lowN { PrependInOrder(NitrogenLow, wpk); }
  }

  /** Putting a warning in front of higher-ranked ones keeps the N, P, K order. */
  lemma PrependInOrder(m: Message, ws: seq<Message>)
    requires !m.IsPhAdvisory() && InNutrientOrder(ws)
    requires forall i :: 0 <= i < |ws| ==> m.NutrientRank() < ws[i].NutrientRank()
    ensures InNutrientOrder([m] + ws)
  {
    var r := [m] + ws;
    forall i, j | 0 <= i < j < |r| ensures r[i].NutrientRank() < r[j].NutrientRank() {
      assert r[j] == ws[j - 1];
      if i > 0 { assert r[i] == ws[i - 1]; }
    }
  }

  /** How `WarningList` starts: with the first warning that is switched on. */
  lemma WarningListHead(lowP: bool, lowK: bool)
    ensures WarningList(true, lowP, lowK) == [NitrogenLow] + WarningList(false, lowP, lowK)
    ensures WarningList(false, true, lowK) == [PhosphorusLow] + WarningList(false, false, lowK)
    ensures WarningList(false, false, true) == [PotassiumLow]
  {
  }

  /** The warnings `recommend` appends after the pH advisory. */
  function NutrientWarnings(n: real, p: real, k: real, t: Thresholds): (ws: seq<Message>)
    ensures WarningsFit(ws, n, p, k, t)
    ensures |ws| == LowCount(n, p, k, t)
  {
    WarningListInOrder(n < t.lowN, p < t.lowP, k < t.lowK);
    WarningList(n < t.lowN, p < t.lowP, k < t.lowK)
  }

  /** Dropping the first warning keeps the order, and every later warning ranks above it. */
  lemma OrderedTail(ws: seq<Message>)
    requires InNutrientOrder(ws) && ws != []
    ensures InNutrientOrder(ws[1..])
    ensures forall m :: m in ws[1..] ==> ws[0].NutrientRank() < m.NutrientRank()
  {
    var tail := ws[1..];
    forall i, j | 0 <= i < j < |tail| ensures tail[i].NutrientRank() < tail[j].NutrientRank() {
      assert tail[i] == ws[i + 1] && tail[j] == ws[j + 1];
    }
    forall m | m in tail ensures ws[0].NutrientRank() < m.NutrientRank() {
      var i :| 0 <= i < |tail| && tail[i] == m;
      assert ws[i + 1] == m;
    }
  }

  /**
   * A nutrient's warning is given exactly when its estimate is boosted, that
   * is when its severity is positive.
   */
  lemma WarningIffSevere(n: real, p: real, k: real, t: Thresholds)
    ensures NitrogenLow in NutrientWarnings(n, p, k, t) <==> 0.0 < Severity(n, t.lowN)
    ensures PhosphorusLow in NutrientWarnings(n, p, k, t) <==> 0.0 < Severity(p, t.lowP)
    ensures PotassiumLow in NutrientWarnings(n, p, k, t) <==> 0.0 < Severity(k, t.lowK)
  {
  }

  /**
   * A list of nutrient warnings in strict N, P, K order is determined by
   * which warnings it holds.
   */
  lemma {:induction false} OrderedWarningsDetermined(ws: seq<Message>)
    requires InNutrientOrder(ws)
    ensures ws == WarningList(NitrogenLow in ws, PhosphorusLow in ws, PotassiumLow in ws)
    decreases |ws|
  {
    if ws != [] {
      var h, tail := ws[0], ws[1..];
      assert ws == [h] + tail;
      OrderedTail(ws);
      OrderedWarningsDetermined(tail);
      var bp, bk := PhosphorusLow in tail, PotassiumLow in tail;
      WarningListHead(bp, bk);
      if h == NitrogenLow {
        assert NitrogenLow !in tail;
        assert tail == WarningList(false, bp, bk);
      } else if h == PhosphorusLow {
        assert NitrogenLow !in tail && PhosphorusLow !in tail;
        assert tail == WarningList(false, false, bk);
        assert NitrogenLow !in ws && PhosphorusLow in ws && (PotassiumLow in ws <==> bk);
      } else {
        assert NitrogenLow !in tail && PhosphorusLow !in tail && PotassiumLow !in tail;
        assert tail == [] && ws == [PotassiumLow];
      }
    }
  }

  /** The warnings for a set of readings are determined by those readings. */
  lemma WarningsUnique(ws: seq<Message>, n: real, p: real, k: real, t: Thresholds)
    requires WarningsFit(ws, n, p, k, t)
    ensures ws == NutrientWarnings(n, p, k, t)
  {
    OrderedWarningsDetermined(ws);
  }

  /** The crop's notes, in order, as tips. */
  function NoteTips(notes: seq<string>): (tips: seq<Tip>)
    ensures |tips| == |notes|
    ensures forall i :: 0 <= i < |notes| ==> tips[i] == Note(notes[i])
  {
    seq(|notes|, i requires 0 <= i < |notes| => Note(notes[i]))
  }

  /**
   * The messages of a recommendation are exactly one fitting pH advisory
   * followed by the fitting nutrient warnings.
   */
  lemma MessagesCharacterised(ms: seq<Message>, key: string, soilPh: real, rule: CropRule,
                              n: real, p: real, k: real, t: Thresholds)
    ensures ms == [PhAdvisory(key, soilPh, rule)] + NutrientWarnings(n, p, k, t)
        <==> (ms != [] && PhAdvisoryFits(ms[0], key, soilPh, rule) && WarningsFit(ms[1..], n, p, k, t))
  {
    if ms != [] && PhAdvisoryFits(ms[0], key, soilPh, rule) && WarningsFit(ms[1..], n, p, k, t) {
      PhAdvisoryUnique(ms[0], key, soilPh, rule);
      WarningsUnique(ms[1..], n, p, k, t);
      assert ms == [ms[0]] + ms[1..];
    }
  }

  /**
   * The tips of a recommendation are exactly the crop's notes, in order,
   * followed by one fitting rainfall tip.
   */
  lemma TipsCharacterised(ts: seq<Tip>, notes: seq<string>, rainfallMm: int, t: Thresholds)
    ensures ts == NoteTips(notes) + [RainfallTip(rainfallMm, t)]
        <==> (&& |ts| == |notes| + 1
              && (forall i :: 0 <= i < |notes| ==> ts[i] == Note(notes[i]))
              && RainfallTipFits(ts[|notes|], rainfallMm, t))
  {
    if && |ts| == |notes| + 1
       && (forall i :: 0 <= i < |notes| ==> ts[i] == Note(notes[i]))
       && RainfallTipFits(ts[|notes|], rainfallMm, t)
    {
      RainfallTipUnique(ts[|notes|], rainfallMm, t);
      assert ts == ts[..|notes|] + [ts[|notes|]];
    }
  }

  /**
   * `recommend(crop, soil_ph, n, p, k, rainfall_mm, rules)`. An unknown crop
   * yields the error; otherwise the result holds the normalised key, the
   * echoed readings, the N/P/K estimate, the pH advisory followed by the
   * nutrient warnings, and the crop's notes followed by one rainfall tip.
   */
  method Recommend(crop: string, soilPh: real, n: real, p: real, k: real, rainfallMm: int, rules: Rules)
    returns (r: Result<Recommendation, UnknownCrop>)
    ensures r.Failure? <==> Normalize(crop) !in rules.crops
    ensures r.Failure? ==> r.error.crop == crop && ListsInOrder(r.error.known, rules.crops.Keys)
    ensures r.Success? ==>
      var key := Normalize(crop);
      var rule, t, out := rules.crops[key], rules.thresholds, r.value;
      && out.crop == key
      && out.inputs == EchoedInputs(RoundTo2(soilPh), RoundTo2(n), RoundTo2(p), RoundTo2(k), rainfallMm)
      && out.npkEstimate == [Adjust(rule.baseN, n, t.lowN), Adjust(rule.baseP, p, t.lowP), Adjust(rule.baseK, k, t.lowK)]
      && out.messages == [PhAdvisory(key, soilPh, rule)] + NutrientWarnings(n, p, k, t)
      && out.tips == NoteTips(rule.notes) + [RainfallTip(rainfallMm, t)]
  {
    var key := Normalize(crop);
    if key !in rules.crops {
      return Failure(UnknownCrop(crop, SortedKeys(rules.crops.Keys)));
    }
    var rule := rules.crops[key];
    var t := rules.thresholds;

    var messages: seq<Message> := [];
    var tips := NoteTips(rule.notes);

    // pH guidance
    messages := messages + [PhAdvisory(key, soilPh, rule)];

    // Rainfall guidance
    tips := tips + [RainfallTip(rainfallMm, t)];

    var recN := Adjust(rule.baseN, n, t.lowN);
    var recP := Adjust(rule.baseP, p, t.lowP);
    var recK := Adjust(rule.baseK, k, t.lowK);

    // Nutrient warnings
    ghost var ph := messages[0];
    ghost var wn: seq<Message> := if n < t.lowN then [NitrogenLow] else [];
    ghost var wp: seq<Message> := if p < t.lowP then [PhosphorusLow] else [];
    ghost var wk: seq<Message> := if k < t.lowK then [PotassiumLow] else [];
    if n < t.lowN {
      messages := messages + [NitrogenLow];
    }
    assert messages == [ph] + wn;
    if p < t.lowP {
      messages := messages + [PhosphorusLow];
    }
    assert messages == [ph] + (wn + wp);
    if k < t.lowK {
      messages := messages + [PotassiumLow];
    }
    assert messages == [ph] + (wn + (wp + wk));
    assert wn + (wp + wk) == NutrientWarnings(n, p, k, t);

    var inputs := EchoedInputs(RoundTo2(soilPh), RoundTo2(n), RoundTo2(p), RoundTo2(k), rainfallMm);
    return Success(Recommendation(key, inputs, [recN, recP, recK], messages, tips));
  }

  /** "maize" is already a normalised key. */
  lemma MaizeIsKey()
    ensures Normalize("maize") == "maize"
  {
    var s := "maize";
    assert IsNormalized(s) by {
      assert s[0] == 'm' && s[4] == 'e';
      forall i | 0 <= i < |s| ensures !IsUpper(s[i]) { }
    }
    NormalizeFixedPoint(s);
  }

  lemma LowerMaize()
    ensures Lower("Maize") == "maize"
  {
    var s := "Maize";
    assert s[0] == 'M' && s[1] == 'a' && s[2] == 'i' && s[3] == 'z' && s[4] == 'e';
  }

  /** A capitalised "Maize" names the "maize" rule. */
  lemma CapitalisedMaizeKey()
    ensures Normalize("Maize") == "maize"
  {
    MaizeIsKey();
    LowerMaize();
    NormalizeIgnoresCase("Maize");
  }

  /** A padded, capitalised "Maize" names the "maize" rule. */
  lemma PaddedMaizeKey()
    ensures Normalize(" " + "Maize" + "\t") == "maize"
  {
    CapitalisedMaizeKey();
    NormalizeIgnoresPadding(" ", "Maize", "\t");
  }

  /** Maize's nitrogen at 20 against a threshold of 30: severity 1/3, so 120 becomes 132. */
  lemma MaizeNitrogenBoost()
    ensures Adjust(120.0, 20.0, 30.0) == 132
  {
    assert Severity(20.0, 30.0) == 1.0 / 3.0;
    assert Boosted(120.0, 1.0 / 3.0) == 132.0;
  }

  /** An example maize entry. */
  const MaizeRule := CropRule(5.5, 7.0, 120.0, 60.0, 40.0, ["Plant at onset of rains."])

  /** Example thresholds. */
  const ExampleThresholds := Thresholds(400, 1200, 30.0, 20.0, 30.0)

  /** What the maize entry gives for pH 5.0, N/P/K 20/50/45 and 500 mm of rain. */
  lemma MaizeChoices()
    ensures PhAdvisory("maize", 5.0, MaizeRule) == PhLow("maize", 5.0)
    ensures NutrientWarnings(20.0, 50.0, 45.0, ExampleThresholds) == [NitrogenLow]
    ensures NoteTips(MaizeRule.notes) + [RainfallTip(500, ExampleThresholds)]
         == [Note("Plant at onset of rains."), RainfallModerate]
    ensures [Adjust(120.0, 20.0, 30.0), Adjust(60.0, 50.0, 20.0), Adjust(40.0, 45.0, 30.0)] == [132, 60, 40]
  {
    MaizeNitrogenBoost();
    assert Round(60.0) == 60 && Round(40.0) == 40;
  }

  /**
   * A maize table and readings: acidic soil and low nitrogen under moderate
   * rain. The crop name is matched regardless of case and surrounding spaces.
   */
  method MaizeExample() returns (r: Result<Recommendation, UnknownCrop>)
    ensures r.Success? && r.value.crop == "maize"
    ensures r.value.messages == [PhLow("maize", 5.0), NitrogenLow]
    ensures r.value.npkEstimate == [132, 60, 40]
    ensures r.value.tips == [Note("Plant at onset of rains."), RainfallModerate]
  {
    var rules := Rules(map["maize" := MaizeRule], ExampleThresholds);
    PaddedMaizeKey();
    MaizeChoices();
    r := Recommend(" " + "Maize" + "\t", 5.0, 20.0, 50.0, 45.0, 500, rules);
  }
}
