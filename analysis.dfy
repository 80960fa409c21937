/** The analyzer: composes the element scores, the Ten Gods map, the special
    patterns, the monthly and hour commentaries, the overall summary and the
    recommendations into one analysis result. */
module Analysis {
  import opened Wrappers
  import opened Models
  import opened Reference
  import opened Calculator

  // ---------------------------------------------------------------------
  // Commentary tables
  // ---------------------------------------------------------------------

  /** A monthly commentary entry. */
  datatype SeasonEntry = SeasonEntry(title: string, analysis: string)

  /** An hour commentary entry with its optional per-pair texts. */
  datatype TimeEntry = TimeEntry(analysis: string, specificCombinations: map<string, string>)

  /** The analyzer: the reference tables the calculator reads, the monthly
      commentary (day stem, then season) and the hour commentary. A missing
      commentary file leaves its table empty. */
  datatype BaZiAnalyzer = BaZiAnalyzer(
    tables: Tables,
    monthlyData: map<string, map<string, SeasonEntry>>,
    timeData: map<string, TimeEntry>)

  // ---------------------------------------------------------------------
  // Ten Gods map
  // ---------------------------------------------------------------------

  /** The name is a stem the relationship lookup accepts. */
  predicate Known(t: Tables, name: string) {
    name in TianganList && name in t.tiangan
  }

  /** The pillar's stem and all its branch's hidden stems are known. */
  predicate PillarKnown(t: Tables, p: BaZiPillar) {
    && Known(t, p.ganZhi.gan.name)
    && forall j | 0 <= j < |p.ganZhi.zhi.hiddenStems| :: Known(t, p.ganZhi.zhi.hiddenStems[j].name)
  }

  predicate PillarsKnown(t: Tables, ps: seq<BaZiPillar>) {
    forall i | 0 <= i < |ps| :: PillarKnown(t, ps[i])
  }

  /** The key of a pillar's stem, e.g. "年干_甲". */
  function StemKey(kind: PillarKind, name: string): string {
    kind.Label() + "干_" + name
  }

  /** The key of a hidden stem of a pillar's branch, e.g. "年支藏干_甲". */
  function HiddenKey(kind: PillarKind, name: string): string {
    kind.Label() + "支藏干_" + name
  }

  /** The stem name a key ends with. */
  function KeyName(k: string): string {
    if |k| >= 3 && k[1] == '干' then k[3..]
    else if |k| >= 5 then k[5..]
    else ""
  }

  /** The Ten God of a known stem relative to a known day stem. */
  function God(t: Tables, dayGan: string, name: string): string
    requires Known(t, dayGan) && Known(t, name)
  {
    GetTenGodsRelationship(t, dayGan, name).value
  }

  /** The entries the hidden stems `hs` of a pillar of role `kind` write
      over `m`, in order, skipping a hidden stem equal to the day stem. */
  function HiddenGods(t: Tables, dayGan: string, kind: PillarKind, hs: seq<HiddenStem>, m: map<string, string>): map<string, string>
    requires Known(t, dayGan)
    requires forall j | 0 <= j < |hs| :: Known(t, hs[j].name)
  {
    if hs == [] then m
    else
      var m1 := HiddenGods(t, dayGan, kind, hs[..|hs| - 1], m);
      var h := hs[|hs| - 1].name;
      if h != dayGan then m1[HiddenKey(kind, h) := God(t, dayGan, h)] else m1
  }

  /** The entries pillar `p` writes over `m`: none for the day pillar. */
  function PillarGods(t: Tables, dayGan: string, p: BaZiPillar, m: map<string, string>): map<string, string>
    requires Known(t, dayGan) && PillarKnown(t, p)
  {
    if p.pillarType != Day then
      HiddenGods(t, dayGan, p.pillarType, p.ganZhi.zhi.hiddenStems,
        m[StemKey(p.pillarType, p.ganZhi.gan.name) := God(t, dayGan, p.ganZhi.gan.name)])
    else m
  }

  /** The Ten Gods map the pillars `ps`, taken in order, produce. */
  function TenGodsOf(t: Tables, dayGan: string, ps: seq<BaZiPillar>): map<string, string>
    requires Known(t, dayGan) && PillarsKnown(t, ps)
  {
    if ps == [] then map[]
    else PillarGods(t, dayGan, ps[|ps| - 1], TenGodsOf(t, dayGan, ps[..|ps| - 1]))
  }

  /** Fills the Ten Gods map: for every pillar but the day pillar, its stem
      and each hidden stem of its branch other than the day stem, keyed by
      role and name. */
  method AnalyzeTenGods(t: Tables, chart: BaZiChart) returns (analysis: map<string, string>)
    requires Known(t, chart.dayPillar.ganZhi.gan.name) && PillarsKnown(t, chart.AllPillars())
    ensures analysis == TenGodsOf(t, chart.dayPillar.ganZhi.gan.name, chart.AllPillars())
  {
    var dayGan := chart.dayPillar.ganZhi.gan.name;
    analysis := map[];
    var ps := chart.AllPillars();
    for i := 0 to |ps|
      invariant analysis == TenGodsOf(t, dayGan, ps[..i])
    {
      var pillar := ps[i];
      ghost var before := analysis;
      if pillar.pillarType != Day {
        var ganName := pillar.ganZhi.gan.name;
        var tenGod := GetTenGodsRelationship(t, dayGan, ganName);
        analysis := analysis[StemKey(pillar.pillarType, ganName) := tenGod.value];
        ghost var start := analysis;
        var hs := pillar.ganZhi.zhi.hiddenStems;
        for k := 0 to |hs|
          invariant analysis == HiddenGods(t, dayGan, pillar.pillarType, hs[..k], start)
        {
          assert hs[..k + 1][..k] == hs[..k];
          if hs[k].name != dayGan {
            var hiddenGod := GetTenGodsRelationship(t, dayGan, hs[k].name);
            analysis := analysis[HiddenKey(pillar.pillarType, hs[k].name) := hiddenGod.value];
          }
        }
        assert hs[..|hs|] == hs;
      }
      assert analysis == PillarGods(t, dayGan, pillar, before);
      assert ps[..i + 1][..i] == ps[..i];
    }
    assert ps[..|ps|] == ps;
  }

  /** A key decodes to the name it was built from, and a stem key is never
      a hidden-stem key. */
  lemma KeysDecode(kind: PillarKind, name: string)
    ensures KeyName(StemKey(kind, name)) == name
    ensures KeyName(HiddenKey(kind, name)) == name
    ensures StemKey(kind, name)[0] == kind.Label()[0] && StemKey(kind, name)[1] == '干'
    ensures HiddenKey(kind, name)[0] == kind.Label()[0] && HiddenKey(kind, name)[1] == '支'
  {
  }

  /** What every entry of the map satisfies: it comes from a pillar other
      than the day pillar, its value is the Ten God of the stem its key
      names, and a hidden-stem key never names the day stem. */
  predicate GoodEntry(t: Tables, dayGan: string, k: string, v: string)
    requires Known(t, dayGan)
  {
    && |k| >= 2 && k[0] != '日'
    && Known(t, KeyName(k))
    && v == God(t, dayGan, KeyName(k))
    && (k[1] != '干' ==> KeyName(k) != dayGan)
  }

  lemma {:induction false} HiddenGodsGood(t: Tables, dayGan: string, kind: PillarKind, hs: seq<HiddenStem>, m: map<string, string>)
    requires Known(t, dayGan) && kind != Day
    requires forall j | 0 <= j < |hs| :: Known(t, hs[j].name)
    requires forall k | k in m :: GoodEntry(t, dayGan, k, m[k])
    ensures forall k | k in HiddenGods(t, dayGan, kind, hs, m) :: GoodEntry(t, dayGan, k, HiddenGods(t, dayGan, kind, hs, m)[k])
  {
    if hs != [] {
      HiddenGodsGood(t, dayGan, kind, hs[..|hs| - 1], m);
      KeysDecode(kind, hs[|hs| - 1].name);
    }
  }

  lemma {:induction false} TenGodsGood(t: Tables, dayGan: string, ps: seq<BaZiPillar>)
    requires Known(t, dayGan) && PillarsKnown(t, ps)
    ensures forall k | k in TenGodsOf(t, dayGan, ps) :: GoodEntry(t, dayGan, k, TenGodsOf(t, dayGan, ps)[k])
  {
    if ps != [] {
      var init := ps[..|ps| - 1];
      var p := ps[|ps| - 1];
      TenGodsGood(t, dayGan, init);
      if p.pillarType != Day {
        var m := TenGodsOf(t, dayGan, init);
        KeysDecode(p.pillarType, p.ganZhi.gan.name);
        var m1 := m[StemKey(p.pillarType, p.ganZhi.gan.name) := God(t, dayGan, p.ganZhi.gan.name)];
        HiddenGodsGood(t, dayGan, p.pillarType, p.ganZhi.zhi.hiddenStems, m1);
      }
    }
  }

  /** Soundness of the Ten Gods map: no entry comes from the day pillar, no
      hidden-stem entry names the day stem, and every value is the Ten God
      of the stem named at the end of its key. */
  lemma TenGodsSound(t: Tables, dayGan: string, ps: seq<BaZiPillar>)
    requires Known(t, dayGan) && PillarsKnown(t, ps)
    ensures forall k | k in TenGodsOf(t, dayGan, ps) :: |k| > 0 && k[0] != Day.Label()[0]
    ensures forall k | k in TenGodsOf(t, dayGan, ps) ::
      Known(t, KeyName(k)) && TenGodsOf(t, dayGan, ps)[k] == God(t, dayGan, KeyName(k))
    ensures forall kind: PillarKind :: HiddenKey(kind, dayGan) !in TenGodsOf(t, dayGan, ps)
  {
    TenGodsGood(t, dayGan, ps);
    forall kind: PillarKind ensures HiddenKey(kind, dayGan) !in TenGodsOf(t, dayGan, ps) {
      KeysDecode(kind, dayGan);
    }
  }

  lemma {:induction false} HiddenGodsGrow(t: Tables, dayGan: string, kind: PillarKind, hs: seq<HiddenStem>, m: map<string, string>)
    requires Known(t, dayGan)
    requires forall j | 0 <= j < |hs| :: Known(t, hs[j].name)
    ensures m.Keys <= HiddenGods(t, dayGan, kind, hs, m).Keys
    ensures forall j | 0 <= j < |hs| && hs[j].name != dayGan :: HiddenKey(kind, hs[j].name) in HiddenGods(t, dayGan, kind, hs, m)
  {
    if hs != [] {
      var init := hs[..|hs| - 1];
      HiddenGodsGrow(t, dayGan, kind, init, m);
      assert forall j | 0 <= j < |init| :: init[j] == hs[j];
    }
  }

  lemma {:induction false} TenGodsGrow(t: Tables, dayGan: string, ps: seq<BaZiPillar>, i: nat)
    requires Known(t, dayGan) && PillarsKnown(t, ps)
    requires i < |ps| && ps[i].pillarType != Day
    ensures StemKey(ps[i].pillarType, ps[i].ganZhi.gan.name) in TenGodsOf(t, dayGan, ps)
    ensures forall j | 0 <= j < |ps[i].ganZhi.zhi.hiddenStems| && ps[i].ganZhi.zhi.hiddenStems[j].name != dayGan ::
      HiddenKey(ps[i].pillarType, ps[i].ganZhi.zhi.hiddenStems[j].name) in TenGodsOf(t, dayGan, ps)
  {
    var init := ps[..|ps| - 1];
    var p := ps[|ps| - 1];
    var m := TenGodsOf(t, dayGan, init);
    if p.pillarType != Day {
      var m1 := m[StemKey(p.pillarType, p.ganZhi.gan.name) := God(t, dayGan, p.ganZhi.gan.name)];
      HiddenGodsGrow(t, dayGan, p.pillarType, p.ganZhi.zhi.hiddenStems, m1);
    }
    if i < |ps| - 1 {
      assert init[i] == ps[i];
      TenGodsGrow(t, dayGan, init, i);
    }
  }

  /** Completeness of the Ten Gods map: every pillar other than the day
      pillar has an entry for its stem and one for each hidden stem of its
      branch that differs from the day stem. */
  lemma TenGodsComplete(t: Tables, dayGan: string, ps: seq<BaZiPillar>)
    requires Known(t, dayGan) && PillarsKnown(t, ps)
    ensures forall i | 0 <= i < |ps| && ps[i].pillarType != Day ::
      StemKey(ps[i].pillarType, ps[i].ganZhi.gan.name) in TenGodsOf(t, dayGan, ps)
    ensures forall i, j | 0 <= i < |ps| && ps[i].pillarType != Day
        && 0 <= j < |ps[i].ganZhi.zhi.hiddenStems| && ps[i].ganZhi.zhi.hiddenStems[j].name != dayGan ::
      HiddenKey(ps[i].pillarType, ps[i].ganZhi.zhi.hiddenStems[j].name) in TenGodsOf(t, dayGan, ps)
  {
    forall i | 0 <= i < |ps| && ps[i].pillarType != Day
      ensures StemKey(ps[i].pillarType, ps[i].ganZhi.gan.name) in TenGodsOf(t, dayGan, ps)
      ensures forall j | 0 <= j < |ps[i].ganZhi.zhi.hiddenStems| && ps[i].ganZhi.zhi.hiddenStems[j].name != dayGan ::
        HiddenKey(ps[i].pillarType, ps[i].ganZhi.zhi.hiddenStems[j].name) in TenGodsOf(t, dayGan, ps)
    {
      TenGodsGrow(t, dayGan, ps, i);
    }
  }

  /** A chart built from valid tables meets what the Ten Gods analysis needs. */
  lemma ValidChartKnown(t: Tables, chart: BaZiChart)
    requires t.Valid() && t.Holds(chart)
    ensures Known(t, chart.dayPillar.ganZhi.gan.name)
    ensures PillarsKnown(t, chart.AllPillars())
    ensures PillarsHiddenKnown(t, chart.AllPillars())
  {
    var ps := chart.AllPillars();
    forall i | 0 <= i < |ps| ensures PillarKnown(t, ps[i]) && HiddenNamesKnown(t, ps[i].ganZhi.zhi.hiddenStems) {
      assert t.Resolves(ps[i].ganZhi);
      assert t.HiddenStemsWellFormed(t.dizhi[ps[i].ganZhi.zhi.name].hiddenStems);
    }
  }

  // ---------------------------------------------------------------------
  // Yang/yin characters, seasons and special patterns
  // ---------------------------------------------------------------------

  /** The characters the analyzer treats as yang. */
  const YangChars: seq<string> := ["甲", "丙", "戊", "庚", "壬", "子", "寅", "辰", "午", "申", "戌"]

  predicate IsYang(c: string) {
    c in YangChars
  }

  predicate IsYin(c: string) {
    !IsYang(c)
  }

  /** The yang characters are exactly the stems and branches at even
      positions of the fixed orders; anything else is yin. */
  lemma YangIsEvenPosition()
    ensures forall i | 0 <= i < |TianganList| :: IsYang(TianganList[i]) <==> i % 2 == 0
    ensures forall j | 0 <= j < |DizhiList| :: IsYang(DizhiList[j]) <==> j % 2 == 0
    ensures forall c :: IsYang(c) ==> c in TianganList || c in DizhiList
    ensures forall c :: IsYin(c) <==> !IsYang(c)
  {
  }

  /** The four seasons, from spring. */
  const Seasons: seq<string> := ["春月", "夏月", "秋月", "冬月"]

  /** The season of a month branch, or "未知月份". */
  function SeasonByMonth(monthZhi: string): string {
    if monthZhi == "寅" || monthZhi == "卯" || monthZhi == "辰" then "春月"
    else if monthZhi == "巳" || monthZhi == "午" || monthZhi == "未" then "夏月"
    else if monthZhi == "申" || monthZhi == "酉" || monthZhi == "戌" then "秋月"
    else if monthZhi == "亥" || monthZhi == "子" || monthZhi == "丑" then "冬月"
    else "未知月份"
  }

  /** Each season takes three consecutive branches starting from 寅, and a
      name that is not a branch has no season. */
  lemma SeasonOfBranchPosition()
    ensures forall j | 0 <= j < |DizhiList| :: SeasonByMonth(DizhiList[j]) == Seasons[((j + 10) % 12) / 3]
    ensures forall s :: s !in DizhiList ==> SeasonByMonth(s) == "未知月份"
  {
  }

  /** The placeholder checks of the source, which always hold. */
  predicate CheckAllYangOrYin(chart: BaZiChart) {
    true
  }

  predicate CheckWoodFirePattern(chart: BaZiChart) {
    true
  }

  predicate CheckMetalWaterPattern(chart: BaZiChart) {
    true
  }

  /** All four stems and all four branches are yang. */
  predicate AllYang(chart: BaZiChart) {
    && (forall i | 0 <= i < 4 :: IsYang(chart.AllGans()[i]))
    && (forall i | 0 <= i < 4 :: IsYang(chart.AllZhis()[i]))
  }

  /** All four stems and all four branches are yin. */
  predicate AllYin(chart: BaZiChart) {
    && (forall i | 0 <= i < 4 :: IsYin(chart.AllGans()[i]))
    && (forall i | 0 <= i < 4 :: IsYin(chart.AllZhis()[i]))
  }

  /** Lists the special patterns of the chart. */
  method AnalyzeSpecialPatterns(chart: BaZiChart) returns (patterns: seq<string>)
    ensures "四柱全阳" in patterns <==> AllYang(chart)
    ensures "四柱全阴" in patterns <==> AllYin(chart)
    ensures !("四柱全阳" in patterns && "四柱全阴" in patterns)
    ensures 2 <= |patterns| <= 3
    ensures patterns[|patterns| - 2..] == ["木火通明", "金水相涵"]
    ensures |patterns| == 3 <==> AllYang(chart) || AllYin(chart)
  {
    patterns := [];
    assert AllYin(chart) ==> !IsYang(chart.AllGans()[0]);
    if CheckAllYangOrYin(chart) {
      if AllYang(chart) {
        patterns := patterns + ["四柱全阳"];
      } else if AllYin(chart) {
        patterns := patterns + ["四柱全阴"];
      }
    }
    ghost var head := patterns;
    assert head == if AllYang(chart) then ["四柱全阳"] else if AllYin(chart) then ["四柱全阴"] else [];
    if CheckWoodFirePattern(chart) {
      patterns := patterns + ["木火通明"];
    }
    if CheckMetalWaterPattern(chart) {
      patterns := patterns + ["金水相涵"];
    }
    assert patterns == head + ["木火通明", "金水相涵"];
  }

  // ---------------------------------------------------------------------
  // Monthly and hour commentary
  // ---------------------------------------------------------------------

  /** The monthly commentary for the day stem in the season of the month
      branch, or the generic sentence when the table has none. */
  function AnalyzeMonthly(a: BaZiAnalyzer, chart: BaZiChart): (r: Option<string>)
    ensures r.Some?
    ensures var dayGan := chart.dayPillar.ganZhi.gan.name;
      var season := SeasonByMonth(chart.monthPillar.ganZhi.zhi.name);
      if dayGan in a.monthlyData && season in a.monthlyData[dayGan] then
        r.value == a.monthlyData[dayGan][season].title + ": " + a.monthlyData[dayGan][season].analysis
      else
        r.value == dayGan + "日生于" + season + "月，需要根据具体情况分析。"
  {
    var dayGan := chart.dayPillar.ganZhi.gan.name;
    var monthZhi := chart.monthPillar.ganZhi.zhi.name;
    var season := SeasonByMonth(monthZhi);
    var ganData := if dayGan in a.monthlyData then a.monthlyData[dayGan] else map[];
    if season in ganData then
      Some(ganData[season].title + ": " + ganData[season].analysis)
    else
      Some(dayGan + "日生于" + season + "月，需要根据具体情况分析。")
  }

  /** The hour commentary for the day stem and the hour pair; the text for
      the exact day/hour pair is appended only when the entry has a
      non-empty one. */
  function AnalyzeTime(a: BaZiAnalyzer, chart: BaZiChart): (r: Option<string>)
    ensures r.Some?
    ensures var timeKey := chart.dayPillar.ganZhi.gan.name + "日" + chart.hourPillar.ganZhi.name;
      var comboKey := chart.dayPillar.ganZhi.name + "日" + chart.hourPillar.ganZhi.name + "时";
      if timeKey in a.timeData then
        var entry := a.timeData[timeKey];
        if comboKey in entry.specificCombinations && entry.specificCombinations[comboKey] != "" then
          r.value == entry.analysis + " 具体组合：" + entry.specificCombinations[comboKey]
        else
          r.value == entry.analysis
      else
        r.value == chart.dayPillar.ganZhi.gan.name + "日" + chart.hourPillar.ganZhi.name + "时，需要根据具体情况分析。"
  {
    var dayCombo := chart.dayPillar.ganZhi.name;
    var hourCombo := chart.hourPillar.ganZhi.name;
    var timeKey := chart.dayPillar.ganZhi.gan.name + "日" + hourCombo;
    if timeKey in a.timeData then
      var specific := a.timeData[timeKey];
      var comboKey := dayCombo + "日" + hourCombo + "时";
      var combo := if comboKey in specific.specificCombinations then specific.specificCombinations[comboKey] else "";
      if combo != "" then Some(specific.analysis + " 具体组合：" + combo) else Some(specific.analysis)
    else
      Some(chart.dayPillar.ganZhi.gan.name + "日" + hourCombo + "时，需要根据具体情况分析。")
  }

  // ---------------------------------------------------------------------
  // Strongest and weakest element, balance, day master
  // ---------------------------------------------------------------------

  /** The element characters in declaration order. */
  const ElementNames: seq<string> := ["木", "火", "土", "金", "水"]

  /** The first position holding a largest value, as a left-to-right scan
      that replaces its pick only on a strictly larger value finds it. */
  function FirstMax(v: seq<int>): (i: nat)
    requires |v| > 0
    ensures i < |v|
    ensures forall j | 0 <= j < |v| :: v[j] <= v[i]
    ensures forall j | 0 <= j < i :: v[j] < v[i]
  {
    if |v| == 1 then 0
    else
      var k := FirstMax(v[..|v| - 1]);
      if v[|v| - 1] > v[k] then |v| - 1 else k
  }

  /** The first position holding a smallest value. */
  function FirstMin(v: seq<int>): (i: nat)
    requires |v| > 0
    ensures i < |v|
    ensures forall j | 0 <= j < |v| :: v[i] <= v[j]
    ensures forall j | 0 <= j < i :: v[i] < v[j]
  {
    if |v| == 1 then 0
    else
      var k := FirstMin(v[..|v| - 1]);
      if v[|v| - 1] < v[k] then |v| - 1 else k
  }

  /** `d / total > num / den`, exactly, for a non-zero total. */
  predicate ShareAbove(d: int, total: int, num: int, den: int)
    requires total != 0
  {
    if total > 0 then d * den > num * total else d * den < num * total
  }

  /** `d / total < num / den`, exactly, for a non-zero total. */
  predicate ShareBelow(d: int, total: int, num: int, den: int)
    requires total != 0
  {
    if total > 0 then d * den < num * total else d * den > num * total
  }

  /** The integer comparisons are the comparisons of the exact shares. */
  lemma ShareComparisonsAreExact(d: int, total: int, num: int, den: int)
    requires total != 0 && den > 0
    ensures ShareAbove(d, total, num, den) <==> (d as real) / (total as real) > (num as real) / (den as real)
    ensures ShareBelow(d, total, num, den) <==> (d as real) / (total as real) < (num as real) / (den as real)
  {
    var q := (d as real) / (total as real);
    var c := (num as real) / (den as real);
    assert q * (total as real) == d as real;
    assert c * (den as real) == num as real;
    if total > 0 {
      assert q > c <==> q * (total as real) > c * (total as real);
      assert q < c <==> q * (total as real) < c * (total as real);
    } else {
      assert q > c <==> q * (total as real) < c * (total as real);
      assert q < c <==> q * (total as real) > c * (total as real);
    }
    assert (d * den) as real == (d as real) * (den as real);
    assert (num * total) as real == (num as real) * (total as real);
  }

  const StrongDayMaster := "日主偏强，适合泄耗。"
  const WeakDayMaster := "日主偏弱，需要扶助。"
  const ModerateDayMaster := "日主强弱适中。"
  const Balanced := "五行相对平衡，命局较为稳定。"
  const Imbalanced := "五行失衡，需要调理补充。"

  /** The sentence naming the strongest and the weakest element. */
  function StrengthLine(strongest: string, weakest: string): string {
    "五行以" + strongest + "最强，" + weakest + "最弱。"
  }

  /** The balance sentence: balanced when the largest share exceeds the
      smallest by less than 0.3. */
  function BalanceLine(spread: int, total: int): (r: string)
    requires total > 0
    ensures r == Balanced <==> ShareBelow(spread, total, 3, 10)
    ensures r == Balanced || r == Imbalanced
  {
    if 10 * spread < 3 * total then Balanced else Imbalanced
  }

  /** The day-master sentence: strong above a 0.3 share, weak below 0.15,
      moderate otherwise, both bounds included in moderate. */
  function DayMasterLine(d: int, total: int): (r: string)
    requires total != 0
    ensures r == StrongDayMaster <==> ShareAbove(d, total, 3, 10)
    ensures r == WeakDayMaster <==> !ShareAbove(d, total, 3, 10) && ShareBelow(d, total, 15, 100)
    ensures r == ModerateDayMaster <==> !ShareAbove(d, total, 3, 10) && !ShareBelow(d, total, 15, 100)
  {
    if ShareAbove(d, total, 3, 10) then StrongDayMaster
    else if ShareBelow(d, total, 15, 100) then WeakDayMaster
    else ModerateDayMaster
  }

  /** The bounds themselves are moderate: a share of exactly 0.3 is not
      strong and a share of exactly 0.15 is not weak. */
  lemma DayMasterBoundsAreModerate(d: int, total: int)
    requires total > 0
    requires 10 * d == 3 * total || 100 * d == 15 * total
    ensures DayMasterLine(d, total) == ModerateDayMaster
  {
  }

  /** `" ".join(parts)`. */
  function Join(parts: seq<string>, sep: string): string {
    if |parts| == 0 then ""
    else if |parts| == 1 then parts[0]
    else parts[0] + sep + Join(parts[1..], sep)
  }

  /** The overall summary for a given day-master strength. When the total is
      positive it names the first strongest and first weakest element in the
      order 木火土金水 and judges the balance; it always judges the day
      master by the share `dayStrength / total`; a zero total makes that
      share a division by zero. */
  method SummarizeFortune(strength: ElementStrength, dayStrength: int) returns (r: Result<string>)
    ensures r.Ok? <==> strength.Total() != 0
    ensures r.Err? ==> r.error == ZeroDivisionError
    ensures strength.Total() > 0 ==>
      var vs := strength.Values();
      r.value == Join([
        StrengthLine(ElementNames[FirstMax(vs)], ElementNames[FirstMin(vs)]),
        BalanceLine(vs[FirstMax(vs)] - vs[FirstMin(vs)], strength.Total()),
        DayMasterLine(dayStrength, strength.Total())], " ")
    ensures strength.Total() < 0 ==> r.value == DayMasterLine(dayStrength, strength.Total())
  {
    var analysis: seq<string> := [];
    var total := strength.Total();
    if total > 0 {
      var ratios := strength.Values();
      var strongest := FirstMax(ratios);
      var weakest := FirstMin(ratios);
      analysis := analysis + [StrengthLine(ElementNames[strongest], ElementNames[weakest])];
      if 10 * (ratios[strongest] - ratios[weakest]) < 3 * total {
        analysis := analysis + [Balanced];
      } else {
        analysis := analysis + [Imbalanced];
      }
      assert analysis == [StrengthLine(ElementNames[strongest], ElementNames[weakest]),
        BalanceLine(ratios[strongest] - ratios[weakest], total)];
    }
    if total == 0 {
      return Err(ZeroDivisionError);
    }
    ghost var head := analysis;
    if ShareAbove(dayStrength, total, 3, 10) {
      analysis := analysis + [StrongDayMaster];
    } else if ShareBelow(dayStrength, total, 15, 100) {
      analysis := analysis + [WeakDayMaster];
    } else {
      analysis := analysis + [ModerateDayMaster];
    }
    assert analysis == head + [DayMasterLine(dayStrength, total)];
    if total > 0 {
      assert analysis[1..] == [analysis[1], analysis[2]] && analysis[1..][1..] == [analysis[2]];
    }
    r := Ok(Join(analysis, " "));
  }

  /** The overall summary, the day master judged by the share of the day
      stem's own element. */
  method AnalyzeGeneralFortune(chart: BaZiChart, strength: ElementStrength) returns (r: Result<string>)
    ensures r.Ok? <==> strength.Total() != 0
    ensures r.Err? ==> r.error == ZeroDivisionError
    ensures strength.Total() > 0 ==>
      var vs := strength.Values();
      r.value == Join([
        StrengthLine(ElementNames[FirstMax(vs)], ElementNames[FirstMin(vs)]),
        BalanceLine(vs[FirstMax(vs)] - vs[FirstMin(vs)], strength.Total()),
        DayMasterLine(strength.Of(chart.dayPillar.ganZhi.gan.wuXing), strength.Total())], " ")
    ensures strength.Total() < 0 ==>
      r.value == DayMasterLine(strength.Of(chart.dayPillar.ganZhi.gan.wuXing), strength.Total())
  {
    r := SummarizeFortune(strength, strength.Of(chart.dayPillar.ganZhi.gan.wuXing));
  }

  /** The overall summary as the source writes it: the day stem's strength
      is read with `getattr(strength, "木".lower(), 0)` and the like, which
      names no field, so it is always 0 and every summary ends "weak". */
  method AnalyzeGeneralFortuneAsWritten(chart: BaZiChart, strength: ElementStrength) returns (r: Result<string>)
    ensures r.Ok? <==> strength.Total() != 0
    ensures r.Err? ==> r.error == ZeroDivisionError
    ensures strength.Total() > 0 ==>
      var vs := strength.Values();
      r.value == Join([
        StrengthLine(ElementNames[FirstMax(vs)], ElementNames[FirstMin(vs)]),
        BalanceLine(vs[FirstMax(vs)] - vs[FirstMin(vs)], strength.Total()),
        WeakDayMaster], " ")
    ensures strength.Total() < 0 ==> r.value == WeakDayMaster
    ensures r.Ok? ==> EndsWith(r.value, WeakDayMaster)
  {
    r := SummarizeFortune(strength, 0);
    var total := strength.Total();
    if total > 0 {
      ZeroShareIsWeak(total);
      var vs := strength.Values();
      ghost var strengthLine := StrengthLine(ElementNames[FirstMax(vs)], ElementNames[FirstMin(vs)]);
      ghost var balanceLine := BalanceLine(vs[FirstMax(vs)] - vs[FirstMin(vs)], total);
      assert [strengthLine, balanceLine, DayMasterLine(0, total)] == [strengthLine, balanceLine, WeakDayMaster];
      WeakSummaryEndsWeak(r.value, total, strengthLine, balanceLine);
    } else if total < 0 {
      ZeroShareIsWeak(total);
      WeakSummaryEndsWeak(r.value, total, "", "");
    }
  }

  /** With a day strength of 0, every non-zero total judges the day master weak. */
  lemma ZeroShareIsWeak(total: int)
    requires total != 0
    ensures DayMasterLine(0, total) == WeakDayMaster
  {
  }

  /** Both shapes of the as-written summary end with the "weak" sentence. */
  lemma WeakSummaryEndsWeak(s: string, total: int, strengthLine: string, balanceLine: string)
    requires total > 0 ==> s == Join([strengthLine, balanceLine, WeakDayMaster], " ")
    requires total < 0 ==> s == WeakDayMaster
    requires total != 0
    ensures EndsWith(s, WeakDayMaster)
  {
    if total > 0 {
      SummaryEndsWithDayMaster(strengthLine, balanceLine, WeakDayMaster);
    } else {
      assert s[|s| - |WeakDayMaster|..] == s;
    }
  }

  lemma {:induction false} JoinEndsWithLast(parts: seq<string>, sep: string)
    requires |parts| > 0
    ensures var j := Join(parts, sep); var l := parts[|parts| - 1];
      |j| >= |l| && j[|j| - |l|..] == l
  {
    if |parts| > 1 {
      JoinEndsWithLast(parts[1..], sep);
    }
  }

  /** Whenever the day stem's element holds more than 0.3 of a positive
      total, the summary as written judges the day master weak and the
      corrected summary judges it strong. */
  method DayMasterAsWrittenDiffers(chart: BaZiChart, strength: ElementStrength)
    returns (asWritten: Result<string>, corrected: Result<string>)
    requires strength.Total() > 0
    requires ShareAbove(strength.Of(chart.dayPillar.ganZhi.gan.wuXing), strength.Total(), 3, 10)
    ensures asWritten.Ok? && corrected.Ok?
    ensures EndsWith(asWritten.value, WeakDayMaster)
    ensures EndsWith(corrected.value, StrongDayMaster)
    ensures asWritten.value != corrected.value
  {
    asWritten := AnalyzeGeneralFortuneAsWritten(chart, strength);
    corrected := AnalyzeGeneralFortune(chart, strength);
    var vs := strength.Values();
    SummaryEndsWithDayMaster(
      StrengthLine(ElementNames[FirstMax(vs)], ElementNames[FirstMin(vs)]),
      BalanceLine(vs[FirstMax(vs)] - vs[FirstMin(vs)], strength.Total()),
      DayMasterLine(strength.Of(chart.dayPillar.ganZhi.gan.wuXing), strength.Total()));
    StrongIsNotWeak(corrected.value);
  }

  /** For a 甲 (wood) day stem with 木 = 60 and the other elements 10 each,
      the summary as written says weak and the corrected one says strong. */
  method DayMasterAsWrittenCounterexample() returns (asWritten: Result<string>, corrected: Result<string>)
    ensures asWritten.Ok? && corrected.Ok?
    ensures EndsWith(asWritten.value, WeakDayMaster)
    ensures EndsWith(corrected.value, StrongDayMaster)
  {
    var chart := ExampleChart();
    var strength := new ElementStrength();
    strength.wood := 60;
    strength.fire := 10;
    strength.earth := 10;
    strength.metal := 10;
    strength.water := 10;
    assert strength.Total() == 100 && strength.Of(chart.dayPillar.ganZhi.gan.wuXing) == 60;
    asWritten, corrected := DayMasterAsWrittenDiffers(chart, strength);
  }

  /** A three-sentence summary ends with its third sentence. */
  lemma SummaryEndsWithDayMaster(balance: string, spread: string, dayMaster: string)
    ensures EndsWith(Join([balance, spread, dayMaster], " "), dayMaster)
  {
    JoinEndsWithLast([balance, spread, dayMaster], " ");
  }

  /** A summary that ends with the "strong" sentence does not end with the
      "weak" one. */
  lemma StrongIsNotWeak(s: string)
    requires EndsWith(s, StrongDayMaster)
    ensures !EndsWith(s, WeakDayMaster)
  {
    assert |StrongDayMaster| == |WeakDayMaster|;
    assert StrongDayMaster[3] != WeakDayMaster[3];
  }

  /** `s` ends with `suffix`. */
  predicate EndsWith(s: string, suffix: string) {
    |s| >= |suffix| && s[|s| - |suffix|..] == suffix
  }

  // ---------------------------------------------------------------------
  // Recommendations
  // ---------------------------------------------------------------------

  /** The advice for each element. */
  const ElementAdvice: map<string, seq<string>> := map[
    "木" := ["适合东方发展", "宜从事文教、出版、木材相关行业", "有利颜色：绿色"],
    "火" := ["适合南方发展", "宜从事能源、电子、娱乐相关行业", "有利颜色：红色"],
    "土" := ["适合中部发展", "宜从事房地产、农业、陶瓷相关行业", "有利颜色：黄色"],
    "金" := ["适合西方发展", "宜从事金融、机械、金属相关行业", "有利颜色：白色"],
    "水" := ["适合北方发展", "宜从事贸易、物流、水产相关行业", "有利颜色：黑色"]
  ]

  /** The recommendations: for a positive total, the three pieces of advice
      of the first weakest element, each prefixed "补充{weakest}之不足："; none
      otherwise. */
  method GenerateRecommendations(chart: BaZiChart, strength: ElementStrength) returns (recommendations: seq<string>)
    ensures strength.Total() <= 0 ==> recommendations == []
    ensures strength.Total() > 0 ==>
      var w := FirstMin(strength.Values());
      && (forall e | e in WuXingOrder :: strength.Of(WuXingOrder[w]) <= strength.Of(e))
      && |recommendations| == 3
      && forall i | 0 <= i < 3 ::
        recommendations[i] == "补充" + ElementNames[w] + "之不足：" + ElementAdvice[ElementNames[w]][i]
  {
    recommendations := [];
    var total := strength.Total();
    if total > 0 {
      var ratios := strength.Values();
      var weakest := ElementNames[FirstMin(ratios)];
      if weakest in ElementAdvice {
        var advice := ElementAdvice[weakest];
        recommendations := recommendations + seq(|advice|, i requires 0 <= i < |advice| =>
          "补充" + weakest + "之不足：" + advice[i]);
      }
    }
  }

  // ---------------------------------------------------------------------
  // The whole analysis
  // ---------------------------------------------------------------------

  /** A chart used by the counterexample: every pillar 甲子. */
  function ExampleChart(): BaZiChart {
    var gan := TianGan("甲", 0, Wood, Yang, 0);
    var zhi := DiZhi("子", 0, Water, Yang, "", 0, []);
    var p := BaZiPillar(GanZhi(gan, zhi, "甲子", 1), Year, None, None);
    BaZiChart(p, p.(pillarType := Month), p.(pillarType := Day), p.(pillarType := Hour), None)
  }

  /** Analyzes a chart built from the analyzer's tables. */
  method AnalyzeChart(a: BaZiAnalyzer, chart: BaZiChart) returns (result: AnalysisResult)
    requires a.tables.Valid() && a.tables.Holds(chart)
    ensures fresh(result.elementStrength)
    ensures result.chart == chart
    ensures forall w :: result.elementStrength.Of(w) == ChartPower(a.tables, chart.AllPillars(), w)
    ensures result.elementStrength.Total() >= 4 * GanBasePower + 4 * ZhiBasePower
    ensures result.tenGodsAnalysis == TenGodsOf(a.tables, chart.dayPillar.ganZhi.gan.name, chart.AllPillars())
    ensures result.monthlyAnalysis == AnalyzeMonthly(a, chart)
    ensures result.timeAnalysis == AnalyzeTime(a, chart)
    ensures result.generalFortune.Some?
    ensures |result.recommendations| == 3
  {
    ValidChartKnown(a.tables, chart);
    var elementStrength := CalculateElementStrength(a.tables, chart);
    ValidChartStrengthPositive(a.tables, chart, elementStrength);
    var tenGods := AnalyzeTenGods(a.tables, chart);
    var specialPatterns := AnalyzeSpecialPatterns(chart);
    var monthly := AnalyzeMonthly(a, chart);
    var time := AnalyzeTime(a, chart);
    var general := AnalyzeGeneralFortune(chart, elementStrength);
    var recommendations := GenerateRecommendations(chart, elementStrength);
    result := AnalysisResult(chart, elementStrength, tenGods, specialPatterns,
      monthly, time, Some(general.value), recommendations);
  }
}
