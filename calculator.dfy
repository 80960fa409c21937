/** The calculator: building stem-branch pairs and the chart, scoring the
    five elements, and classifying the Ten Gods (十神). */
module Calculator {
  import opened Wrappers
  import opened Models
  import opened Reference

  // ---------------------------------------------------------------------
  // Stem-branch pairs and the chart
  // ---------------------------------------------------------------------

  /** The index of the first sixty-cycle entry named `name`, if any. */
  function FirstIndex(entries: seq<CycleEntry>, name: string): (r: Option<nat>)
    ensures r.Some? ==> r.value < |entries| && entries[r.value].name == name
    ensures r.Some? ==> forall j | 0 <= j < r.value :: entries[j].name != name
    ensures r.None? ==> forall j | 0 <= j < |entries| :: entries[j].name != name
  {
    if entries == [] then None
    else if entries[0].name == name then Some(0)
    else match FirstIndex(entries[1..], name)
      case None => None
      case Some(i) => Some(i + 1)
  }

  /** The number `create_ganzhi` gives a pair named `name`: the key of the
      first entry with that name, or 1 when there is none (`number or 1`
      also turns a key of 0 into 1). */
  function CycleNumber(entries: seq<CycleEntry>, name: string): int {
    match FirstIndex(entries, name)
    case Some(i) => if entries[i].number != 0 then entries[i].number else 1
    case None => 1
  }

  /** All four lookups of `create_ganzhi` succeed. */
  predicate PairResolves(t: Tables, ganName: string, zhiName: string) {
    && ganName in t.tiangan && zhiName in t.dizhi
    && ganName in TianganList && zhiName in DizhiList
  }

  /** The exception `create_ganzhi` raises, in the order it looks up:
      the stem dictionary, the branch dictionary, the stem list, the branch list. */
  function PairError(t: Tables, ganName: string, zhiName: string): PyError
    requires !PairResolves(t, ganName, zhiName)
  {
    if ganName !in t.tiangan then KeyError(ganName)
    else if zhiName !in t.dizhi then KeyError(zhiName)
    else if ganName !in TianganList then ValueError(ganName)
    else ValueError(zhiName)
  }

  /** Builds the stem-branch pair for two names, searching the sixty-cycle
      table for its number. */
  method CreateGanZhi(t: Tables, ganName: string, zhiName: string) returns (r: Result<GanZhi>)
    ensures r.Ok? <==> PairResolves(t, ganName, zhiName)
    ensures r.Err? ==> r.error == PairError(t, ganName, zhiName)
    ensures r.Ok? ==> r.value.gan == t.tiangan[ganName] && r.value.zhi == t.dizhi[zhiName]
    ensures r.Ok? ==> r.value.name == ganName + zhiName
    ensures r.Ok? ==> r.value.number == CycleNumber(t.ganzhi60, ganName + zhiName)
    ensures r.Ok? && t.Valid() ==> r.value.name == r.value.FullName() && t.Resolves(r.value)
  {
    if ganName !in t.tiangan {
      return Err(KeyError(ganName));
    }
    var gan := t.tiangan[ganName];
    if zhiName !in t.dizhi {
      return Err(KeyError(zhiName));
    }
    var zhi := t.dizhi[zhiName];
    if ganName !in TianganList {
      return Err(ValueError(ganName));
    }
    if zhiName !in DizhiList {
      return Err(ValueError(zhiName));
    }
    var name := ganName + zhiName;
    var number: Option<int> := None;
    var i := 0;
    while i < |t.ganzhi60|
      invariant 0 <= i <= |t.ganzhi60|
      invariant number.None?
      invariant forall j | 0 <= j < i :: t.ganzhi60[j].name != name
    {
      if t.ganzhi60[i].name == name {
        number := Some(t.ganzhi60[i].number);
        break;
      }
      i := i + 1;
    }
    var n := if number.Some? && number.value != 0 then number.value else 1;
    r := Ok(GanZhi(gan, zhi, name, n));
  }

  /** The number found for a name is the key of its entry in the sixty-cycle
      table, when names are unique there and the key is not 0. */
  lemma CycleNumberOfListedName(entries: seq<CycleEntry>, k: nat)
    requires k < |entries|
    requires forall i, j | 0 <= i < j < |entries| :: entries[i].name != entries[j].name
    requires entries[k].number != 0
    ensures CycleNumber(entries, entries[k].name) == entries[k].number
  {
    var r := FirstIndex(entries, entries[k].name);
    assert r.Some?;
    assert entries[r.value].name == entries[k].name;
  }

  /** With a table whose keys are 1..60 and pairwise distinct and whose names
      are unique, two different listed names get two different numbers. */
  lemma CycleNumbersAreDistinct(entries: seq<CycleEntry>, a: nat, b: nat)
    requires a < |entries| && b < |entries|
    requires forall i, j | 0 <= i < j < |entries| ::
      entries[i].name != entries[j].name && entries[i].number != entries[j].number
    requires forall i | 0 <= i < |entries| :: 1 <= entries[i].number <= 60
    requires entries[a].name != entries[b].name
    ensures 1 <= CycleNumber(entries, entries[a].name) <= 60
    ensures CycleNumber(entries, entries[a].name) != CycleNumber(entries, entries[b].name)
  {
    CycleNumberOfListedName(entries, a);
    CycleNumberOfListedName(entries, b);
    assert a != b;
  }

  /** The four stem and branch names the calendar library gives for a moment
      (year, month, day and hour pillars). */
  datatype EightChar = EightChar(
    yearGan: string, yearZhi: string, monthGan: string, monthZhi: string,
    dayGan: string, dayZhi: string, timeGan: string, timeZhi: string)

  /** The lunar date as the calendar library writes it in Chinese. */
  datatype LunarDate = LunarDate(yearInChinese: string, monthInChinese: string, dayInChinese: string)

  function LunarLabel(lunar: LunarDate): string {
    lunar.yearInChinese + "年" + lunar.monthInChinese + "月" + lunar.dayInChinese
  }

  /** The error of the first of the four pairs that does not resolve. */
  function FirstPairError(t: Tables, bazi: EightChar): PyError
    requires !(
      && PairResolves(t, bazi.yearGan, bazi.yearZhi)
      && PairResolves(t, bazi.monthGan, bazi.monthZhi)
      && PairResolves(t, bazi.dayGan, bazi.dayZhi)
      && PairResolves(t, bazi.timeGan, bazi.timeZhi))
  {
    if !PairResolves(t, bazi.yearGan, bazi.yearZhi) then PairError(t, bazi.yearGan, bazi.yearZhi)
    else if !PairResolves(t, bazi.monthGan, bazi.monthZhi) then PairError(t, bazi.monthGan, bazi.monthZhi)
    else if !PairResolves(t, bazi.dayGan, bazi.dayZhi) then PairError(t, bazi.dayGan, bazi.dayZhi)
    else PairError(t, bazi.timeGan, bazi.timeZhi)
  }

  /** Pillar `p` holds the pair built from the names `g` and `z`, has role
      `kind` and records the birth moment. */
  predicate PillarBuilt(t: Tables, p: BaZiPillar, g: string, z: string, kind: PillarKind, birth: DateTime)
    requires PairResolves(t, g, z)
  {
    && p.ganZhi.gan == t.tiangan[g] && p.ganZhi.zhi == t.dizhi[z]
    && p.ganZhi.name == g + z && p.ganZhi.number == CycleNumber(t.ganzhi60, g + z)
    && p.pillarType == kind && p.solarDate == Some(birth)
  }

  /** Assembles the chart from the calendar library's output: four pairs
      built in the order year, month, day, hour (the first failure is the
      one raised), each tagged with its role and its lunar label. */
  method CalculateBaZi(
    t: Tables, birth: DateTime, isMale: bool, timezoneOffset: int,
    bazi: EightChar, lunar: LunarDate)
    returns (r: Result<BaZiChart>)
    ensures r.Ok? <==>
      && PairResolves(t, bazi.yearGan, bazi.yearZhi)
      && PairResolves(t, bazi.monthGan, bazi.monthZhi)
      && PairResolves(t, bazi.dayGan, bazi.dayZhi)
      && PairResolves(t, bazi.timeGan, bazi.timeZhi)
    ensures r.Err? ==>
      r.error == FirstPairError(t, bazi)
    ensures r.Ok? ==>
      && PillarBuilt(t, r.value.yearPillar, bazi.yearGan, bazi.yearZhi, Year, birth)
      && PillarBuilt(t, r.value.monthPillar, bazi.monthGan, bazi.monthZhi, Month, birth)
      && PillarBuilt(t, r.value.dayPillar, bazi.dayGan, bazi.dayZhi, Day, birth)
      && PillarBuilt(t, r.value.hourPillar, bazi.timeGan, bazi.timeZhi, Hour, birth)
    ensures r.Ok? ==>
      && r.value.yearPillar.lunarDate == Some(LunarLabel(lunar))
      && r.value.monthPillar.lunarDate == Some(lunar.monthInChinese + "月")
      && r.value.dayPillar.lunarDate == Some(lunar.dayInChinese)
      && r.value.hourPillar.lunarDate == Some("")
    ensures r.Ok? ==> r.value.birthInfo == Some(BirthInfo(birth, LunarLabel(lunar), isMale, timezoneOffset))
  {
    var year := CreateGanZhi(t, bazi.yearGan, bazi.yearZhi);
    if year.Err? {
      return Err(year.error);
    }
    var month := CreateGanZhi(t, bazi.monthGan, bazi.monthZhi);
    if month.Err? {
      return Err(month.error);
    }
    var day := CreateGanZhi(t, bazi.dayGan, bazi.dayZhi);
    if day.Err? {
      return Err(day.error);
    }
    var hour := CreateGanZhi(t, bazi.timeGan, bazi.timeZhi);
    if hour.Err? {
      return Err(hour.error);
    }
    var yearPillar := BaZiPillar(year.value, Year, Some(birth), Some(LunarLabel(lunar)));
    var monthPillar := BaZiPillar(month.value, Month, Some(birth), Some(lunar.monthInChinese + "月"));
    var dayPillar := BaZiPillar(day.value, Day, Some(birth), Some(lunar.dayInChinese));
    var hourPillar := BaZiPillar(hour.value, Hour, Some(birth), Some(""));
    var chart := BaZiChart(yearPillar, monthPillar, dayPillar, hourPillar,
      Some(BirthInfo(birth, LunarLabel(lunar), isMale, timezoneOffset)));
    r := Ok(chart);
  }

  /** A chart assembled from valid tables holds their own entries, and
      its stems and branches are the input names pillar by pillar. */
  lemma BuiltChartHolds(t: Tables, chart: BaZiChart, bazi: EightChar, birth: DateTime)
    requires t.Valid()
    requires PairResolves(t, bazi.yearGan, bazi.yearZhi) && PairResolves(t, bazi.monthGan, bazi.monthZhi)
    requires PairResolves(t, bazi.dayGan, bazi.dayZhi) && PairResolves(t, bazi.timeGan, bazi.timeZhi)
    requires PillarBuilt(t, chart.yearPillar, bazi.yearGan, bazi.yearZhi, Year, birth)
    requires PillarBuilt(t, chart.monthPillar, bazi.monthGan, bazi.monthZhi, Month, birth)
    requires PillarBuilt(t, chart.dayPillar, bazi.dayGan, bazi.dayZhi, Day, birth)
    requires PillarBuilt(t, chart.hourPillar, bazi.timeGan, bazi.timeZhi, Hour, birth)
    ensures t.Holds(chart)
    ensures chart.AllGans() == [bazi.yearGan, bazi.monthGan, bazi.dayGan, bazi.timeGan]
    ensures chart.AllZhis() == [bazi.yearZhi, bazi.monthZhi, bazi.dayZhi, bazi.timeZhi]
  {
  }

  // ---------------------------------------------------------------------
  // Five-element strength
  // ---------------------------------------------------------------------

  /** Base weight of a pillar's stem. */
  const GanBasePower := 10
  /** Base weight of a pillar's branch (its primary element). */
  const ZhiBasePower := 12
  /** Multiplier of a hidden stem's own weight. */
  const HiddenBasePower := 1

  /** Every hidden stem in `hs` names a stem of the tables. */
  predicate HiddenNamesKnown(t: Tables, hs: seq<HiddenStem>) {
    forall i | 0 <= i < |hs| :: hs[i].name in t.tiangan
  }

  /** Every hidden stem of every branch of the pillars names a stem of the tables. */
  predicate PillarsHiddenKnown(t: Tables, ps: seq<BaZiPillar>) {
    forall i | 0 <= i < |ps| :: HiddenNamesKnown(t, ps[i].ganZhi.zhi.hiddenStems)
  }

  /** What one hidden stem adds to element `w`. */
  function HiddenContribution(t: Tables, h: HiddenStem, w: WuXing): int
    requires h.name in t.tiangan
  {
    if t.tiangan[h.name].wuXing == w then h.power * HiddenBasePower else 0
  }

  /** What the hidden stems `hs`, taken in order, add to element `w`. */
  function HiddenPower(t: Tables, hs: seq<HiddenStem>, w: WuXing): int
    requires HiddenNamesKnown(t, hs)
  {
    if hs == [] then 0
    else HiddenPower(t, hs[..|hs| - 1], w) + HiddenContribution(t, hs[|hs| - 1], w)
  }

  /** What the stem and the branch of pillar `p` add to element `w`. */
  function BasePower(p: BaZiPillar, w: WuXing): int {
    (if p.ganZhi.gan.wuXing == w then GanBasePower else 0)
    + (if p.ganZhi.zhi.wuXing == w then ZhiBasePower else 0)
  }

  /** What pillar `p` adds to element `w`. */
  function PillarPower(t: Tables, p: BaZiPillar, w: WuXing): int
    requires HiddenNamesKnown(t, p.ganZhi.zhi.hiddenStems)
  {
    BasePower(p, w) + HiddenPower(t, p.ganZhi.zhi.hiddenStems, w)
  }

  /** What the pillars `ps`, taken in order, add to element `w`. */
  function ChartPower(t: Tables, ps: seq<BaZiPillar>, w: WuXing): int
    requires PillarsHiddenKnown(t, ps)
  {
    if ps == [] then 0
    else ChartPower(t, ps[..|ps| - 1], w) + PillarPower(t, ps[|ps| - 1], w)
  }

  /** Adds `power` to the accumulator of `wuXing` and to no other. */
  method AddElementStrength(strength: ElementStrength, wuXing: WuXing, power: int)
    modifies strength
    ensures forall w :: strength.Of(w) == old(strength.Of(w)) + (if w == wuXing then power else 0)
    ensures strength.Total() == old(strength.Total()) + power
  {
    match wuXing
    case Wood => strength.wood := strength.wood + power;
    case Fire => strength.fire := strength.fire + power;
    case Earth => strength.earth := strength.earth + power;
    case Metal => strength.metal := strength.metal + power;
    case Water => strength.water := strength.water + power;
  }

  /** Scores the chart: each pillar adds the stem base weight to its stem's
      element, the branch base weight to its branch's element, and each
      hidden stem's weight to that hidden stem's element. */
  method CalculateElementStrength(t: Tables, chart: BaZiChart) returns (strength: ElementStrength)
    requires PillarsHiddenKnown(t, chart.AllPillars())
    ensures fresh(strength)
    ensures forall w :: strength.Of(w) == ChartPower(t, chart.AllPillars(), w)
  {
    strength := new ElementStrength();
    var ps := chart.AllPillars();
    var i := 0;
    while i < |ps|
      invariant 0 <= i <= |ps|
      invariant forall w :: strength.Of(w) == ChartPower(t, ps[..i], w)
    {
      assert ps[..i + 1][..i] == ps[..i];
      AddPillarStrength(t, strength, ps[i]);
      i := i + 1;
    }
    assert ps[..i] == ps;
  }

  /** The body of the scoring loop for one pillar: its stem, its branch
      and then each hidden stem of the branch, in dictionary order. */
  method AddPillarStrength(t: Tables, strength: ElementStrength, pillar: BaZiPillar)
    requires HiddenNamesKnown(t, pillar.ganZhi.zhi.hiddenStems)
    modifies strength
    ensures forall w :: strength.Of(w) == old(strength.Of(w)) + PillarPower(t, pillar, w)
  {
    var gan := pillar.ganZhi.gan;
    var zhi := pillar.ganZhi.zhi;
    AddElementStrength(strength, gan.wuXing, GanBasePower);
    AddElementStrength(strength, zhi.wuXing, ZhiBasePower);
    var hs := zhi.hiddenStems;
    var k := 0;
    while k < |hs|
      invariant 0 <= k <= |hs|
      invariant forall w :: strength.Of(w) == old(strength.Of(w)) + BasePower(pillar, w) + HiddenPower(t, hs[..k], w)
    {
      assert hs[..k + 1][..k] == hs[..k];
      var hidden := t.tiangan[hs[k].name];
      AddElementStrength(strength, hidden.wuXing, hs[k].power * HiddenBasePower);
      k := k + 1;
    }
    assert hs[..k] == hs;
  }

  /** The sum of a hidden-stem dictionary's weights. */
  function WeightSum(hs: seq<HiddenStem>): int {
    if hs == [] then 0 else WeightSum(hs[..|hs| - 1]) + hs[|hs| - 1].power
  }

  /** The sum of the hidden-stem weights of all branches of the pillars. */
  function PillarsWeightSum(ps: seq<BaZiPillar>): int {
    if ps == [] then 0 else PillarsWeightSum(ps[..|ps| - 1]) + WeightSum(ps[|ps| - 1].ganZhi.zhi.hiddenStems)
  }

  /** The sum over the five elements of what the pillars add. */
  function ChartTotal(t: Tables, ps: seq<BaZiPillar>): int
    requires PillarsHiddenKnown(t, ps)
  {
    ChartPower(t, ps, Wood) + ChartPower(t, ps, Fire) + ChartPower(t, ps, Earth)
    + ChartPower(t, ps, Metal) + ChartPower(t, ps, Water)
  }

  /** Across the five elements, hidden stems add exactly their weights. */
  lemma {:induction false} HiddenPowerSumsToWeights(t: Tables, hs: seq<HiddenStem>)
    requires HiddenNamesKnown(t, hs)
    ensures HiddenPower(t, hs, Wood) + HiddenPower(t, hs, Fire) + HiddenPower(t, hs, Earth)
      + HiddenPower(t, hs, Metal) + HiddenPower(t, hs, Water) == WeightSum(hs)
  {
    if hs != [] {
      HiddenPowerSumsToWeights(t, hs[..|hs| - 1]);
    }
  }

  /** Across the five elements, the pillars add 10 + 12 each plus all
      their hidden-stem weights. */
  lemma {:induction false} ChartTotalFormula(t: Tables, ps: seq<BaZiPillar>)
    requires PillarsHiddenKnown(t, ps)
    ensures ChartTotal(t, ps) == (GanBasePower + ZhiBasePower) * |ps| + PillarsWeightSum(ps)
  {
    if ps != [] {
      var init := ps[..|ps| - 1];
      assert PillarsHiddenKnown(t, init) by {
        forall i | 0 <= i < |init| ensures HiddenNamesKnown(t, init[i].ganZhi.zhi.hiddenStems) {
          assert init[i] == ps[i];
        }
      }
      ChartTotalFormula(t, init);
      HiddenPowerSumsToWeights(t, ps[|ps| - 1].ganZhi.zhi.hiddenStems);
    }
  }

  /** The element-strength total of a chart is 4 x 10 + 4 x 12 plus the sum
      of the hidden-stem weights of its four branches. */
  lemma StrengthTotal(t: Tables, chart: BaZiChart, strength: ElementStrength)
    requires PillarsHiddenKnown(t, chart.AllPillars())
    requires forall w :: strength.Of(w) == ChartPower(t, chart.AllPillars(), w)
    ensures strength.Total() == 4 * GanBasePower + 4 * ZhiBasePower + PillarsWeightSum(chart.AllPillars())
  {
    ChartTotalFormula(t, chart.AllPillars());
    assert strength.Total() == strength.Of(Wood) + strength.Of(Fire) + strength.Of(Earth)
      + strength.Of(Metal) + strength.Of(Water);
  }

  /** With non-negative hidden-stem weights no accumulator is negative. */
  lemma {:induction false} HiddenPowerNonNegative(t: Tables, hs: seq<HiddenStem>, w: WuXing)
    requires HiddenNamesKnown(t, hs)
    requires forall i | 0 <= i < |hs| :: hs[i].power >= 0
    ensures HiddenPower(t, hs, w) >= 0
  {
    if hs != [] {
      HiddenPowerNonNegative(t, hs[..|hs| - 1], w);
    }
  }

  /** With non-negative hidden-stem weights every element's score is at
      least the base weights that land on it. */
  lemma {:induction false} ChartPowerNonNegative(t: Tables, ps: seq<BaZiPillar>, w: WuXing)
    requires PillarsHiddenKnown(t, ps)
    requires forall i, j | 0 <= i < |ps| && 0 <= j < |ps[i].ganZhi.zhi.hiddenStems| ::
      ps[i].ganZhi.zhi.hiddenStems[j].power >= 0
    ensures ChartPower(t, ps, w) >= 0
  {
    if ps != [] {
      var init := ps[..|ps| - 1];
      assert forall i | 0 <= i < |init| :: init[i] == ps[i];
      ChartPowerNonNegative(t, init, w);
      HiddenPowerNonNegative(t, ps[|ps| - 1].ganZhi.zhi.hiddenStems, w);
    }
  }

  /** For a chart built from valid tables every accumulator is non-negative
      and the total is at least 88, so it is never 0. */
  lemma ValidChartStrengthPositive(t: Tables, chart: BaZiChart, strength: ElementStrength)
    requires t.Valid() && t.Holds(chart)
    requires PillarsHiddenKnown(t, chart.AllPillars())
    requires forall w :: strength.Of(w) == ChartPower(t, chart.AllPillars(), w)
    ensures forall w :: strength.Of(w) >= 0
    ensures strength.Total() >= 4 * GanBasePower + 4 * ZhiBasePower
  {
    var ps := chart.AllPillars();
    forall i, j | 0 <= i < |ps| && 0 <= j < |ps[i].ganZhi.zhi.hiddenStems|
      ensures ps[i].ganZhi.zhi.hiddenStems[j].power >= 0
    {
      assert t.Resolves(ps[i].ganZhi);
      assert t.HiddenStemsWellFormed(t.dizhi[ps[i].ganZhi.zhi.name].hiddenStems);
    }
    forall w ensures strength.Of(w) >= 0 {
      ChartPowerNonNegative(t, ps, w);
    }
    StrengthTotal(t, chart, strength);
    assert PillarsWeightSum(ps) >= 0 by {
      PillarsWeightNonNegative(ps);
    }
  }

  lemma {:induction false} PillarsWeightNonNegative(ps: seq<BaZiPillar>)
    requires forall i, j | 0 <= i < |ps| && 0 <= j < |ps[i].ganZhi.zhi.hiddenStems| ::
      ps[i].ganZhi.zhi.hiddenStems[j].power >= 0
    ensures PillarsWeightSum(ps) >= 0
  {
    if ps != [] {
      var init := ps[..|ps| - 1];
      assert forall i | 0 <= i < |init| :: init[i] == ps[i];
      PillarsWeightNonNegative(init);
      WeightSumNonNegative(ps[|ps| - 1].ganZhi.zhi.hiddenStems);
    }
  }

  lemma {:induction false} WeightSumNonNegative(hs: seq<HiddenStem>)
    requires forall j | 0 <= j < |hs| :: hs[j].power >= 0
    ensures WeightSum(hs) >= 0
  {
    if hs != [] {
      WeightSumNonNegative(hs[..|hs| - 1]);
    }
  }

  // ---------------------------------------------------------------------
  // Ten Gods
  // ---------------------------------------------------------------------

  /** The generation cycle (相生): wood feeds fire, fire makes earth, earth
      bears metal, metal collects water, water nourishes wood. */
  function Generates(w: WuXing): WuXing {
    match w
    case Wood => Fire
    case Fire => Earth
    case Earth => Metal
    case Metal => Water
    case Water => Wood
  }

  /** The control cycle (相克): wood parts earth, earth dams water, water
      quenches fire, fire melts metal, metal cuts wood. */
  function Controls(w: WuXing): WuXing {
    match w
    case Wood => Earth
    case Earth => Water
    case Water => Fire
    case Fire => Metal
    case Metal => Wood
  }

  predicate IsSheng(source: WuXing, target: WuXing) {
    Generates(source) == target
  }

  predicate IsKe(source: WuXing, target: WuXing) {
    Controls(source) == target
  }

  /** The Ten God the target stem is to the day stem, by element relation
      (same, day generates, day controls, target controls, target
      generates) and then polarity. */
  function Classify(day: TianGan, target: TianGan): string {
    var same := day.yinYang == target.yinYang;
    if day.wuXing == target.wuXing then (if same then "比肩" else "劫财")
    else if IsSheng(day.wuXing, target.wuXing) then (if same then "食神" else "伤官")
    else if IsKe(day.wuXing, target.wuXing) then (if same then "偏财" else "正财")
    else if IsKe(target.wuXing, day.wuXing) then (if same then "七杀" else "正官")
    else if IsSheng(target.wuXing, day.wuXing) then (if same then "偏印" else "正印")
    else "未知"
  }

  /** `get_ten_gods_relationship`: both names are searched in the stem list
      (day first), then looked up in the stem dictionary (day first). */
  function GetTenGodsRelationship(t: Tables, dayGan: string, targetGan: string): Result<string> {
    if dayGan !in TianganList then Err(ValueError(dayGan))
    else if targetGan !in TianganList then Err(ValueError(targetGan))
    else if dayGan !in t.tiangan then Err(KeyError(dayGan))
    else if targetGan !in t.tiangan then Err(KeyError(targetGan))
    else Ok(Classify(t.tiangan[dayGan], t.tiangan[targetGan]))
  }

  /** The labels for the same polarity, and for different polarity. */
  const SamePolarityLabels: set<string> := {"比肩", "食神", "偏财", "七杀", "偏印"}
  const OtherPolarityLabels: set<string> := {"劫财", "伤官", "正财", "正官", "正印"}

  /** A stem compared with itself is its Peer (比肩). */
  lemma ClassifySelf(g: TianGan)
    ensures Classify(g, g) == "比肩"
  {
  }

  /** For two different elements exactly one of the four cycle relations
      holds: d generates t, d controls t, t controls d, t generates d. */
  lemma CycleRelationsPartition(d: WuXing, t: WuXing)
    requires d != t
    ensures (if IsSheng(d, t) then 1 else 0) + (if IsKe(d, t) then 1 else 0)
      + (if IsKe(t, d) then 1 else 0) + (if IsSheng(t, d) then 1 else 0) == 1
  {
  }

  /** The classification is total: every pair of stems gets one of the ten
      labels, never "未知", and the polarity alone picks which half. */
  lemma ClassifyIsTotal(d: TianGan, t: TianGan)
    ensures Classify(d, t) != "未知"
    ensures Classify(d, t) in SamePolarityLabels + OtherPolarityLabels
    ensures Classify(d, t) in SamePolarityLabels <==> d.yinYang == t.yinYang
    ensures Classify(d, t) in OtherPolarityLabels <==> d.yinYang != t.yinYang
  {
    if d.wuXing != t.wuXing {
      CycleRelationsPartition(d.wuXing, t.wuXing);
    }
  }

  /** Position of an element on the generation cycle, from wood. */
  function CyclePosition(w: WuXing): (k: nat)
    ensures k < 5
  {
    match w
    case Wood => 0
    case Fire => 1
    case Earth => 2
    case Metal => 3
    case Water => 4
  }

  /** The labels by generation-cycle distance from the day element to the
      target element (0 same, 1 day generates, 2 day controls, 3 target
      controls, 4 target generates), same polarity first. */
  const LabelsByDistance: seq<(string, string)> := [
    ("比肩", "劫财"), ("食神", "伤官"), ("偏财", "正财"), ("七杀", "正官"), ("偏印", "正印")]

  /** The classification depends only on how far round the generation cycle
      the target's element lies from the day's, and on polarity. */
  lemma ClassifyByCycleDistance(d: TianGan, t: TianGan)
    ensures var k := (CyclePosition(t.wuXing) - CyclePosition(d.wuXing)) % 5;
      Classify(d, t) == if d.yinYang == t.yinYang then LabelsByDistance[k].0 else LabelsByDistance[k].1
  {
  }

  /** `n` steps along the generation cycle. */
  function GenerateSteps(w: WuXing, n: nat): WuXing
    decreases n
  {
    if n == 0 then w else GenerateSteps(Generates(w), n - 1)
  }

  /** Both cycles have length five, and controlling is generating twice. */
  lemma CyclesHaveLengthFive(w: WuXing)
    ensures GenerateSteps(w, 5) == w
    ensures forall n | 1 <= n < 5 :: GenerateSteps(w, n) != w
    ensures Controls(w) == GenerateSteps(w, 2)
    ensures Controls(Controls(Controls(Controls(Controls(w))))) == w
  {
  }

  /** For valid tables the relationship of two known stems is looked up
      without error and is one of the ten labels. */
  lemma TenGodsRelationshipTotal(t: Tables, dayGan: string, targetGan: string)
    requires t.Valid()
    requires dayGan in t.tiangan && targetGan in t.tiangan
    ensures GetTenGodsRelationship(t, dayGan, targetGan).Ok?
    ensures GetTenGodsRelationship(t, dayGan, targetGan).value in SamePolarityLabels + OtherPolarityLabels
    ensures dayGan == targetGan ==> GetTenGodsRelationship(t, dayGan, targetGan).value == "比肩"
  {
    ClassifyIsTotal(t.tiangan[dayGan], t.tiangan[targetGan]);
  }
}
