/** The records of a BaZi ("Four Pillars") chart: elements and polarities,
    Heavenly Stems (天干), Earthly Branches (地支), their pairs, the four
    pillars, the chart, the five element accumulators and the analysis result. */
module Models {
  import opened Wrappers

  /** The five elements (五行), in declaration order 木火土金水. */
  datatype WuXing = Wood | Fire | Earth | Metal | Water {
    function Value(): string {
      match this
      case Wood => "木"
      case Fire => "火"
      case Earth => "土"
      case Metal => "金"
      case Water => "水"
    }
  }

  /** The elements in declaration order; every scan over the elements follows it. */
  const WuXingOrder: seq<WuXing> := [Wood, Fire, Earth, Metal, Water]

  /** The two polarities (阴阳). */
  datatype YinYang = Yang | Yin {
    function Value(): string {
      match this
      case Yang => "阳"
      case Yin => "阴"
    }
  }

  /** The enumerations are closed: five distinct elements, two distinct
      polarities, each with its own character. */
  lemma EnumerationsAreClosed()
    ensures forall w: WuXing :: w in WuXingOrder
    ensures forall i, j :: 0 <= i < j < |WuXingOrder| ==>
      WuXingOrder[i] != WuXingOrder[j] && WuXingOrder[i].Value() != WuXingOrder[j].Value()
    ensures |WuXingOrder| == 5
    ensures forall p: YinYang :: p.Value() == "阳" || p.Value() == "阴"
    ensures Yang.Value() != Yin.Value()
  {
    forall w: WuXing ensures w in WuXingOrder {
      match w
      case Wood => assert WuXingOrder[0] == w;
      case Fire => assert WuXingOrder[1] == w;
      case Earth => assert WuXingOrder[2] == w;
      case Metal => assert WuXingOrder[3] == w;
      case Water => assert WuXingOrder[4] == w;
    }
  }

  /** A Heavenly Stem with its fixed attributes. */
  datatype TianGan = TianGan(name: string, index: int, wuXing: WuXing, yinYang: YinYang, temperature: int)

  /** One entry of a branch's hidden-stem dictionary: a stem name and its weight. */
  datatype HiddenStem = HiddenStem(name: string, power: int)

  /** An Earthly Branch; `hiddenStems` keeps the dictionary's entries in order. */
  datatype DiZhi = DiZhi(
    name: string, index: int, wuXing: WuXing, yinYang: YinYang,
    timeRange: string, temperature: int, hiddenStems: seq<HiddenStem>)

  /** A stem-branch pair with its name and its number in the sixty cycle. */
  datatype GanZhi = GanZhi(gan: TianGan, zhi: DiZhi, name: string, number: int) {
    /** The stem's name followed by the branch's name. */
    function FullName(): (r: string)
      ensures |r| == |gan.name| + |zhi.name|
      ensures r[..|gan.name|] == gan.name && r[|gan.name|..] == zhi.name
    {
      gan.name + zhi.name
    }
  }

  /** The role of a pillar; its label is the character the source stores. */
  datatype PillarKind = Year | Month | Day | Hour {
    function Label(): string {
      match this
      case Year => "年"
      case Month => "月"
      case Day => "日"
      case Hour => "时"
    }
  }

  /** A calendar timestamp, kept as its fields. */
  datatype DateTime = DateTime(year: int, month: int, day: int, hour: int, minute: int, second: int)

  datatype BaZiPillar = BaZiPillar(
    ganZhi: GanZhi, pillarType: PillarKind,
    solarDate: Option<DateTime>, lunarDate: Option<string>)

  /** The birth information the chart builder records. */
  datatype BirthInfo = BirthInfo(solarDate: DateTime, lunarDate: string, isMale: bool, timezoneOffset: int)

  datatype BaZiChart = BaZiChart(
    yearPillar: BaZiPillar, monthPillar: BaZiPillar,
    dayPillar: BaZiPillar, hourPillar: BaZiPillar,
    birthInfo: Option<BirthInfo>)
  {
    /** The four pillars in the order year, month, day, hour. */
    function AllPillars(): (ps: seq<BaZiPillar>)
      ensures |ps| == 4
      ensures ps[0] == yearPillar && ps[1] == monthPillar && ps[2] == dayPillar && ps[3] == hourPillar
    {
      [yearPillar, monthPillar, dayPillar, hourPillar]
    }

    /** The stem names of the four pillars, pillar by pillar. */
    function AllGans(): (gs: seq<string>)
      ensures |gs| == 4
      ensures forall i | 0 <= i < 4 :: gs[i] == AllPillars()[i].ganZhi.gan.name
    {
      [yearPillar.ganZhi.gan.name, monthPillar.ganZhi.gan.name,
       dayPillar.ganZhi.gan.name, hourPillar.ganZhi.gan.name]
    }

    /** The branch names of the four pillars, pillar by pillar. */
    function AllZhis(): (zs: seq<string>)
      ensures |zs| == 4
      ensures forall i | 0 <= i < 4 :: zs[i] == AllPillars()[i].ganZhi.zhi.name
    {
      [yearPillar.ganZhi.zhi.name, monthPillar.ganZhi.zhi.name,
       dayPillar.ganZhi.zhi.name, hourPillar.ganZhi.zhi.name]
    }
  }

  /** The five element accumulators; the strength engine adds to them in place. */
  class ElementStrength {
    var wood: int
    var fire: int
    var earth: int
    var metal: int
    var water: int

    /** A fresh accumulator set starts at zero everywhere. */
    constructor ()
      ensures forall w :: Of(w) == 0
      ensures Total() == 0
    {
      wood, fire, earth, metal, water := 0, 0, 0, 0, 0;
    }

    /** The accumulator of element `w`. */
    function Of(w: WuXing): int
      reads this
    {
      match w
      case Wood => wood
      case Fire => fire
      case Earth => earth
      case Metal => metal
      case Water => water
    }

    function Total(): int
      reads this
    {
      wood + fire + earth + metal + water
    }

    /** The accumulators as a sequence, in element declaration order. */
    function Values(): (vs: seq<int>)
      reads this
      ensures |vs| == 5
      ensures forall i | 0 <= i < 5 :: vs[i] == Of(WuXingOrder[i])
    {
      [wood, fire, earth, metal, water]
    }
  }

  /** The sum of the accumulators of the elements in `ws`. */
  function SumOver(s: ElementStrength, ws: seq<WuXing>): int
    reads s
  {
    if ws == [] then 0 else s.Of(ws[0]) + SumOver(s, ws[1..])
  }

  /** The total is the sum of the accumulators over the five elements. */
  lemma {:induction false} TotalIsSumOverElements(s: ElementStrength)
    ensures s.Total() == SumOver(s, WuXingOrder)
  {
    var ws := WuXingOrder;
    calc {
      SumOver(s, ws);
      s.Of(Wood) + SumOver(s, ws[1..]);
      { assert ws[1..][0] == Fire; }
      s.Of(Wood) + s.Of(Fire) + SumOver(s, ws[2..]);
      { assert ws[1..][1..] == ws[2..] && ws[2..][0] == Earth && ws[2..][1..] == ws[3..]; }
      s.Of(Wood) + s.Of(Fire) + s.Of(Earth) + SumOver(s, ws[3..]);
      { assert ws[3..][0] == Metal && ws[3..][1..] == ws[4..]; }
      s.Of(Wood) + s.Of(Fire) + s.Of(Earth) + s.Of(Metal) + SumOver(s, ws[4..]);
      { assert ws[4..][0] == Water && ws[4..][1..] == []; }
      s.Total();
    }
  }

  datatype AnalysisResult = AnalysisResult(
    chart: BaZiChart,
    elementStrength: ElementStrength,
    tenGodsAnalysis: map<string, string>,
    specialPatterns: seq<string>,
    monthlyAnalysis: Option<string>,
    timeAnalysis: Option<string>,
    generalFortune: Option<string>,
    recommendations: seq<string>)
}
