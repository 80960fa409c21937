/** The reference tables the engine reads: the stem dictionary, the branch
    dictionary (each branch with its hidden stems) and the sixty-cycle table.
    They are loaded once from data files that are not part of this model, so
    they are a parameter here, together with the well-formedness the loader
    and the data are relied on to give. */
module Reference {
  import opened Models

  /** The fixed stem order the calculator searches with `list.index`. */
  const TianganList: seq<string> := ["甲", "乙", "丙", "丁", "戊", "己", "庚", "辛", "壬", "癸"]

  /** The fixed branch order the calculator searches with `list.index`. */
  const DizhiList: seq<string> := ["子", "丑", "寅", "卯", "辰", "巳", "午", "未", "申", "酉", "戌", "亥"]

  /** One entry of the sixty-cycle table: its numeric key and the pair's name. */
  datatype CycleEntry = CycleEntry(number: int, name: string)

  /** TIANGAN_DICT, DIZHI_DICT and GANZHI_60 (in the table's own order). */
  datatype Tables = Tables(
    tiangan: map<string, TianGan>,
    dizhi: map<string, DiZhi>,
    ganzhi60: seq<CycleEntry>)
  {
    /** Every hidden-stem entry names a known stem, has a non-negative
        weight, and no name occurs twice (they are dictionary keys). */
    predicate HiddenStemsWellFormed(hs: seq<HiddenStem>) {
      && (forall i | 0 <= i < |hs| ::
            hs[i].name in tiangan && hs[i].name in TianganList && hs[i].power >= 0)
      && (forall i, j | 0 <= i < j < |hs| :: hs[i].name != hs[j].name)
    }

    /** Both dictionaries are keyed by their entries' own names (as the
        loader builds them), every key is in the fixed name list, and every
        branch's hidden stems are well formed. */
    predicate Valid() {
      && (forall k | k in tiangan :: tiangan[k].name == k && k in TianganList)
      && (forall k | k in dizhi ::
            dizhi[k].name == k && k in DizhiList && HiddenStemsWellFormed(dizhi[k].hiddenStems))
    }

    /** The pair's stem and branch are the tables' own entries for their names. */
    predicate Resolves(gz: GanZhi) {
      && gz.gan.name in tiangan && tiangan[gz.gan.name] == gz.gan
      && gz.zhi.name in dizhi && dizhi[gz.zhi.name] == gz.zhi
    }

    /** Every pillar of the chart was built from these tables. */
    predicate Holds(chart: BaZiChart) {
      && Resolves(chart.yearPillar.ganZhi)
      && Resolves(chart.monthPillar.ganZhi)
      && Resolves(chart.dayPillar.ganZhi)
      && Resolves(chart.hourPillar.ganZhi)
    }
  }
}
