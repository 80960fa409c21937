# BaZi rule engine — a Dafny model

This project models the rule engine of a BaZi ("Four Pillars of Destiny",
八字) analysis tool. A birth moment gives four pillars: year, month, day and
hour. Each pillar is a stem-branch pair (干支), a Heavenly Stem (天干) over an
Earthly Branch (地支). The engine then:

- builds the chart from the four pairs the calendar library gives;
- scores the five elements (五行: 木火土金水). Each stem weighs 10 and each
  branch 12, and each of a branch's hidden stems adds its own weight;
- classifies every other stem against the day stem, the "day master", into
  one of the Ten Gods (十神) by element relation and polarity;
- reports the fixed special patterns, the monthly and hourly commentary, an
  overall summary (strongest and weakest element, balance, strength of the
  day master) and advice for the weakest element;
- offers helper checks: stem and branch combinations and clashes (合, 冲),
  harms (害), punishments (刑), branch combinations (三合, 半合, 四库土局),
  the void branches (空亡) of a day pillar, and the yin/yang count of a chart.

Modules, one per source file:

- `Wrappers` (`wrappers.dfy`): `Option`, `Result` and the Python exceptions the
  core can raise (`KeyError`, `ValueError`, `ZeroDivisionError`).
- `Models` (`models.dfy`): the records of `src/core/models.py`.
  - Everything is a datatype except `ElementStrength`, a class, because the
    calculator adds to its fields in place.
  - The float accumulators are integers. Every weight the engine adds is an
    integer.
- `Reference` (`reference.dfy`): the stem dictionary, the branch dictionary
  and the sixty-cycle table the engine reads.
  - These are loaded from data files that are not part of this model, so
    they are a parameter (`Tables`).
  - `Valid` states what the loader and the data are relied on to give:
    dictionaries keyed by their entries' names, names from the fixed lists,
    and hidden stems that are known, distinct and non-negative.
- `Calculator` (`calculator.dfy`): `src/core/calculator.py`.
- `Analysis` (`analysis.dfy`): `src/analysis/analyzer.py`.
  - The analyzer's two JSON commentary tables are fields of `BaZiAnalyzer`.
- `BaZiUtils` (`baziutils.dfy`): the `BaZiUtils` checks of
  `src/utils/helpers.py`.

Ratios such as `wood / total > 0.3` are compared exactly by cross-multiplying
integers. `ShareComparisonsAreExact` proves each comparison equals the
comparison of real quotients, whatever the sign of the total.

Python's `max`/`min` with a `key` return the first extreme element in
dictionary order. `FirstMax`/`FirstMin` therefore return the first index
whose value is extreme.

## Model

| member | source | states |
|---|---|---|
| `Models.EnumerationsAreClosed` | src/core/models.py:10-23 | There are exactly five distinct elements, each with its own character. There are two polarities, 阳 and 阴. |
| `Models.GanZhi.FullName` | src/core/models.py:52-54 | The full name is the stem's name followed by the branch's name. |
| `Models.BaZiChart.AllPillars` | src/core/models.py:73-75 | Exactly four pillars, in the order year, month, day, hour. |
| `Models.BaZiChart.AllGans` | src/core/models.py:77-79 | Four names: the stem name of each pillar, in pillar order. |
| `Models.BaZiChart.AllZhis` | src/core/models.py:81-83 | Four names: the branch name of each pillar, in pillar order. |
| `Models.ElementStrength.constructor` | src/core/models.py:93-99 | A fresh accumulator set is zero for every element, and its total is 0. |
| `Models.ElementStrength.Values` | src/core/models.py:95-99 | Five values, one accumulator per element, in declaration order 木火土金水. |
| `Models.TotalIsSumOverElements` | src/core/models.py:101-103 | The total is the sum of the five accumulators, taken over the element enumeration. |
| `Calculator.FirstIndex` | src/core/calculator.py:34-37 | Finds the first sixty-cycle entry with the given name; `None` means no entry has that name. |
| `Calculator.CreateGanZhi` | src/core/calculator.py:22-44 | Succeeds exactly when both names are dictionary keys and in the fixed lists. Otherwise it gives the error of the first lookup that fails (`KeyError` from a dictionary, `ValueError` from a list). On success the pair holds the tables' own stem and branch, is named stem+branch, and is numbered by the first cycle entry with that name (1 when there is none or the key is 0). Under valid tables the name is the full name and the pair resolves. |
| `Calculator.CycleNumberOfListedName` | src/core/calculator.py:32-43 | With unique names in the cycle table, a listed name gets its own entry's non-zero key. |
| `Calculator.CycleNumbersAreDistinct` | src/core/calculator.py:32-43 | With keys 1..60 that are distinct and unique names, two different listed pairs get two different numbers in 1..60. |
| `Calculator.CalculateBaZi` | src/core/calculator.py:70-116 | Succeeds exactly when all four pairs resolve. Otherwise it gives the error of the first failing pair, in the order year, month, day, hour. On success each pillar holds the pair built from the calendar's names, its role, the birth moment and its lunar label. The birth information records the moment, the lunar date, the sex and the offset. |
| `Calculator.BuiltChartHolds` | src/core/calculator.py:70-116 | An assembled chart holds the tables' own entries. Its stems and branches are the calendar's names, pillar by pillar. |
| `Calculator.AddElementStrength` | src/core/calculator.py:150-161 | Only the named element's accumulator grows, by exactly the given power. The total grows by the same amount. |
| `Calculator.CalculateElementStrength` | src/core/calculator.py:118-148 | A fresh accumulator set. Each element gets 10 per stem of that element, 12 per branch of that element, and each hidden stem's weight (times 1) added to that stem's element, over the four pillars. |
| `Calculator.AddPillarStrength` | src/core/calculator.py:129-146 | One pass of the scoring loop adds exactly the pillar's power to each element: its stem's and branch's base weights and its hidden stems' weights. |
| `Calculator.HiddenPowerSumsToWeights` | src/core/calculator.py:140-146 | The hidden-stem contributions to the five elements add up to the sum of the hidden weights. |
| `Calculator.ChartTotalFormula` | src/core/calculator.py:129-146 | Over any pillars, the summed power is 22 per pillar plus the pillars' hidden weights. |
| `Calculator.StrengthTotal` | src/core/calculator.py:118-148 | The computed strength totals 4·10 + 4·12 plus the hidden weights of the four pillars. |
| `Calculator.HiddenPowerNonNegative` | src/core/calculator.py:140-146 | Non-negative hidden weights never lower an element. |
| `Calculator.ChartPowerNonNegative` | src/core/calculator.py:129-146 | No element's power is negative when the hidden weights are non-negative. |
| `Calculator.ValidChartStrengthPositive` | src/core/calculator.py:118-148 | For a chart built from valid tables, every accumulator is non-negative and the total is at least 88, so never zero. |
| `Calculator.PillarsWeightNonNegative` | src/core/calculator.py:140-146 | The hidden weights of a pillar sequence add up to a non-negative amount. |
| `Calculator.WeightSumNonNegative` | src/core/calculator.py:140-146 | One branch's hidden weights add up to a non-negative amount. |
| `Calculator.ClassifySelf` | src/core/calculator.py:178-179 | A stem compared with itself is 比肩. |
| `Calculator.CycleRelationsPartition` | src/core/calculator.py:191-212 | For two different elements exactly one of four relations holds: the first generates the second, the first controls the second, the second controls the first, or the second generates the first. |
| `Calculator.ClassifyIsTotal` | src/core/calculator.py:163-189 | The 未知 fallback is unreachable. The label is one of the ten gods, and it is in the same-polarity five exactly when the polarities agree. |
| `Calculator.ClassifyByCycleDistance` | src/core/calculator.py:178-187 | The god is decided by the target's distance from the day stem's element along the generating cycle (0 same, 1 output, 2 wealth, 3 officer, 4 resource), then by polarity. |
| `Calculator.CyclesHaveLengthFive` | src/core/calculator.py:191-212 | Generating returns to the start after exactly five steps and not before. Controlling is two generating steps, and five controls also return to the start. |
| `Calculator.TenGodsRelationshipTotal` | src/core/calculator.py:163-189 | For two stems of valid tables the lookup succeeds and yields one of the ten gods. The day stem against itself yields 比肩. |
| `Analysis.AnalyzeTenGods` | src/analysis/analyzer.py:70-88 | The map is the fold over the pillars in order, skipping the day pillar. Each other pillar contributes `{label}干_{stem}` and `{label}支藏干_{hidden}` for each hidden stem different from the day stem, mapped to its god. |
| `Analysis.KeysDecode` | src/analysis/analyzer.py:79-86 | Both key shapes start with the pillar label, then 干 or 支, and give back the stem name after the `_`. |
| `Analysis.HiddenGodsGood` | src/analysis/analyzer.py:83-86 | Each hidden-stem entry maps its key's stem to that stem's god against the day stem, never from a day key. |
| `Analysis.TenGodsGood` | src/analysis/analyzer.py:75-86 | Every entry of the map is well formed in that sense. |
| `Analysis.TenGodsSound` | src/analysis/analyzer.py:70-88 | No key comes from the day pillar. Every value is the god of the stem its key names. No hidden-stem key names the day stem itself. |
| `Analysis.HiddenGodsGrow` | src/analysis/analyzer.py:83-86 | Entries are only added. Every hidden stem other than the day stem gets its key. |
| `Analysis.TenGodsGrow` | src/analysis/analyzer.py:75-86 | A non-day pillar's stem key, and its hidden keys other than the day stem, are in the final map. |
| `Analysis.TenGodsComplete` | src/analysis/analyzer.py:75-86 | Every non-day pillar's stem key, and every hidden key other than the day stem's, is in the map. |
| `Analysis.ValidChartKnown` | src/analysis/analyzer.py:72-86 | For a chart built from valid tables, every name the analysis looks up is in the stem list and the dictionary, so it raises nothing. |
| `Analysis.YangIsEvenPosition` | src/analysis/analyzer.py:231-238 | A stem or branch is yang exactly when its position in the fixed list is even. Every yang character is a stem or a branch. Yin is exactly not yang. |
| `Analysis.SeasonOfBranchPosition` | src/analysis/analyzer.py:250-258 | Branch j lies in season ((j+10) mod 12) div 3 (寅卯辰 spring, and so on, 亥子丑 winter). Any other string is 未知月份. |
| `Analysis.AnalyzeSpecialPatterns` | src/analysis/analyzer.py:90-113 | 四柱全阳 is listed exactly when all eight characters are yang, and 四柱全阴 exactly when all are yin; never both. 木火通明 and 金水相涵 are always the last two entries. There are three entries exactly when the chart is all yang or all yin, two otherwise. |
| `Analysis.AnalyzeMonthly` | src/analysis/analyzer.py:115-130 | The table's "title: analysis" for the day stem in the month branch's season, else the generic sentence naming the day stem and the season. |
| `Analysis.AnalyzeTime` | src/analysis/analyzer.py:132-148 | The table entry for day stem + 日 + hour pair, followed by its exact day/hour combination text when that is non-empty, else the generic sentence. |
| `Analysis.FirstMax` | src/analysis/analyzer.py:172 | The index of a maximum. Every earlier value is strictly smaller, so it is the first maximum. |
| `Analysis.FirstMin` | src/analysis/analyzer.py:173 | The index of a minimum. Every earlier value is strictly larger, so it is the first minimum. |
| `Analysis.ShareComparisonsAreExact` | src/analysis/analyzer.py:187-189 | The integer share tests equal the real-number comparisons `d / total > num / den` and `<`, for either sign of the total. |
| `Analysis.BalanceLine` | src/analysis/analyzer.py:178-181 | "Balanced" exactly when the spread is below 0.3 of the total; otherwise "imbalanced". |
| `Analysis.DayMasterLine` | src/analysis/analyzer.py:187-192 | Strong exactly when the share exceeds 0.3. Weak exactly when it does not and is below 0.15. Moderate otherwise. |
| `Analysis.DayMasterBoundsAreModerate` | src/analysis/analyzer.py:187-192 | A share of exactly 0.3 or exactly 0.15 is judged moderate. |
| `Analysis.JoinEndsWithLast` | src/analysis/analyzer.py:194 | A space-joined summary ends with its last sentence. |
| `Analysis.SummaryEndsWithDayMaster` | src/analysis/analyzer.py:175-194 | A three-sentence summary ends with its day-master sentence. |
| `Analysis.StrongIsNotWeak` | src/analysis/analyzer.py:187-190 | A summary ending with the "strong" sentence does not end with the "weak" one. |
| `Analysis.SummarizeFortune` | src/analysis/analyzer.py:150-194 | For any day-master strength d: a zero total raises `ZeroDivisionError`. A positive total gives the first strongest/weakest sentence, "balanced" exactly when the spread is below 0.3 of the total, then the day-master sentence for the share d/total, joined by spaces. A negative total gives the day-master sentence alone. |
| `Analysis.AnalyzeGeneralFortune` | src/analysis/analyzer.py:150-194 | A zero total raises `ZeroDivisionError`. A positive total gives strongest/weakest, balance and day master, joined by spaces. A negative total gives the day-master sentence alone. The day master is judged by its own element's share. |
| `Analysis.AnalyzeGeneralFortuneAsWritten` | src/analysis/analyzer.py:150-194 | The summary the program prints, with the day stem's strength read as the source does (always 0). A positive total gives the first strongest/weakest sentence, the balance sentence (balanced exactly when the spread is below 0.3 of the total), then the "weak" sentence. A negative total gives the "weak" sentence alone. Every non-zero total ends "weak". The only error is `ZeroDivisionError`, raised exactly when the total is zero. |
| `Analysis.ZeroShareIsWeak` | src/analysis/analyzer.py:186-190 | A day strength of 0 is judged weak for every non-zero total, positive or negative. |
| `Analysis.WeakSummaryEndsWeak` | src/analysis/analyzer.py:175-194 | Both shapes of the as-written summary end with the "weak" sentence. |
| `Analysis.DayMasterAsWrittenDiffers` | src/analysis/analyzer.py:184-192 | Whenever the day stem's element holds more than 0.3 of a positive total, the as-written summary ends "weak", the corrected one ends "strong", and so they differ. |
| `Analysis.DayMasterAsWrittenCounterexample` | src/analysis/analyzer.py:184-192 | For 木 = 60 and the others 10 with a 甲 day stem, the as-written summary says weak and the corrected one says strong. |
| `Analysis.GenerateRecommendations` | src/analysis/analyzer.py:196-225 | Nothing for a non-positive total. Otherwise the three pieces of advice for the first weakest element, each prefixed 补充{element}之不足：, where that element is no stronger than any other. |
| `Analysis.AnalyzeChart` | src/analysis/analyzer.py:35-68 | The result carries the chart, a fresh strength equal to the chart's power, which totals at least 88, the Ten Gods map, and the monthly and hour commentary. It always has a summary and three recommendations. |
| `BaZiUtils.CheckGanHe` | src/utils/helpers.py:13-19 | Only two different stems combine. |
| `BaZiUtils.CheckGanChong` | src/utils/helpers.py:22-27 | Only two different stems clash. |
| `BaZiUtils.CheckZhiHe` | src/utils/helpers.py:30-36 | Only two different branches combine. |
| `BaZiUtils.CheckZhiChong` | src/utils/helpers.py:39-45 | Only two different branches clash. |
| `BaZiUtils.CheckZhiHarm` | src/utils/helpers.py:70-76 | Only two different branches harm each other. |
| `BaZiUtils.PairRelationsSymmetric` | src/utils/helpers.py:13-76 | All five pair relations are symmetric and irreflexive. |
| `BaZiUtils.CheckZhiXing` | src/utils/helpers.py:48-67 | The loop returns the report of the first matching punishment group, or "". |
| `BaZiUtils.MatchXingGroup` | src/utils/helpers.py:58-65 | One group's report: non-empty exactly when the group has two members and two of the branches lie in it, or three members all present, or one member occurring twice. |
| `BaZiUtils.FirstXingIsFirstMatch` | src/utils/helpers.py:58-65 | When group k matches and no earlier group does, group k's report is returned. |
| `BaZiUtils.FirstXingEmptyIffNoMatch` | src/utils/helpers.py:58-67 | The result is "" exactly when no group matches. |
| `BaZiUtils.XingGroupsMatch` | src/utils/helpers.py:50-65 | Every group has two or three members, so the 自刑 branch is unreachable. A pair group matches when at least two of the three branches lie in it. A triple group matches when all its members are present. |
| `BaZiUtils.XingPairExample` | src/utils/helpers.py:50-61 | [子,子,午] reports 子卯相刑: the pair group matches on any two branches lying in it. |
| `BaZiUtils.XingTrineExample` | src/utils/helpers.py:50-63 | [申,巳,寅] reports 寅巳申三刑, the members in the group's order. |
| `BaZiUtils.Present` | src/utils/helpers.py:96-97 | The found members are exactly the pattern members that occur among the branches. |
| `BaZiUtils.PresentKeepsOrder` | src/utils/helpers.py:96-97 | The found members keep the pattern's order: they are a subsequence of it. |
| `BaZiUtils.PresentOfThree` | src/utils/helpers.py:96-97 | For a three-member pattern, the found list is each member that occurs, in pattern order. |
| `BaZiUtils.PresentOfTwo` | src/utils/helpers.py:95-97 | Two members present and the third absent: exactly those two are found, in pattern order. |
| `BaZiUtils.CheckZhiJu` | src/utils/helpers.py:79-104 | The result is the in-order report of the five combination patterns over the branches. |
| `BaZiUtils.JuOfSnoc` | src/utils/helpers.py:90-102 | Each pattern appends its own report after those of the earlier patterns. |
| `BaZiUtils.PresentMissesAbsent` | src/utils/helpers.py:96-97 | A missing member makes the found list shorter than the pattern. |
| `BaZiUtils.TrineFromOwnEntry` | src/utils/helpers.py:90-98 | A trine's 三合 report can come only from that trine's own entry, never from another pattern's. |
| `BaZiUtils.TrineEntryWhenComplete` | src/utils/helpers.py:91-94 | A complete three-member pattern reports `{name}三合`. |
| `BaZiUtils.TrineReported` | src/utils/helpers.py:90-98 | For any five well-shaped patterns, a trine's 三合 is reported exactly when all its members are present. |
| `BaZiUtils.StorehouseReported` | src/utils/helpers.py:99-102 | For any five well-shaped patterns, the storehouse's name is reported exactly when at least three of its members are present. |
| `BaZiUtils.TrinesReported` | src/utils/helpers.py:82-94 | For each of 木火金水, `{name}三合` is reported exactly when all three of its branches are present. |
| `BaZiUtils.EarthStorehouse` | src/utils/helpers.py:86-102 | 土局 is reported exactly when at least three of 辰戌丑未 are present. |
| `BaZiUtils.HalfCombination` | src/utils/helpers.py:95-98 | With 亥 and 未 present and 卯 absent, the wood pattern reports 亥未半合木局. |
| `BaZiUtils.HalfEntry` | src/utils/helpers.py:91-98 | A three-member pattern with members i < j present and the third absent reports `{m[i]}{m[j]}半合{name}`. |
| `BaZiUtils.HalfCombinations` | src/utils/helpers.py:81-98 | For each of the four trines and any two of its members present with the third absent, the trine's entry is the two found members in trine order, then 半合 and its name. |
| `BaZiUtils.GetEmptyDeathAsWritten` | src/utils/helpers.py:107-119 | The loop returns 戌亥 for every day pillar starting with 甲 and nothing otherwise. |
| `BaZiUtils.IndexOf` | src/utils/helpers.py:115-117 | The first position of a name, or -1 when it is absent. |
| `BaZiUtils.GetEmptyDeath` | src/utils/helpers.py:107-119 | Two void branches or none; it is `VoidsIn` for the fixed stem and branch orders. |
| `BaZiUtils.VoidsIn` | src/utils/helpers.py:107-119 | Two void branches exactly when the day pillar is two characters, a listed stem then a listed branch, with positions of equal parity; none otherwise. |
| `BaZiUtils.VoidsOfPositions` | src/utils/helpers.py:109-112 | Two voids exactly when the stem and branch positions have equal parity, else none. |
| `BaZiUtils.NamesAreDistinctCharacters` | src/utils/helpers.py:109-112 | The stem and branch names are distinct single characters. |
| `BaZiUtils.IndexOfDistinct` | src/utils/helpers.py:115-117 | In a list without repeats, a name's position is its index. |
| `BaZiUtils.EmptyDeathOfPositions` | src/utils/helpers.py:109-112 | For stem g and branch z, the voids are branches (z−g+10) mod 12 and (z−g+11) mod 12. |
| `BaZiUtils.DecadeContainsPair` | src/utils/helpers.py:109-112 | The pair lies in the decade (旬) starting at branch (z−g) mod 12. |
| `BaZiUtils.VoidsOutsideDecade` | src/utils/helpers.py:109-112 | The two voids are the two branches the decade's ten stems do not reach. |
| `BaZiUtils.VoidsFollowDecade` | src/utils/helpers.py:109-119 | The voids are the 11th and 12th branches counted from the decade's start. |
| `BaZiUtils.TableRow` | src/utils/helpers.py:109-112 | Each row of the table is a 甲 pair, with the voids that follow its decade. |
| `BaZiUtils.EmptyDeathAgreesWithTable` | src/utils/helpers.py:109-112 | The corrected lookup returns each of the six table rows' own void pair. |
| `BaZiUtils.EmptyDeathAsWrittenCounterexample` | src/utils/helpers.py:110-117 | For 甲戌 the as-written loop returns 戌亥, while the table and the corrected lookup give 申酉. |
| `BaZiUtils.EmptyDeathYiChouCounterexample` | src/utils/helpers.py:110-119 | For 乙丑 the as-written loop returns nothing, while the corrected lookup gives its decade's 戌亥. |
| `BaZiUtils.YangCount` | src/utils/helpers.py:127-138 | At most two yang marks per pillar. |
| `BaZiUtils.CalculateYinyangScore` | src/utils/helpers.py:122-140 | The keys are exactly 阳 and 阴. 阳 counts the yang stems and branches of the four pillars, and the two counts add up to 8. |

## Left out

- The calendar conversion (the `lunar_python` library's solar-to-lunar conversion and its eight characters) is not modelled. `CalculateBaZi` takes its output, `EightChar` and `LunarDate`, as parameters.
- `src/data/loader.py` is not part of this model. The stem, branch and sixty-cycle tables are a `Tables` parameter, and `Valid` states what the data is relied on to satisfy. The sixty-cycle numbers are taken already parsed: the source's keys are JSON strings converted with `int(num)`, and the `ValueError` a non-numeric key of the matching entry would raise there is not modelled.
- The analyzer's JSON files are not read. The monthly and hour commentary are maps in `BaZiAnalyzer`, and a missing file is the same as an empty map.
- An entry in those files that is an empty dictionary (falsy in Python), or that lacks `title` or `analysis`, is not representable. Every entry has both fields.
- Floating point is not modelled. Weights are integers, and ratios are compared exactly by cross-multiplication, so IEEE rounding at a threshold is not reproduced.
- Pydantic validation and serialisation of the models, and the unused `TenGods` record, are not modelled.
- `format_chart_display`, the colour helpers and the other helpers outside the `BaZiUtils` checks listed above are not part of this model, nor are the command-line and server front ends.
- `CalculateBaZi` records no time zone handling. The offset is stored as given, as the source does.
- `Analysis.AnalyzeChart`: it composes the corrected day-master summary (`AnalyzeGeneralFortune`), not the source's as-written one, which says 日主偏弱 for every non-zero total (see Findings and `AnalyzeGeneralFortuneAsWritten`). Its contract does not restate the special patterns, the exact summary or the exact recommendations. Those are stated by `AnalyzeSpecialPatterns`, `AnalyzeGeneralFortune` and `GenerateRecommendations`, which it calls.
- The Ten Gods result is a Dafny `map`, which has no order. The source's dictionary keeps insertion order (year, month, hour, and each pillar's stem before its hidden stems), which only the command-line display loop relies on.
- `CalculateBaZi` takes the sex and the time-zone offset explicitly. The source's defaults, `is_male=True` and `timezone_offset=8`, are not modelled.
- `BaZiUtils.CheckZhiXing`: the source's guard `all(zhi in group for zhi in zhis if zhi in group)` always holds. It is kept in the loop body (`MatchXingGroup`) but plays no part in the contract.
- `BaZiUtils.CheckZhiXing`: the self-punishment groups have two members, so a repeated 辰 reports "辰辰相刑", never "辰自刑". A group counts branches that lie in it rather than distinct members, so [子,子,午] reports 子卯相刑. Both are modelled as written.

## Findings

| source | as written | input that shows it | evidently intended | confidence | as-written member | corrected member |
|---|---|---|---|---|---|---|
| src/analysis/analyzer.py:184-192 | The day master's strength is read with `getattr(element_strength, "木".lower(), 0)`. The element's Chinese character names no field, so the strength is always 0, and every chart is judged "日主偏弱". | Accumulators 木 = 60, the other four 10, day stem 甲 (wood): the share is 0.6, yet the summary says weak. | Read the accumulator of the day stem's element (`wood` for 木, …), which gives "日主偏强" here. | not executed | `Analysis.AnalyzeGeneralFortuneAsWritten`, `Analysis.DayMasterAsWrittenDiffers`, `Analysis.DayMasterAsWrittenCounterexample` | `Analysis.AnalyzeGeneralFortune` |
| src/utils/helpers.py:115-119 | The decade test `day_pillar.startswith(xun[0])` compares only the first character, 甲, of each table key. Every pillar starting with 甲 gets the first row's 戌亥, and every other pillar gets []. | 甲戌: returns 戌亥, but the table's own row says 申酉. 乙丑 (decade 甲子) returns []. | Find the decade (旬) the day pillar belongs to and return its two void branches, as the table lists them. | not executed | `BaZiUtils.GetEmptyDeathAsWritten`, `BaZiUtils.EmptyDeathAsWrittenCounterexample`, `BaZiUtils.EmptyDeathYiChouCounterexample` | `BaZiUtils.GetEmptyDeath`, `BaZiUtils.EmptyDeathAgreesWithTable` |
