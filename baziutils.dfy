/** The stem and branch relation checks: the symmetric pair tables (合, 冲,
    害), the punishments (刑), the branch combinations (三合, 半合, 四库土局),
    the void branches (空亡) and the yin/yang count of a chart. */
module BaZiUtils {
  import opened Models
  import opened Reference

  // ---------------------------------------------------------------------
  // Pair tables
  // ---------------------------------------------------------------------

  const GanHePairs: seq<(string, string)> := [("甲", "己"), ("乙", "庚"), ("丙", "辛"), ("丁", "壬"), ("戊", "癸")]
  const GanChongPairs: seq<(string, string)> := [("甲", "庚"), ("乙", "辛"), ("丙", "壬"), ("丁", "癸")]
  const ZhiHePairs: seq<(string, string)> :=
    [("子", "丑"), ("寅", "亥"), ("卯", "戌"), ("辰", "酉"), ("巳", "申"), ("午", "未")]
  const ZhiChongPairs: seq<(string, string)> :=
    [("子", "午"), ("丑", "未"), ("寅", "申"), ("卯", "酉"), ("辰", "戌"), ("巳", "亥")]
  const ZhiHarmPairs: seq<(string, string)> :=
    [("子", "未"), ("丑", "午"), ("寅", "巳"), ("卯", "辰"), ("申", "亥"), ("酉", "戌")]

  /** The two names form a listed pair, in either order. */
  predicate Related(pairs: seq<(string, string)>, a: string, b: string) {
    (a, b) in pairs || (b, a) in pairs
  }

  /** 天干相合: only distinct stems combine. */
  function CheckGanHe(gan1: string, gan2: string): (r: bool)
    ensures r ==> gan1 != gan2 && gan1 in TianganList && gan2 in TianganList
  {
    Related(GanHePairs, gan1, gan2)
  }

  /** 天干相冲: only distinct stems clash. */
  function CheckGanChong(gan1: string, gan2: string): (r: bool)
    ensures r ==> gan1 != gan2 && gan1 in TianganList && gan2 in TianganList
  {
    Related(GanChongPairs, gan1, gan2)
  }

  /** 地支相合: only distinct branches combine. */
  function CheckZhiHe(zhi1: string, zhi2: string): (r: bool)
    ensures r ==> zhi1 != zhi2 && zhi1 in DizhiList && zhi2 in DizhiList
  {
    Related(ZhiHePairs, zhi1, zhi2)
  }

  /** 地支相冲: only distinct branches clash. */
  function CheckZhiChong(zhi1: string, zhi2: string): (r: bool)
    ensures r ==> zhi1 != zhi2 && zhi1 in DizhiList && zhi2 in DizhiList
  {
    Related(ZhiChongPairs, zhi1, zhi2)
  }

  /** 地支相害: only distinct branches harm each other. */
  function CheckZhiHarm(zhi1: string, zhi2: string): (r: bool)
    ensures r ==> zhi1 != zhi2 && zhi1 in DizhiList && zhi2 in DizhiList
  {
    Related(ZhiHarmPairs, zhi1, zhi2)
  }

  /** The pair relations are symmetric and irreflexive. */
  lemma PairRelationsSymmetric(a: string, b: string)
    ensures CheckGanHe(a, b) == CheckGanHe(b, a) && CheckGanChong(a, b) == CheckGanChong(b, a)
    ensures CheckZhiHe(a, b) == CheckZhiHe(b, a) && CheckZhiChong(a, b) == CheckZhiChong(b, a)
    ensures CheckZhiHarm(a, b) == CheckZhiHarm(b, a)
    ensures !CheckGanHe(a, a) && !CheckGanChong(a, a)
    ensures !CheckZhiHe(a, a) && !CheckZhiChong(a, a) && !CheckZhiHarm(a, a)
  {
  }

  // ---------------------------------------------------------------------
  // Punishments (三刑)
  // ---------------------------------------------------------------------

  /** The punishment groups, in the order they are tried. */
  const XingGroups: seq<seq<string>> :=
    [["子", "卯"], ["寅", "巳", "申"], ["丑", "未", "戌"], ["辰", "辰"], ["午", "午"], ["酉", "酉"], ["亥", "亥"]]

  /** `''.join(parts)`. */
  function Concat(parts: seq<string>): string {
    if parts == [] then "" else parts[0] + Concat(parts[1..])
  }

  /** The number of elements of `zhis` that lie in `group`. */
  function CountIn(zhis: seq<string>, group: seq<string>): nat {
    if zhis == [] then 0 else (if zhis[0] in group then 1 else 0) + CountIn(zhis[1..], group)
  }

  /** The number of occurrences of `x` in `zhis`. */
  function Count(zhis: seq<string>, x: string): nat {
    if zhis == [] then 0 else (if zhis[0] == x then 1 else 0) + Count(zhis[1..], x)
  }

  /** What one group reports, "" when it does not match. */
  function GroupXing(group: seq<string>, zhis: seq<string>): string {
    if |group| == 2 && CountIn(zhis, group) >= 2 then Concat(group) + "相刑"
    else if |group| == 3 && (forall g | g in group :: g in zhis) then Concat(group) + "三刑"
    else if |group| == 1 && Count(zhis, group[0]) >= 2 then group[0] + "自刑"
    else ""
  }

  /** The report of the first matching group of `groups`, or "". */
  function FirstXing(groups: seq<seq<string>>, zhis: seq<string>): string {
    if groups == [] then ""
    else if GroupXing(groups[0], zhis) != "" then GroupXing(groups[0], zhis)
    else FirstXing(groups[1..], zhis)
  }

  /** Checks three branches against the punishment groups in order and
      reports the first that matches. */
  method CheckZhiXing(zhi1: string, zhi2: string, zhi3: string) returns (r: string)
    ensures r == FirstXing(XingGroups, [zhi1, zhi2, zhi3])
  {
    var zhis := [zhi1, zhi2, zhi3];
    for i := 0 to |XingGroups|
      invariant FirstXing(XingGroups, zhis) == FirstXing(XingGroups[i..], zhis)
    {
      assert XingGroups[i..][1..] == XingGroups[i + 1..];
      var report := MatchXingGroup(XingGroups[i], zhis);
      if report != "" {
        return report;
      }
    }
    return "";
  }

  /** One pass of the loop above: the report of `group`, "" when it does
      not match. */
  method MatchXingGroup(group: seq<string>, zhis: seq<string>) returns (r: string)
    ensures r == GroupXing(group, zhis)
    ensures r != "" <==>
      || (|group| == 2 && CountIn(zhis, group) >= 2)
      || (|group| == 3 && forall g | g in group :: g in zhis)
      || (|group| == 1 && Count(zhis, group[0]) >= 2)
  {
    r := "";
    if forall z | z in zhis && z in group :: z in group {
      if |group| == 2 && CountIn(zhis, group) >= 2 {
        r := Concat(group) + "相刑";
      } else if |group| == 3 && forall g | g in group :: g in zhis {
        r := Concat(group) + "三刑";
      } else if |group| == 1 && Count(zhis, group[0]) >= 2 {
        r := group[0] + "自刑";
      }
    }
  }

  /** The report is that of the first matching group, and "" exactly when
      no group matches. */
  lemma {:induction false} FirstXingIsFirstMatch(groups: seq<seq<string>>, zhis: seq<string>, k: nat)
    requires k < |groups| && GroupXing(groups[k], zhis) != ""
    requires forall j | 0 <= j < k :: GroupXing(groups[j], zhis) == ""
    ensures FirstXing(groups, zhis) == GroupXing(groups[k], zhis)
  {
    if k > 0 {
      assert GroupXing(groups[0], zhis) == "";
      FirstXingIsFirstMatch(groups[1..], zhis, k - 1);
    }
  }

  lemma {:induction false} FirstXingEmptyIffNoMatch(groups: seq<seq<string>>, zhis: seq<string>)
    ensures FirstXing(groups, zhis) == "" <==> forall j | 0 <= j < |groups| :: GroupXing(groups[j], zhis) == ""
  {
    if groups != [] {
      FirstXingEmptyIffNoMatch(groups[1..], zhis);
      if GroupXing(groups[0], zhis) == "" {
        forall j | 0 <= j < |groups| && j > 0 ensures GroupXing(groups[j], zhis) == GroupXing(groups[1..][j - 1], zhis) {
        }
      }
    }
  }

  /** How each listed group matches: a two-member group when at least two of
      the branches lie in it, a three-member group only when all three of
      its members are present; no group has one member, so a 自刑 report
      never comes out, and a repeated branch is reported as "辰辰相刑" and
      the like. */
  lemma XingGroupsMatch(zhis: seq<string>)
    ensures forall k | 0 <= k < |XingGroups| :: |XingGroups[k]| == 2 || |XingGroups[k]| == 3
    ensures forall k | 0 <= k < |XingGroups| && |XingGroups[k]| == 2 ::
      GroupXing(XingGroups[k], zhis) != "" <==> CountIn(zhis, XingGroups[k]) >= 2
    ensures forall k | 0 <= k < |XingGroups| && |XingGroups[k]| == 3 ::
      GroupXing(XingGroups[k], zhis) != "" <==> forall g | g in XingGroups[k] :: g in zhis
  {
  }

  /** Two 子 and a 午 report 子卯相刑: a group of two matches on any two
      branches lying in it. */
  lemma {:induction false} XingPairExample()
    ensures FirstXing(XingGroups, ["子", "子", "午"]) == "子卯相刑"
  {
    var g := XingGroups;
    assert Concat(g[0]) == "子卯" by {
      assert g[0][1..][1..] == [];
    }
    assert CountIn(["子", "子", "午"], g[0]) == 2 by {
      assert ["子", "子", "午"][1..][1..][1..] == [];
    }
  }

  /** 申巳寅 reports 寅巳申三刑, the members in the group's order. */
  lemma {:induction false} XingTrineExample()
    ensures FirstXing(XingGroups, ["申", "巳", "寅"]) == "寅巳申三刑"
  {
    var g := XingGroups;
    var ys := ["申", "巳", "寅"];
    assert ys[1..] == ["巳", "寅"] && ys[1..][1..] == ["寅"] && ys[1..][1..][1..] == [];
    assert CountIn(ys, g[0]) == 0;
    assert g[1][1..] == ["巳", "申"] && g[1][1..][1..] == ["申"] && g[1][1..][1..][1..] == [];
    assert Concat(g[1]) == "寅巳申";
    FirstXingIsFirstMatch(g, ys, 1);
  }

  // ---------------------------------------------------------------------
  // Combinations (合局)
  // ---------------------------------------------------------------------

  /** A combination pattern: its members and its name. */
  datatype JuPattern = JuPattern(members: seq<string>, name: string)

  /** The four trines and the four storehouses, in the order they are tried. */
  const JuPatterns: seq<JuPattern> := [
    JuPattern(["亥", "卯", "未"], "木局"),
    JuPattern(["寅", "午", "戌"], "火局"),
    JuPattern(["巳", "酉", "丑"], "金局"),
    JuPattern(["申", "子", "辰"], "水局"),
    JuPattern(["辰", "戌", "丑", "未"], "土局")
  ]

  /** The members of the pattern present among `zhis`, in pattern order. */
  function Present(members: seq<string>, zhis: seq<string>): (found: seq<string>)
    ensures |found| <= |members|
    ensures forall x | x in found :: x in members && x in zhis
    ensures forall x | x in members && x in zhis :: x in found
  {
    if members == [] then []
    else if members[0] in zhis then [members[0]] + Present(members[1..], zhis)
    else Present(members[1..], zhis)
  }

  /** `a` is `b` with some elements left out, the rest kept in order. */
  predicate IsSubsequence(a: seq<string>, b: seq<string>)
    decreases |b|
  {
    if a == [] then true
    else if b == [] then false
    else (a[0] == b[0] && IsSubsequence(a[1..], b[1..])) || IsSubsequence(a, b[1..])
  }

  /** The members found keep the order they have in the pattern. */
  lemma {:induction false} PresentKeepsOrder(members: seq<string>, zhis: seq<string>)
    ensures IsSubsequence(Present(members, zhis), members)
  {
    if members != [] {
      var rest := Present(members[1..], zhis);
      PresentKeepsOrder(members[1..], zhis);
      if members[0] in zhis {
        assert ([members[0]] + rest)[1..] == rest;
      }
    }
  }

  /** The entry one pattern contributes, if any. */
  function JuEntry(p: JuPattern, zhis: seq<string>): (r: seq<string>)
    ensures |r| <= 1
  {
    if |p.members| == 3 then
      if forall m | m in p.members :: m in zhis then [p.name + "三合"]
      else if |Present(p.members, zhis)| >= 2 then [Concat(Present(p.members, zhis)) + "半合" + p.name]
      else []
    else if |Present(p.members, zhis)| >= 3 then [p.name]
    else []
  }

  /** The entries of `pats`, pattern by pattern. */
  function JuOf(pats: seq<JuPattern>, zhis: seq<string>): (r: seq<string>)
    ensures |r| <= |pats|
  {
    if pats == [] then [] else JuOf(pats[..|pats| - 1], zhis) + JuEntry(pats[|pats| - 1], zhis)
  }

  /** Lists the combinations among the branches `zhis`, in pattern order. */
  method CheckZhiJu(zhis: seq<string>) returns (results: seq<string>)
    ensures results == JuOf(JuPatterns, zhis)
  {
    results := [];
    var pats := JuPatterns;
    for i := 0 to |pats|
      invariant results == JuOf(pats[..i], zhis)
    {
      ghost var before := results;
      var pattern := pats[i].members;
      var name := pats[i].name;
      if |pattern| == 3 {
        if forall p | p in pattern :: p in zhis {
          results := results + [name + "三合"];
        } else if |Present(pattern, zhis)| >= 2 {
          var found := Present(pattern, zhis);
          results := results + [Concat(found) + "半合" + name];
        }
      } else {
        if |Present(pattern, zhis)| >= 3 {
          results := results + [name];
        }
      }
      assert results == before + JuEntry(pats[i], zhis);
      JuOfSnoc(pats, zhis, i);
    }
    assert pats[..|pats|] == pats;
  }

  lemma JuOfSnoc(pats: seq<JuPattern>, zhis: seq<string>, i: nat)
    requires i < |pats|
    ensures JuOf(pats[..i + 1], zhis) == JuOf(pats[..i], zhis) + JuEntry(pats[i], zhis)
  {
    assert pats[..i + 1][..i] == pats[..i];
  }

  /** Five patterns' result is their entries, in pattern order. */
  lemma JuOfFive(pats: seq<JuPattern>, zhis: seq<string>)
    requires |pats| == 5
    ensures JuOf(pats, zhis) ==
      JuEntry(pats[0], zhis) + JuEntry(pats[1], zhis) + JuEntry(pats[2], zhis)
      + JuEntry(pats[3], zhis) + JuEntry(pats[4], zhis)
  {
    var e0, e1, e2 := JuEntry(pats[0], zhis), JuEntry(pats[1], zhis), JuEntry(pats[2], zhis);
    var e3, e4 := JuEntry(pats[3], zhis), JuEntry(pats[4], zhis);
    assert JuOf(pats[..1], zhis) == e0 by {
      assert pats[..0] == [];
      JuOfSnoc(pats, zhis, 0);
    }
    assert JuOf(pats[..2], zhis) == e0 + e1 by { JuOfSnoc(pats, zhis, 1); }
    assert JuOf(pats[..3], zhis) == e0 + e1 + e2 by { JuOfSnoc(pats, zhis, 2); }
    assert JuOf(pats[..4], zhis) == e0 + e1 + e2 + e3 by { JuOfSnoc(pats, zhis, 3); }
    assert JuOf(pats[..5], zhis) == e0 + e1 + e2 + e3 + e4 by { JuOfSnoc(pats, zhis, 4); }
    assert pats[..5] == pats;
  }

  /** Joining one-character names gives as many characters as names. */
  lemma {:induction false} ConcatOfSingles(parts: seq<string>)
    requires forall x | x in parts :: |x| == 1
    ensures |Concat(parts)| == |parts|
  {
    if parts != [] {
      assert parts[0] in parts;
      assert forall x | x in parts[1..] :: x in parts;
      ConcatOfSingles(parts[1..]);
    }
  }

  /** A missing member shortens the found list. */
  lemma {:induction false} PresentMissesAbsent(members: seq<string>, zhis: seq<string>, m: string)
    requires m in members && m !in zhis
    ensures |Present(members, zhis)| < |members|
  {
    if members[0] != m {
      PresentMissesAbsent(members[1..], zhis, m);
    }
  }

  /** A trine of one-character members reports "{name}三合" only when all
      members are present; any other entry it makes is a six-character
      half combination "{found}半合{name}" with exactly two found members. */
  lemma TrineEntryShape(p: JuPattern, zhis: seq<string>)
    requires |p.members| == 3 && |p.name| == 2
    requires forall m | m in p.members :: |m| == 1
    ensures forall x | x in JuEntry(p, zhis) ::
      || (x == p.name + "三合" && forall m | m in p.members :: m in zhis)
      || (|x| == 6 && |Present(p.members, zhis)| == 2)
  {
    if !(forall m | m in p.members :: m in zhis) && |Present(p.members, zhis)| >= 2 {
      var m :| m in p.members && m !in zhis;
      PresentMissesAbsent(p.members, zhis, m);
      ConcatOfSingles(Present(p.members, zhis));
    }
  }

  /** The combination patterns' shape: four trines of one-character
      members and a four-member storehouse, all with distinct two-character
      names. */
  predicate WellShaped(pats: seq<JuPattern>) {
    && |pats| == 5
    && (forall j | 0 <= j < 4 :: |pats[j].members| == 3 && forall m | m in pats[j].members :: |m| == 1)
    && |pats[4].members| == 4
    && (forall j | 0 <= j < 5 :: |pats[j].name| == 2)
    && (forall a, b | 0 <= a < b < 5 :: pats[a].name != pats[b].name)
  }

  /** In well-shaped patterns, a trine's "三合" entry and the storehouse's
      name come from no other pattern. */
  lemma EntryFromOwnPattern(pats: seq<JuPattern>, zhis: seq<string>, j: nat)
    requires WellShaped(pats) && j < 5
    ensures forall k | 0 <= k < 4 && k != j :: pats[k].name + "三合" !in JuEntry(pats[j], zhis)
    ensures j < 4 ==> pats[4].name !in JuEntry(pats[j], zhis)
  {
    if j < 4 {
      TrineEntryShape(pats[j], zhis);
      forall k | 0 <= k < 4 && k != j ensures pats[k].name + "三合" !in JuEntry(pats[j], zhis) {
        assert (pats[k].name + "三合")[..2] == pats[k].name;
        assert (pats[j].name + "三合")[..2] == pats[j].name;
      }
    }
  }

  lemma InFive(a: seq<string>, b: seq<string>, c: seq<string>, d: seq<string>, e: seq<string>, x: string)
    ensures x in a + b + c + d + e <==> x in a || x in b || x in c || x in d || x in e
  {
  }

  /** A trine with all members present reports "{name}三合". */
  lemma TrineEntryWhenComplete(p: JuPattern, zhis: seq<string>)
    requires |p.members| == 3 && forall m | m in p.members :: m in zhis
    ensures JuEntry(p, zhis) == [p.name + "三合"]
  {
  }

  /** For well-shaped patterns, a trine's "三合" entry is reported exactly
      when all its members are present. */
  lemma {:induction false} TrineReported(pats: seq<JuPattern>, zhis: seq<string>, k: nat)
    requires WellShaped(pats) && k < 4
    ensures pats[k].name + "三合" in JuOf(pats, zhis) <==> forall m | m in pats[k].members :: m in zhis
  {
    TrineFromOwnEntry(pats, zhis, k);
    TrineEntryShape(pats[k], zhis);
    if forall m | m in pats[k].members :: m in zhis {
      TrineEntryWhenComplete(pats[k], zhis);
    }
  }

  /** For well-shaped patterns, only the trine's own entry can hold its
      "三合" report. */
  lemma {:induction false} TrineFromOwnEntry(pats: seq<JuPattern>, zhis: seq<string>, k: nat)
    requires WellShaped(pats) && k < 4
    ensures pats[k].name + "三合" in JuOf(pats, zhis) <==> pats[k].name + "三合" in JuEntry(pats[k], zhis)
  {
    var x := pats[k].name + "三合";
    var e0, e1, e2, e3, e4 := JuEntry(pats[0], zhis), JuEntry(pats[1], zhis), JuEntry(pats[2], zhis),
      JuEntry(pats[3], zhis), JuEntry(pats[4], zhis);
    JuOfFive(pats, zhis);
    InFive(e0, e1, e2, e3, e4, x);
    forall j | 0 <= j < 5 && j != k ensures x !in JuEntry(pats[j], zhis) {
      EntryFromOwnPattern(pats, zhis, j);
    }
    if k == 0 {
      assert x in JuOf(pats, zhis) <==> x in e0;
    } else if k == 1 {
      assert x in JuOf(pats, zhis) <==> x in e1;
    } else if k == 2 {
      assert x in JuOf(pats, zhis) <==> x in e2;
    } else {
      assert x in JuOf(pats, zhis) <==> x in e3;
    }
  }

  /** For well-shaped patterns, the storehouse's name is reported exactly
      when at least three of its members are present. */
  lemma {:induction false} StorehouseReported(pats: seq<JuPattern>, zhis: seq<string>)
    requires WellShaped(pats)
    ensures pats[4].name in JuOf(pats, zhis) <==> |Present(pats[4].members, zhis)| >= 3
  {
    var x := pats[4].name;
    var e0, e1, e2, e3, e4 := JuEntry(pats[0], zhis), JuEntry(pats[1], zhis), JuEntry(pats[2], zhis),
      JuEntry(pats[3], zhis), JuEntry(pats[4], zhis);
    JuOfFive(pats, zhis);
    InFive(e0, e1, e2, e3, e4, x);
    EntryFromOwnPattern(pats, zhis, 0);
    EntryFromOwnPattern(pats, zhis, 1);
    EntryFromOwnPattern(pats, zhis, 2);
    EntryFromOwnPattern(pats, zhis, 3);
    assert x in JuOf(pats, zhis) <==> x in e4;
  }

  /** A trine's "三合" entry is reported exactly when all three of its
      members are present. */
  lemma TrinesReported(zhis: seq<string>, k: nat)
    requires k < 4
    ensures JuPatterns[k].name + "三合" in JuOf(JuPatterns, zhis) <==> forall m | m in JuPatterns[k].members :: m in zhis
  {
    assert WellShaped(JuPatterns);
    TrineReported(JuPatterns, zhis, k);
  }

  /** "土局" is reported exactly when at least three of 辰戌丑未 are present. */
  lemma EarthStorehouse(zhis: seq<string>)
    ensures "土局" in JuOf(JuPatterns, zhis) <==> |Present(["辰", "戌", "丑", "未"], zhis)| >= 3
  {
    var p := JuPatterns;
    assert WellShaped(p);
    StorehouseReported(p, zhis);
  }

  /** Two members present out of three give the half combination, its found
      members in the trine's order. */
  lemma HalfCombination(zhis: seq<string>)
    requires "亥" in zhis && "卯" !in zhis && "未" in zhis
    ensures JuEntry(JuPatterns[0], zhis) == ["亥未半合木局"]
  {
    var m := JuPatterns[0].members;
    assert m[1..] == ["卯", "未"] && m[1..][1..] == ["未"] && m[1..][1..][1..] == [];
    assert Present(m, zhis) == ["亥", "未"];
    assert ["亥", "未"][1..] == ["未"] && ["亥", "未"][1..][1..] == [];
    assert Concat(["亥", "未"]) == "亥未";
    assert "卯" in m && !(forall x | x in m :: x in zhis);
    var p := JuPatterns[0];
    assert p.name == "木局" && |p.members| == 3;
    assert JuEntry(p, zhis) == [Concat(Present(m, zhis)) + "半合" + p.name];
    assert "亥未" + "半合" + "木局" == "亥未半合木局";
  }

  /** A trine with exactly its members `i` and `j` present reports the half
      combination of those two, in the trine's order, followed by its name. */
  lemma HalfEntry(p: JuPattern, zhis: seq<string>, i: nat, j: nat)
    requires |p.members| == 3 && i < j < 3
    requires p.members[i] in zhis && p.members[j] in zhis && p.members[3 - i - j] !in zhis
    ensures JuEntry(p, zhis) == [p.members[i] + p.members[j] + "半合" + p.name]
  {
    var m := p.members;
    PresentOfTwo(m, zhis, i, j);
    ConcatOfTwo(m[i], m[j]);
    assert !(forall x | x in m :: x in zhis) by {
      assert m[3 - i - j] in m;
    }
  }

  /** Two members of a three-member pattern present and the third absent:
      those two are found, in pattern order. */
  lemma PresentOfTwo(m: seq<string>, zhis: seq<string>, i: nat, j: nat)
    requires |m| == 3 && i < j < 3
    requires m[i] in zhis && m[j] in zhis && m[3 - i - j] !in zhis
    ensures Present(m, zhis) == [m[i], m[j]]
  {
    PresentOfThree(m, zhis);
    if i == 0 && j == 1 {
      assert Present(m, zhis) == [m[0]] + ([m[1]] + []);
    } else if i == 0 {
      assert Present(m, zhis) == [m[0]] + ([] + [m[2]]);
    } else {
      assert Present(m, zhis) == [] + ([m[1]] + [m[2]]);
    }
  }

  lemma ConcatOfTwo(a: string, b: string)
    ensures Concat([a, b]) == a + b
  {
    assert [a, b][1..] == [b] && [b][1..] == [];
    assert Concat([b]) == b + Concat([]);
  }

  /** The members of a three-member pattern found among `zhis`, spelled out. */
  lemma PresentOfThree(m: seq<string>, zhis: seq<string>)
    requires |m| == 3
    ensures Present(m, zhis) ==
      (if m[0] in zhis then [m[0]] else [])
      + ((if m[1] in zhis then [m[1]] else []) + (if m[2] in zhis then [m[2]] else []))
  {
    assert m == [m[0]] + ([m[1]] + [m[2]]);
    assert Present([m[2]], zhis) == if m[2] in zhis then [m[2]] else [] by {
      assert [m[2]][1..] == [];
    }
    PresentCons(m[1], [m[2]], zhis);
    PresentCons(m[0], [m[1]] + [m[2]], zhis);
  }

  lemma PresentCons(x: string, rest: seq<string>, zhis: seq<string>)
    ensures Present([x] + rest, zhis) == (if x in zhis then [x] else []) + Present(rest, zhis)
  {
    assert ([x] + rest)[0] == x && ([x] + rest)[1..] == rest;
  }

  /** For each of the four trines, two members present and the third absent
      give "{found}半合{name}", the two found members in the trine's order. */
  lemma HalfCombinations(zhis: seq<string>, k: nat, i: nat, j: nat)
    requires k < 4 && i < j < 3
    requires JuPatterns[k].members[i] in zhis && JuPatterns[k].members[j] in zhis
    requires JuPatterns[k].members[3 - i - j] !in zhis
    ensures JuEntry(JuPatterns[k], zhis) ==
      [JuPatterns[k].members[i] + JuPatterns[k].members[j] + "半合" + JuPatterns[k].name]
  {
    assert WellShaped(JuPatterns);
    HalfEntry(JuPatterns[k], zhis, i, j);
  }

  // ---------------------------------------------------------------------
  // Void branches (空亡)
  // ---------------------------------------------------------------------

  /** The six decades by their first pair, each with its two void branches. */
  const EmptyMap: seq<(string, seq<string>)> := [
    ("甲子", ["戌", "亥"]), ("甲戌", ["申", "酉"]), ("甲申", ["午", "未"]),
    ("甲午", ["辰", "巳"]), ("甲辰", ["寅", "卯"]), ("甲寅", ["子", "丑"])
  ]

  predicate StartsWith(s: string, prefix: string) {
    |prefix| <= |s| && s[..|prefix|] == prefix
  }

  /** The void branches as the source computes them: each key is tested by
      its first character only, which is 甲 for all six, so any pair
      starting with 甲 gets the first decade's voids and any other gets none. */
  method GetEmptyDeathAsWritten(dayPillar: string) returns (r: seq<string>)
    ensures r == (if |dayPillar| > 0 && dayPillar[0] == '甲' then ["戌", "亥"] else [])
  {
    for i := 0 to |EmptyMap|
      invariant !(|dayPillar| > 0 && dayPillar[0] == '甲') || i == 0
    {
      var xun := EmptyMap[i].0;
      if StartsWith(dayPillar, [xun[0]]) {
        return EmptyMap[i].1;
      }
    }
    return [];
  }

  /** The position of `x` in `s`, if it occurs. */
  function IndexOf(s: seq<string>, x: string): (i: int)
    ensures -1 <= i < |s|
    ensures i >= 0 ==> s[i] == x && forall j | 0 <= j < i :: s[j] != x
    ensures i < 0 <==> x !in s
  {
    if s == [] then -1
    else if s[0] == x then 0
    else var k := IndexOf(s[1..], x); if k < 0 then -1 else k + 1
  }

  /** The void branches of the decade (旬) the day pillar belongs to: a pair
      with stem position g and branch position z starts its decade at
      branch (z - g) mod 12, and the two branches after the decade's tenth
      pair are void. A name that is not a stem-branch pair has none. */
  function GetEmptyDeath(dayPillar: string): (r: seq<string>)
    ensures |r| == 0 || |r| == 2
  {
    VoidsIn(TianganList, DizhiList, dayPillar)
  }

  /** The void branches of a day pillar, for any stem order of ten and branch
      order of twelve: two exactly when the pillar is a stem followed by a
      branch whose positions have the same parity. */
  function VoidsIn(stems: seq<string>, branches: seq<string>, dayPillar: string): (r: seq<string>)
    requires |stems| == 10 && |branches| == 12
    ensures |r| == 0 || |r| == 2
    ensures |r| == 2 <==>
      && |dayPillar| == 2
      && [dayPillar[0]] in stems && [dayPillar[1]] in branches
      && (IndexOf(branches, [dayPillar[1]]) - IndexOf(stems, [dayPillar[0]])) % 2 == 0
  {
    if |dayPillar| == 2 then
      var g := IndexOf(stems, [dayPillar[0]]);
      var z := IndexOf(branches, [dayPillar[1]]);
      if g >= 0 && z >= 0 then VoidsOfPositions(branches, g, z) else []
    else []
  }

  /** The void branches of the pair at stem position g and branch position
      z, none when the positions' parities differ (no such pair exists). */
  function VoidsOfPositions(branches: seq<string>, g: nat, z: nat): (r: seq<string>)
    requires g < 10 && z < |branches| == 12
    ensures |r| == 2 <==> (z - g) % 2 == 0
    ensures |r| == 0 || |r| == 2
  {
    if (z - g) % 2 == 0 then [branches[(z - g + 10) % 12], branches[(z - g + 11) % 12]] else []
  }

  /** The fixed orders have no repeated names, and every name is one character. */
  lemma NamesAreDistinctCharacters()
    ensures forall a, b | 0 <= a < b < |TianganList| :: TianganList[a] != TianganList[b]
    ensures forall a, b | 0 <= a < b < |DizhiList| :: DizhiList[a] != DizhiList[b]
    ensures forall a | 0 <= a < |TianganList| :: |TianganList[a]| == 1
    ensures forall a | 0 <= a < |DizhiList| :: |DizhiList[a]| == 1
  {
  }

  /** In a list without repeats a name is found at its own position. */
  lemma {:induction false} IndexOfDistinct(s: seq<string>, i: nat)
    requires i < |s|
    requires forall a, b | 0 <= a < b < |s| :: s[a] != s[b]
    ensures IndexOf(s, s[i]) == i
  {
    if i > 0 {
      assert s[0] != s[i];
      assert s[1..][i - 1] == s[i];
      IndexOfDistinct(s[1..], i - 1);
    }
  }

  /** The branch position of the k-th pair of a decade starting at branch s. */
  function DecadeBranch(s: int, k: int): int {
    (s + k) % 12
  }

  lemma ModTwelve(n: int)
    requires -12 <= n < 24
    ensures n % 12 == if n < 0 then n + 12 else if n < 12 then n else n - 12
  {
  }

  /** A pair's name splits back into its stem and branch, each found at its
      own position. */
  lemma PairPositions(g: nat, z: nat)
    requires g < 10 && z < 12
    ensures var p := TianganList[g] + DizhiList[z];
      && |p| == 2
      && IndexOf(TianganList, [p[0]]) == g
      && IndexOf(DizhiList, [p[1]]) == z
  {
    NamesAreDistinctCharacters();
    var p := TianganList[g] + DizhiList[z];
    assert [p[0]] == TianganList[g];
    assert [p[1]] == DizhiList[z];
    IndexOfDistinct(TianganList, g);
    IndexOfDistinct(DizhiList, z);
  }

  /** The void branches of the pair at stem position g and branch position z
      of the fixed orders. */
  lemma EmptyDeathOfPositions(g: nat, z: nat)
    requires g < 10 && z < 12 && (z - g) % 2 == 0
    ensures GetEmptyDeath(TianganList[g] + DizhiList[z]) == [DizhiList[(z - g + 10) % 12], DizhiList[(z - g + 11) % 12]]
  {
    PairPositions(g, z);
    var p := TianganList[g] + DizhiList[z];
    assert GetEmptyDeath(p) == VoidsOfPositions(DizhiList, g, z);
  }

  /** The g-th pair of the decade starting at branch (z - g) mod 12 is the
      pair itself. */
  lemma DecadeContainsPair(g: nat, z: nat)
    requires g < 10 && z < 12
    ensures DecadeBranch((z - g) % 12, g) == z
  {
    ModTwelve(z - g);
    ModTwelve((z - g) % 12 + g);
  }

  /** The two branches after a decade's tenth pair are not the branch of
      any of its ten pairs. */
  lemma VoidsOutsideDecade(s: int)
    requires 0 <= s < 12
    ensures forall k | 0 <= k < 10 :: DecadeBranch(s, k) != DecadeBranch(s, 10) && DecadeBranch(s, k) != DecadeBranch(s, 11)
  {
    ModTwelve(s + 10);
    ModTwelve(s + 11);
    forall k | 0 <= k < 10 ensures DecadeBranch(s, k) != DecadeBranch(s, 10) && DecadeBranch(s, k) != DecadeBranch(s, 11) {
      ModTwelve(s + k);
    }
  }

  /** The void branches of a pair are the two after its decade's tenth pair. */
  lemma VoidsFollowDecade(g: nat, z: nat)
    requires g < 10 && z < 12 && (z - g) % 2 == 0
    ensures var s := (z - g) % 12;
      GetEmptyDeath(TianganList[g] + DizhiList[z]) == [DizhiList[DecadeBranch(s, 10)], DizhiList[DecadeBranch(s, 11)]]
  {
    EmptyDeathOfPositions(g, z);
    var s := (z - g) % 12;
    ModTwelve(z - g);
    ModTwelve(s + 10);
    ModTwelve(s + 11);
    ModTwelve(z - g + 10);
    ModTwelve(z - g + 11);
  }

  /** The branch position of row k's first pair: the rows run 甲子, 甲戌,
      甲申, 甲午, 甲辰, 甲寅. */
  function RowBranch(k: nat): nat
    requires k < 6
  {
    if k == 0 then 0 else 12 - 2 * k
  }

  /** Row k of the table is the pair of 甲 and its row branch, with the two
      branches after that decade's tenth pair. */
  lemma TableRow(k: nat)
    requires k < |EmptyMap|
    ensures RowBranch(k) < 12
    ensures EmptyMap[k].0 == TianganList[0] + DizhiList[RowBranch(k)]
    ensures EmptyMap[k].1 == [DizhiList[(RowBranch(k) - 0 + 10) % 12], DizhiList[(RowBranch(k) - 0 + 11) % 12]]
  {
  }

  /** The decade computation reproduces each row of the table. */
  lemma EmptyDeathAgreesWithTable(k: nat)
    requires k < |EmptyMap|
    ensures GetEmptyDeath(EmptyMap[k].0) == EmptyMap[k].1
  {
    var z := RowBranch(k);
    TableRow(k);
    assert z % 2 == 0;
    EmptyDeathOfPositions(0, z);
    assert EmptyMap[k].0 == TianganList[0] + DizhiList[z];
  }

  /** As written, 甲戌 gets 戌亥 although the table lists 申酉 for it. */
  method EmptyDeathAsWrittenCounterexample() returns (asWritten: seq<string>, corrected: seq<string>)
    ensures asWritten == ["戌", "亥"] && corrected == ["申", "酉"] && EmptyMap[1] == ("甲戌", corrected)
  {
    asWritten := GetEmptyDeathAsWritten(EmptyMap[1].0);
    EmptyDeathAgreesWithTable(1);
    corrected := GetEmptyDeath(EmptyMap[1].0);
  }

  /** 乙丑, the second pair of the 甲子 decade, gets nothing as written
      instead of that decade's 戌亥. */
  method EmptyDeathYiChouCounterexample() returns (pillar: string, asWritten: seq<string>, corrected: seq<string>)
    ensures pillar == "乙丑" && asWritten == [] && corrected == ["戌", "亥"]
  {
    pillar := TianganList[1] + DizhiList[1];
    asWritten := GetEmptyDeathAsWritten(pillar);
    EmptyDeathOfPositions(1, 1);
    ModTwelve(1 - 1 + 10);
    ModTwelve(1 - 1 + 11);
    corrected := GetEmptyDeath(pillar);
  }

  // ---------------------------------------------------------------------
  // Yin/yang count
  // ---------------------------------------------------------------------

  /** The number of yang stems and branches among the pillars. */
  function YangCount(ps: seq<BaZiPillar>): (n: nat)
    ensures n <= 2 * |ps|
  {
    if ps == [] then 0
    else
      YangCount(ps[..|ps| - 1])
      + (if ps[|ps| - 1].ganZhi.gan.yinYang == Yang then 1 else 0)
      + (if ps[|ps| - 1].ganZhi.zhi.yinYang == Yang then 1 else 0)
  }

  /** Counts the yang and yin stems and branches of the four pillars. */
  method CalculateYinyangScore(chart: BaZiChart) returns (score: map<string, int>)
    ensures score.Keys == {"阳", "阴"}
    ensures score["阳"] == YangCount(chart.AllPillars())
    ensures score["阳"] + score["阴"] == 8
  {
    var yangCount := 0;
    var yinCount := 0;
    var ps := chart.AllPillars();
    for i := 0 to |ps|
      invariant yangCount == YangCount(ps[..i])
      invariant yangCount + yinCount == 2 * i
    {
      assert ps[..i + 1][..i] == ps[..i];
      if ps[i].ganZhi.gan.yinYang.Value() == "阳" {
        yangCount := yangCount + 1;
      } else {
        yinCount := yinCount + 1;
      }
      if ps[i].ganZhi.zhi.yinYang.Value() == "阳" {
        yangCount := yangCount + 1;
      } else {
        yinCount := yinCount + 1;
      }
    }
    assert ps[..|ps|] == ps;
    score := map["阳" := yangCount, "阴" := yinCount];
  }
}
