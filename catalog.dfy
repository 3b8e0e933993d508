/** The assessment catalog: the SCL-90 record (its ten symptom dimensions,
    ninety items and five answer options), the registry of assessment types,
    and the lookups built on it. */
module Catalog {
  import opened Wrappers
  import opened SeqLemmas

  /** An answer option: its value, its label (`labelText`, since `label` is a
      Dafny keyword) and its description. */
  datatype AnswerOption = AnswerOption(value: int, labelText: string, description: string)

  /** A named symptom dimension and the 1-based numbers of its items. */
  datatype Dimension = Dimension(name: string, questions: seq<int>, description: string)

  /** A catalog record; `dimensions` is absent for a record that declares none. */
  datatype AssessmentData = AssessmentData(
    title: string,
    description: string,
    estimatedTime: string,
    questionCount: int,
    icon: string,
    dimensions: Option<seq<Dimension>>,
    questions: seq<string>,
    answerOptions: seq<AnswerOption>)

  /** What the flow and the report read for one assessment type. */
  datatype AssessmentConfig = AssessmentConfig(
    kind: string,
    title: string,
    description: string,
    estimatedTime: string,
    questionCount: int,
    icon: string,
    dimensions: seq<Dimension>,
    questions: seq<string>,
    answerOptions: seq<AnswerOption>)

  /** The label shown for an item that no dimension claims. */
  const GenericCategory: string := "综合测评"

  const QuestionCount: int := 90

  const Dimensions: seq<Dimension> := [
    Dimension("躯体化", [1, 4, 12, 27, 40, 42, 48, 49, 52, 53, 56, 58], "主要反映主观的身体不适感"),
    Dimension("强迫症状", [3, 9, 10, 28, 38, 45, 46, 51, 55, 65], "反映临床上的强迫症状群"),
    Dimension("人际关系敏感", [6, 21, 34, 36, 37, 41, 61, 69, 73], "反映个人的不自在感和自卑感"),
    Dimension("抑郁", [5, 14, 15, 20, 22, 26, 29, 30, 31, 32, 54, 71, 79], "反映抑郁症状群"),
    Dimension("焦虑", [2, 17, 23, 33, 39, 57, 72, 78, 80, 86], "反映焦虑症状群"),
    Dimension("敌对", [11, 24, 63, 67, 74, 81], "反映敌对表现"),
    Dimension("恐怖", [13, 25, 47, 50, 70, 75, 82], "反映恐怖症状群"),
    Dimension("偏执", [8, 18, 43, 68, 76, 83], "反映猜疑和关系妄想等"),
    Dimension("精神病性", [7, 16, 35, 62, 77, 84, 85, 87, 88, 90], "反映幻听、被控制感等精神病性症状"),
    Dimension("其他", [19, 44, 59, 60, 64, 66, 89], "反映睡眠和饮食情况")
  ]

  const Questions: seq<string> :=
    [
      "头痛",
      "紧张时发抖，神经过敏",
      "不愉快的想法在脑中盘旋",
      "头昏或昏倒",
      "对异性的兴趣减退",
      "对旁人责备求全",
      "感到别人能控制您的思想",
      "责怪别人制造麻烦",
      "忘性大",
      "担心自己的衣饰整齐及仪态的端正",
      "容易烦恼和激动",
      "胸痛",
      "害怕空旷的场所或街道",
      "感到自己的精力下降，活动减慢",
      "想结束自己的生命",
      "听到旁人听不到的声音",
      "发抖",
      "感到大多数人都不可信任",
      "胃口不好",
      "容易哭泣",
      "同异性相处时感到害羞不自在",
      "感到别人对您不公正",
      "突然感到惊恐，无缘无故地害怕",
      "感到情绪失控，脾气爆发",
      "怕单独出门",
      "经常责怪自己",
      "腰痛",
      "感到难以完成任务",
      "感到孤独",
      "感到苦闷",
      "过分担忧",
      "对事物不感兴趣",
      "感到害怕",
      "您的感情容易受到伤害",
      "旁人能知道您的私下想法",
      "感到别人不理解您、不同情您",
      "感到人们对您不友好，不喜欢您",
      "做事必须做得很慢以保证做得正确",
      "心跳得很厉害",
      "恶心或胃部不舒服",
      "感到比不上他人",
      "肌肉酸痛",
      "感到有人在监视您、谈论您",
      "难以入睡",
      "必须反复检查门窗或煤气开关",
      "难以做出日常决定",
      "害怕乘坐公共交通（如地铁、公交）",
      "呼吸有困难",
      "一阵阵发冷或发热",
      "因为感到害怕而避开某些东西、场合或活动",
      "脑子变空了",
      "身体发麻或刺痛",
      "喉咙有梗塞感",
      "感到前途没有希望",
      "不能集中注意力",
      "感到身体的某一部分软弱无力",
      "感到紧张或容易紧张",
      "感到手或脚发重",
      "想到死亡的事",
      "吃得太多",
      "当别人看着您或谈论您时感到不自在",
      "出现不属于您自己的想法或冲动",
      "有攻击他人的冲动或想法",
      "比平时早醒且难以再次入睡",
      "必须反复洗手、确认或计数",
      "睡眠质量差，多梦易醒",
      "有破坏物品的强烈冲动",
      "有他人无法理解的想法或信念",
      "对他人的言行过度敏感",
      "在商店或电影院等人多的地方感到不自在",
      "感到任何事情都很困难",
      "一阵阵恐惧或惊恐",
      "感到公共场合吃东西很不舒服",
      "经常与人争论",
      "单独一人时神经很紧张",
      "别人对您的成绩没有做出恰当的评价",
      "即使和别人在一起也感到孤单",
      "感到坐立不安心神不定",
      "感到自己毫无价值",
      "感到熟悉的事物变得陌生或不真实",
      "大声喊叫或摔东西",
      "害怕在公共场合昏倒",
      "感到别人在占您的便宜",
      "为一些性方面的事情而苦恼",
      "感到自己应该为过错受到惩罚",
      "感到必须赶快把事情做完",
      "感到自己身体有严重疾病",
      "从未感到与任何人亲近",
      "感到自己有罪或犯错",
      "感到自己的精神有问题"
    ]

  const AnswerOptions: seq<AnswerOption> := [
    AnswerOption(1, "没有", "没有症状"),
    AnswerOption(2, "很轻", "症状轻微，不影响正常生活"),
    AnswerOption(3, "中等", "症状中等，有些影响生活"),
    AnswerOption(4, "偏重", "症状较重，影响较大"),
    AnswerOption(5, "严重", "症状严重，影响严重")
  ]

  const SCL90: AssessmentData := AssessmentData(
    "SCL90心理健康测评",
    "国际通用的心理健康评估工具，全面评估您的心理健康状况",
    "15-20分钟",
    QuestionCount,
    "mental-health",
    Some(Dimensions),
    Questions,
    AnswerOptions)

  /** The registry of assessment types: SCL-90 is the only entry. */
  const Registry: map<string, AssessmentData> := map["scl90" := SCL90]

  /** Lookup with fallback: an unregistered type yields the SCL-90 record. */
  function GetAssessmentData(kind: string): (d: AssessmentData)
    ensures d == SCL90
  {
    if kind in Registry then Registry[kind] else SCL90
  }

  /** The first dimension, in declaration order, whose item list contains
      `item`; None when no list does. */
  function FindCategory(dims: seq<Dimension>, item: int): (r: Option<string>)
    ensures r.None? <==> forall g :: 0 <= g < |dims| ==> item !in dims[g].questions
    ensures r.Some? ==> exists g :: 0 <= g < |dims| && item in dims[g].questions && r.value == dims[g].name &&
                           forall h :: 0 <= h < g ==> item !in dims[h].questions
  {
    if dims == [] then None
    else if item in dims[0].questions then Some(dims[0].name)
    else
      var r := FindCategory(dims[1..], item);
      assert forall g :: 1 <= g < |dims| ==> dims[g] == dims[1..][g - 1];
      r
  }

  /** The dimension name shown above a 0-based question index. Only the type
      name "scl90" consults the dimensions, even though every type name falls
      back to the SCL-90 record. */
  function GetQuestionCategory(kind: string, questionIndex: int): (r: string)
    ensures r == GenericCategory ||
            (kind == "scl90" && exists g :: 0 <= g < |Dimensions| && questionIndex + 1 in Dimensions[g].questions && r == Dimensions[g].name)
  {
    var data := GetAssessmentData(kind);
    if kind == "scl90" && data.dimensions.Some? then
      FindCategory(data.dimensions.value, questionIndex + 1).GetOr(GenericCategory)
    else
      GenericCategory
  }

  function MakeConfig(kind: string, data: AssessmentData): AssessmentConfig {
    AssessmentConfig(kind, data.title, data.description, data.estimatedTime, data.questionCount,
                     data.icon, data.dimensions.GetOr([]), data.questions, data.answerOptions)
  }

  /** The configuration for a type name: it echoes the name it was asked for
      and carries the SCL-90 content, whatever the name. */
  function GetAssessmentConfig(kind: string): (c: AssessmentConfig)
    ensures c.kind == kind
    ensures c.questionCount == QuestionCount == |c.questions|
    ensures c.dimensions == Dimensions && c.questions == Questions && c.answerOptions == AnswerOptions
  {
    MakeConfig(kind, GetAssessmentData(kind))
  }

  /** A record without dimensions is configured with an empty dimension table. */
  lemma ConfigDefaultsDimensions(kind: string, data: AssessmentData)
    requires data.dimensions.None?
    ensures MakeConfig(kind, data).dimensions == []
    ensures MakeConfig(kind, data).kind == kind
  {
  }

  /** The answer options are the values 1..5 in increasing order. */
  lemma AnswerOptionValues()
    ensures |AnswerOptions| == 5
    ensures forall i :: 0 <= i < |AnswerOptions| ==> AnswerOptions[i].value == i + 1
  {
  }

  // ---------------------------------------------------------------------
  // The ten dimensions partition the item numbers 1..90.
  // ---------------------------------------------------------------------

  /** All item lists of `dims`, concatenated in declaration order. */
  function AllItems(dims: seq<Dimension>): seq<int> {
    if dims == [] then [] else dims[0].questions + AllItems(dims[1..])
  }

  /** Every item number 1..n is listed exactly once, and nothing else is. */
  ghost predicate IsPartition(dims: seq<Dimension>, n: nat) {
    NoDup(AllItems(dims)) &&
    (forall x :: x in AllItems(dims) <==> 1 <= x <= n)
  }

  lemma {:induction false} AllItemsMembership(dims: seq<Dimension>, x: int)
    ensures x in AllItems(dims) <==> exists g :: 0 <= g < |dims| && x in dims[g].questions
  {
    if dims != [] {
      AllItemsMembership(dims[1..], x);
      if x in AllItems(dims[1..]) {
        var g :| 0 <= g < |dims[1..]| && x in dims[1..][g].questions;
        assert dims[g + 1] == dims[1..][g];
      }
      if exists g :: 0 <= g < |dims| && x in dims[g].questions {
        var g :| 0 <= g < |dims| && x in dims[g].questions;
        if g > 0 {
          assert dims[1..][g - 1] == dims[g];
        }
      }
    }
  }

  /** In a partition no item number belongs to two dimensions. */
  lemma {:induction false} DisjointDimensions(dims: seq<Dimension>, g: int, h: int, x: int)
    requires NoDup(AllItems(dims))
    requires 0 <= g < |dims| && 0 <= h < |dims|
    requires x in dims[g].questions && x in dims[h].questions
    ensures g == h
  {
    var a, rest := dims[0].questions, AllItems(dims[1..]);
    assert AllItems(dims) == a + rest;
    NoDupConcat(a, rest);
    if g == 0 && h == 0 {
    } else if g == 0 || h == 0 {
      var k := if g == 0 then h else g;
      assert dims[1..][k - 1] == dims[k];
      AllItemsMembership(dims[1..], x);
      assert false;
    } else {
      assert dims[1..][g - 1] == dims[g] && dims[1..][h - 1] == dims[h];
      DisjointDimensions(dims[1..], g - 1, h - 1, x);
    }
  }

  /** In a partition the lookup finds the one dimension listing the item. */
  lemma FindOwner(dims: seq<Dimension>, g: int, item: int)
    requires NoDup(AllItems(dims))
    requires 0 <= g < |dims| && item in dims[g].questions
    ensures FindCategory(dims, item) == Some(dims[g].name)
  {
    var r := FindCategory(dims, item);
    var k :| 0 <= k < |dims| && item in dims[k].questions && r.value == dims[k].name;
    DisjointDimensions(dims, g, k, item);
  }

  lemma SCL90Coverage(x: int)
    requires 1 <= x <= QuestionCount
    ensures exists g :: 0 <= g < |Dimensions| && x in Dimensions[g].questions
  {
    var d := Dimensions;
    var q0, q1, q2, q3, q4 := d[0].questions, d[1].questions, d[2].questions, d[3].questions, d[4].questions;
    var q5, q6, q7, q8, q9 := d[5].questions, d[6].questions, d[7].questions, d[8].questions, d[9].questions;
    assert x in q0 || x in q1 || x in q2 || x in q3 || x in q4 || x in q5 || x in q6 || x in q7 || x in q8 || x in q9;
  }

  lemma SCL90ItemCount()
    ensures |AllItems(Dimensions)| == QuestionCount
  {
    var d := Dimensions;
    assert AllItems(d[10..]) == [];
    assert AllItems(d[9..]) == d[9].questions + AllItems(d[10..]);
    assert AllItems(d[8..]) == d[8].questions + AllItems(d[9..]);
    assert AllItems(d[7..]) == d[7].questions + AllItems(d[8..]);
    assert AllItems(d[6..]) == d[6].questions + AllItems(d[7..]);
    assert AllItems(d[5..]) == d[5].questions + AllItems(d[6..]);
    assert AllItems(d[4..]) == d[4].questions + AllItems(d[5..]);
    assert AllItems(d[3..]) == d[3].questions + AllItems(d[4..]);
    assert AllItems(d[2..]) == d[2].questions + AllItems(d[3..]);
    assert AllItems(d[1..]) == d[1].questions + AllItems(d[2..]);
    assert AllItems(d) == d[0].questions + AllItems(d[1..]);
  }

  /** The SCL-90 dimensions list every item number 1..90 exactly once. */
  lemma SCL90Partition()
    ensures IsPartition(Dimensions, QuestionCount)
  {
    var all := AllItems(Dimensions);
    SCL90ItemCount();
    forall x | 1 <= x <= QuestionCount ensures x in all {
      SCL90Coverage(x);
      AllItemsMembership(Dimensions, x);
    }
    Pigeonhole(all, QuestionCount);
  }

  /** The ninety items and their declared count agree. */
  lemma QuestionListLength()
    ensures |SCL90.questions| == SCL90.questionCount == QuestionCount
  {
  }

  /** Only "scl90" consults the dimensions, and then the first one listing
      the 1-based item number names the question. */
  lemma CategoryByFind(kind: string, q: int)
    ensures GetQuestionCategory(kind, q) ==
              if kind == "scl90" then FindCategory(Dimensions, q + 1).GetOr(GenericCategory) else GenericCategory
  {
    assert GetAssessmentData(kind).dimensions == Some(Dimensions);
  }

  /** For "scl90", every question index 0..89 is labelled with the one
      dimension that lists it, never with the generic label. */
  lemma CategoryOfEveryQuestion(q: int, g: int)
    requires 0 <= q < QuestionCount
    requires 0 <= g < |Dimensions| && q + 1 in Dimensions[g].questions
    ensures GetQuestionCategory("scl90", q) == Dimensions[g].name
    ensures GetQuestionCategory("scl90", q) != GenericCategory
  {
    SCL90Partition();
    CategoryByFind("scl90", q);
    FindOwner(Dimensions, g, q + 1);
    NamesAreNotGeneric(g);
  }

  lemma NamesAreNotGeneric(g: int)
    requires 0 <= g < |Dimensions|
    ensures Dimensions[g].name != GenericCategory
  {
  }

  /** The generic label appears exactly for out-of-range indices, or for any
      type name other than "scl90". */
  lemma GenericCategoryExactly(kind: string, q: int)
    ensures GetQuestionCategory(kind, q) == GenericCategory <==> kind != "scl90" || q < 0 || q >= QuestionCount
  {
    CategoryByFind(kind, q);
    if kind == "scl90" {
      SCL90Partition();
      AllItemsMembership(Dimensions, q + 1);
      if 0 <= q < QuestionCount {
        var g :| 0 <= g < |Dimensions| && q + 1 in Dimensions[g].questions;
        CategoryOfEveryQuestion(q, g);
      }
    }
  }
}
