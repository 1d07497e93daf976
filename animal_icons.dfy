/**
 * The animal mascots: the recommendation from a user's goals (the first goal
 * of a fixed precedence list that is present wins) and the animal of each
 * life stage.
 */
module AnimalIcons {
  import opened Common

  /** The keys of `animalDescriptions`; every animal the functions return is one of them. */
  datatype Animal = Lion | Owl | Squirrel | Penguin | Fox | Koala | Rabbit | Dog | Cat | Turtle

  /** `animalDescriptions`: name, trait and emoji of each animal. */
  function Description(a: Animal): (string, string, string) {
    match a
    case Lion => ("ライオン", "リーダーシップ", "🦁")
    case Owl => ("フクロウ", "知恵・学び", "🦉")
    case Squirrel => ("リス", "貯蓄・計画性", "🐿️")
    case Penguin => ("ペンギン", "家族・協力", "🐧")
    case Fox => ("キツネ", "適応力・知恵", "🦊")
    case Koala => ("コアラ", "安定・リラックス", "🐨")
    case Rabbit => ("ウサギ", "成長・繁栄", "🐰")
    case Dog => ("イヌ", "忠誠・信頼", "🐕")
    case Cat => ("ネコ", "独立・自由", "🐱")
    case Turtle => ("カメ", "安定・長寿", "🐢")
  }

  /** `getRecommendedAnimal(goals)`: an if-chain of membership tests. */
  function RecommendedAnimal(goals: seq<string>): (r: Animal)
    ensures r == Squirrel <==> "savings" in goals || "investment" in goals
    ensures r == Dog <==> forall g :: g in goals ==> g !in RecognisedGoals
    ensures r in {Squirrel, Turtle, Owl, Koala, Fox, Dog}
  {
    if "savings" in goals || "investment" in goals then Squirrel
    else if "housing" in goals then Turtle
    else if "education" in goals then Owl
    else if "retirement" in goals then Koala
    else if "benefits" in goals then Fox
    else if "tax" in goals then Owl
    else Dog
  }

  const RecognisedGoals: set<string> := {"savings", "investment", "housing", "education", "retirement", "benefits", "tax"}

  /** The precedence list: goal, animal, in the order the checks are made. */
  const GoalOrder: seq<(string, Animal)> := [
    ("savings", Squirrel), ("investment", Squirrel), ("housing", Turtle), ("education", Owl),
    ("retirement", Koala), ("benefits", Fox), ("tax", Owl)]

  /** The animal of the first entry of `order` whose goal is present, or the dog. */
  function FirstHit(order: seq<(string, Animal)>, goals: set<string>): Animal
    decreases |order|
  {
    if |order| == 0 then Dog
    else if order[0].0 in goals then order[0].1
    else FirstHit(order[1..], goals)
  }

  /**
   * The recommendation depends only on the set of goals (not their order or
   * repetitions) and is the first hit of the precedence list.
   */
  lemma RecommendedIsFirstHit(goals: seq<string>)
    ensures RecommendedAnimal(goals) == FirstHit(GoalOrder, set g | g in goals)
  {
    var gs := set g | g in goals;
    assert forall g :: g in gs <==> g in goals;
    assert GoalOrder[1..][1..][1..][1..][1..][1..][1..] == [];
  }

  /** Reordering or repeating goals does not change the recommendation. */
  lemma RecommendedSetOnly(goals: seq<string>, other: seq<string>)
    requires forall g :: g in goals <==> g in other
    ensures RecommendedAnimal(goals) == RecommendedAnimal(other)
  {
    RecommendedIsFirstHit(goals);
    RecommendedIsFirstHit(other);
    assert (set g | g in goals) == (set g | g in other);
  }

  /** `getAnimalByLifeStage(stage)`: a switch over the nine stages with the dog as default. */
  function AnimalByLifeStage(stage: string): (r: Animal)
    ensures r == Dog <==> stage !in StageAnimals
    ensures stage in StageAnimals ==> r == StageAnimals[stage]
  {
    match stage
    case "student" => Owl
    case "new_graduate" => Rabbit
    case "working_single" => Fox
    case "newlywed" => Penguin
    case "child_rearing" => Penguin
    case "child_education" => Owl
    case "empty_nest" => Koala
    case "pre_retirement" => Turtle
    case "retired" => Turtle
    case _ => Dog
  }

  /** The stage table the switch implements. */
  const StageAnimals: map<string, Animal> := map[
    "student" := Owl, "new_graduate" := Rabbit, "working_single" := Fox,
    "newlywed" := Penguin, "child_rearing" := Penguin, "child_education" := Owl,
    "empty_nest" := Koala, "pre_retirement" := Turtle, "retired" := Turtle]

  /** The stages `engaged` and `expecting` have no case and fall back to the dog. */
  lemma UnlistedStages()
    ensures AnimalByLifeStage("engaged") == Dog && AnimalByLifeStage("expecting") == Dog
  {
  }
}
