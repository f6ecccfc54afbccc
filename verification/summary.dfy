/**
 The score summary: each of four fixed categories shows its score in a
 colour chosen by two thresholds.
 */
module Summary {

  datatype Colour = Red | Yellow | Green

  /** Red below yellow below green. */
  function Rank(c: Colour): nat {
    match c
    case Red => 0
    case Yellow => 1
    case Green => 2
  }

  /** A category's sub-object; only its score is shown here. */
  datatype CategoryScore = CategoryScore(score: int)

  datatype Feedback = Feedback(
    overallScore: int,
    toneAndStyle: CategoryScore,
    content: CategoryScore,
    structure: CategoryScore,
    skills: CategoryScore)

  /** One displayed category: title, score and the colour of the score. */
  datatype CategoryRow = CategoryRow(title: string, score: int, colour: Colour)

  /** The colour of a score: green above 70, yellow above 49, red otherwise. */
  function CategoryColour(score: int): (c: Colour)
    ensures c == Green <==> score > 70
    ensures c == Yellow <==> 49 < score <= 70
    ensures c == Red <==> score <= 49
  {
    if score > 70 then Green
    else if score > 49 then Yellow
    else Red
  }

  /** A higher score never gets a worse colour. */
  lemma CategoryColourMonotone(a: int, b: int)
    requires a <= b
    ensures Rank(CategoryColour(a)) <= Rank(CategoryColour(b))
  {
  }

  function Row(title: string, category: CategoryScore): CategoryRow {
    CategoryRow(title, category.score, CategoryColour(category.score))
  }

  /** The four categories, in display order. */
  function Categories(f: Feedback): (rows: seq<CategoryRow>)
    ensures |rows| == 4
    ensures rows[0].title == "语调与风格" && rows[0].score == f.toneAndStyle.score
    ensures rows[1].title == "内容" && rows[1].score == f.content.score
    ensures rows[2].title == "结构" && rows[2].score == f.structure.score
    ensures rows[3].title == "技能" && rows[3].score == f.skills.score
    ensures forall i :: 0 <= i < |rows| ==> rows[i].colour == CategoryColour(rows[i].score)
  {
    [ Row("语调与风格", f.toneAndStyle),
      Row("内容", f.content),
      Row("结构", f.structure),
      Row("技能", f.skills) ]
  }
}
