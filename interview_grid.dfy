/**
 * The grid's copy of the card component. It repeats the gradient table and
 * the index expression of the card word for word; this module states its
 * own copy and proves that it agrees with the card's for every id.
 */
module InterviewGrid {
  import Card = InterviewCard

  /** The grid file's `gradients` table (InterviewGrid.tsx lines 14-20). */
  const Gradients: seq<Card.Gradient> := [
    Card.Gradient("#B3EEE3", "#E5F9F4"),
    Card.Gradient("#C7E3F7", "#FFFFFF"),
    Card.Gradient("#87B2FF", "#6288CE"),
    Card.Gradient("#18326F", "#87B2FF"),
    Card.Gradient("#E5F9F4", "#C7E3F7")
  ]

  /** The grid file's index (lines 29-31): the code-unit sum modulo 5, inside the table. */
  function GradientIndex(id: string): (i: nat)
    ensures i < |Gradients| == 5
    ensures i == Card.Sum(Card.CodeUnits(id)) % 5
  {
    Card.Abs(Card.Sum(Card.CodeUnits(id))) % |Gradients|
  }

  function GridGradient(id: string): (g: Card.Gradient)
    ensures g in Gradients
  {
    Gradients[GradientIndex(id)]
  }

  /** The duplicate agrees with the card: same table, same index, same colours for every id. */
  lemma SameAsCard(id: string)
    ensures Gradients == Card.Gradients
    ensures GradientIndex(id) == Card.GradientIndex(id)
    ensures GridGradient(id) == Card.CardGradient(id)
  {
  }

  /** Permuting the characters of an id leaves the grid's index unchanged. */
  lemma IndexPermutation(a: string, b: string)
    requires multiset(a) == multiset(b)
    ensures GradientIndex(a) == GradientIndex(b)
  {
    Card.IndexPermutation(a, b);
  }

  /** The empty id takes the first gradient. */
  lemma EmptyIndex()
    ensures GradientIndex("") == 0
  {
  }
}
