/** The five-star widget: which stars are lit, and the click, hover and leave handlers, all
    of which do nothing when the widget is read-only. */
module StarRating {
  import opened Wrappers

  /** `hoveredRating || rating`: the hovered star while there is one, the rating otherwise. */
  function Effective(hovered: int, rating: int): int
  {
    if hovered != 0 then hovered else rating
  }

  /** `starValue <= (hoveredRating || rating)`. */
  predicate IsActive(star: int, hovered: int, rating: int)
  {
    star <= Effective(hovered, rating)
  }

  /** Whether stars 1 to 5 are lit, in order. */
  function Lit(hovered: int, rating: int): (lit: seq<bool>)
    ensures |lit| == 5
    ensures forall i :: 0 <= i < 5 ==> (lit[i] <==> IsActive(i + 1, hovered, rating))
  {
    seq(5, i requires 0 <= i < 5 => IsActive(i + 1, hovered, rating))
  }

  function Clamp(n: int): nat
  {
    if n < 0 then 0 else if n > 5 then 5 else n
  }

  /** The lit stars are a prefix of the row, as long as the effective rating (clamped to 0..5);
      with no hover that is the rating itself. */
  lemma LitIsPrefix(hovered: int, rating: int)
    ensures forall i, j :: 0 <= i <= j < 5 && Lit(hovered, rating)[j] ==> Lit(hovered, rating)[i]
    ensures forall i :: 0 <= i < 5 ==> (Lit(hovered, rating)[i] <==> i < Clamp(Effective(hovered, rating)))
    ensures hovered == 0 ==> Lit(hovered, rating) == Lit(rating, 0)
    ensures hovered != 0 ==> Lit(hovered, rating) == Lit(hovered, 0)
  {
  }

  class Widget {
    const readonly: bool
    var hoveredRating: int

    /** No hover in a read-only widget, and the hover is one of the five stars or none. */
    predicate Valid()
      reads this
    {
      0 <= hoveredRating <= 5 && (readonly ==> hoveredRating == 0)
    }

    constructor (isReadonly: bool)
      ensures readonly == isReadonly && hoveredRating == 0
      ensures Valid()
    {
      readonly := isReadonly;
      hoveredRating := 0;
    }

    /** `handleStarClick`: a read-only widget reports nothing; otherwise the clicked star's
        value is passed to `onRatingChange`. Only the five star buttons call it. */
    method Click(star: int) returns (reported: Option<int>)
      requires 1 <= star <= 5
      ensures readonly ==> reported == None
      ensures !readonly ==> reported == Some(star) && 1 <= reported.value <= 5
    {
      if !readonly {
        reported := Some(star);
      } else {
        reported := None;
      }
    }

    /** `handleStarHover`: lights the stars up to the hovered one, unless read-only. */
    method Hover(star: int)
      requires 1 <= star <= 5
      modifies this
      ensures readonly ==> hoveredRating == old(hoveredRating)
      ensures !readonly ==> hoveredRating == star
      ensures old(Valid()) ==> Valid()
      ensures !readonly ==> forall rating :: Lit(hoveredRating, rating) == Lit(star, 0)
    {
      if !readonly {
        hoveredRating := star;
        LitIsPrefix(star, 0);
        forall rating ensures Lit(hoveredRating, rating) == Lit(star, 0) {
          LitIsPrefix(star, rating);
        }
      }
    }

    /** `handleMouseLeave`: clears the hover, unless read-only, so the row shows the rating. */
    method MouseLeave()
      modifies this
      ensures readonly ==> hoveredRating == old(hoveredRating)
      ensures !readonly ==> hoveredRating == 0
      ensures old(Valid()) ==> Valid()
      ensures Valid() ==> forall rating :: Lit(hoveredRating, rating) == Lit(0, rating)
    {
      if !readonly {
        hoveredRating := 0;
      }
    }
  }

  /** Hovering star 2 over a rating of 4 lights two stars; leaving lights four again. */
  method HoverAndLeave()
  {
    var w := new Widget(false);
    w.Hover(2);
    LitIsPrefix(2, 4);
    assert Lit(w.hoveredRating, 4) == [true, true, false, false, false];
    w.MouseLeave();
    LitIsPrefix(0, 4);
    assert Lit(w.hoveredRating, 4) == [true, true, true, true, false];
    var r := w.Click(3);
    assert r == Some(3);
  }
}
