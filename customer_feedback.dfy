/** The customer's feedback page: step 1 asks for a star rating, step 2 for an optional
    comment; sending or skipping stores one anonymous entry in the browser's `feedback` list
    and shows the thank-you screen. The entry's id and timestamp come from the clock and are
    parameters. */
module CustomerFeedback {
  import opened Wrappers

  const Anonymous := "Anonymous"

  /** An entry of the stored `feedback` list. */
  datatype Entry = Entry(id: int, rating: int, comment: string, timestamp: string, customer: string)

  /** The rating and the comment a submit handler captured when it was invoked; the entry
      written after the delay carries these, even if the comment was edited meanwhile. */
  datatype Pending = Pending(rating: int, comment: string)

  function EntryOf(pending: Pending, id: int, timestamp: string): (e: Entry)
    ensures e.rating == pending.rating && e.comment == pending.comment
    ensures e.customer == Anonymous && e.id == id && e.timestamp == timestamp
  {
    Entry(id, pending.rating, pending.comment, timestamp, Anonymous)
  }

  /** The messages under the stars in step 1, for ratings 0 to 5. */
  const Labels: seq<string> := [
    "Bitte wählen Sie eine Bewertung", "Sehr unzufrieden", "Unzufrieden", "Neutral", "Zufrieden", "Sehr zufrieden"
  ]

  /** The text of the six conditional fragments `{rating === k && "…"}`, rendered one after
      the other; a fragment whose condition is false renders nothing. */
  function RatingLabel(rating: int): string
  {
    (if rating == 0 then Labels[0] else "") +
    (if rating == 1 then Labels[1] else "") +
    (if rating == 2 then Labels[2] else "") +
    (if rating == 3 then Labels[3] else "") +
    (if rating == 4 then Labels[4] else "") +
    (if rating == 5 then Labels[5] else "")
  }

  /** Each rating from 0 to 5 shows exactly its own message, the six messages are distinct,
      and any other value shows nothing. */
  lemma RatingLabelSpec(rating: int)
    ensures 0 <= rating <= 5 ==> RatingLabel(rating) == Labels[rating]
    ensures !(0 <= rating <= 5) ==> RatingLabel(rating) == ""
    ensures forall i, j :: 0 <= i < j < 6 ==> Labels[i] != Labels[j]
  {
    assert |Labels[0]| == 31 && |Labels[1]| == 16 && |Labels[2]| == 11;
    assert |Labels[3]| == 7 && |Labels[4]| == 9 && |Labels[5]| == 14;
  }

  class FeedbackPage {
    var step: int
    var rating: int
    /** The text of the comment box (`feedback` in the component). */
    var comment: string
    var isSubmitting: bool
    var isSubmitted: bool
    /** The `feedback` entry of local storage; `None` when there is none. */
    var stored: Option<seq<Entry>>

    /** Step 2 is reached only with a rating. */
    predicate Valid()
      reads this
    {
      (step == 1 || step == 2) && (step == 2 ==> rating > 0)
    }

    /** The list the submit handler reads: `JSON.parse(localStorage.getItem('feedback') || '[]')`. */
    function Existing(): (entries: seq<Entry>)
      reads this
      ensures stored.Some? ==> entries == stored.value
      ensures stored.None? ==> entries == []
    {
      if stored.Some? then stored.value else []
    }

    constructor (storage: Option<seq<Entry>>)
      ensures step == 1 && rating == 0 && comment == ""
      ensures !isSubmitting && !isSubmitted && stored == storage
      ensures Valid()
    {
      step, rating, comment := 1, 0, "";
      isSubmitting, isSubmitted := false, false;
      stored := storage;
    }

    /** The step-1 star widget's `onRatingChange`. */
    method SetRating(r: int)
      modifies this
      ensures rating == r
      ensures step == old(step) && comment == old(comment) && stored == old(stored)
      ensures isSubmitting == old(isSubmitting) && isSubmitted == old(isSubmitted)
      ensures old(Valid()) && (step == 1 || r > 0) ==> Valid()
    {
      rating := r;
    }

    /** The comment box's change handler. */
    method SetComment(text: string)
      modifies this
      ensures comment == text
      ensures step == old(step) && rating == old(rating) && stored == old(stored)
      ensures isSubmitting == old(isSubmitting) && isSubmitted == old(isSubmitted)
    {
      comment := text;
    }

    /** `handleRatingSubmit` ("Weiter"): to step 2 when a rating is chosen, otherwise no change. */
    method RatingSubmit()
      modifies this
      ensures old(rating) > 0 ==> step == 2
      ensures old(rating) <= 0 ==> step == old(step)
      ensures rating == old(rating) && comment == old(comment) && stored == old(stored)
      ensures isSubmitting == old(isSubmitting) && isSubmitted == old(isSubmitted)
      ensures old(Valid()) ==> Valid()
    {
      if rating > 0 {
        step := 2;
      }
    }

    /** The first half of `handleFeedbackSubmit`, up to the one-second delay: the buttons
        are disabled while a submission is under way, so none is. */
    method BeginSubmit() returns (pending: Pending)
      requires !isSubmitting
      modifies this
      ensures pending == Pending(old(rating), old(comment))
      ensures isSubmitting
      ensures step == old(step) && rating == old(rating) && comment == old(comment)
      ensures stored == old(stored) && isSubmitted == old(isSubmitted)
    {
      isSubmitting := true;
      pending := Pending(rating, comment);
    }

    /** The second half, after the delay: exactly one entry with the captured rating and
        comment and the customer "Anonymous" is appended to the stored list, and the page
        switches to the thank-you screen. When reading or writing local storage throws
        (`storageFails`: an unparsable entry, a full quota) the handler stops there: nothing
        is stored and the page stays in the submitting state with its buttons disabled. */
    method CompleteSubmit(pending: Pending, id: int, timestamp: string, storageFails: bool)
      modifies this
      ensures !storageFails ==> stored == Some(old(Existing()) + [EntryOf(pending, id, timestamp)])
      ensures !storageFails ==> !isSubmitting && isSubmitted
      ensures storageFails ==> stored == old(stored) && isSubmitting == old(isSubmitting) && isSubmitted == old(isSubmitted)
      ensures step == old(step) && rating == old(rating) && comment == old(comment)
    {
      if storageFails {
        return;
      }
      var existing := Existing();
      stored := Some(existing + [EntryOf(pending, id, timestamp)]);
      isSubmitting := false;
      isSubmitted := true;
    }

    /** "Absenden" (`handleFeedbackSubmit`) run to completion with no edit during the delay. */
    method FeedbackSubmit(id: int, timestamp: string, storageFails: bool)
      requires !isSubmitting
      modifies this
      ensures !storageFails ==> stored == Some(old(Existing()) + [Entry(id, old(rating), old(comment), timestamp, Anonymous)])
      ensures !storageFails ==> |Existing()| == |old(Existing())| + 1 && Existing()[..|old(Existing())|] == old(Existing())
      ensures !storageFails ==> !isSubmitting && isSubmitted
      ensures storageFails ==> stored == old(stored) && isSubmitting && isSubmitted == old(isSubmitted)
      ensures step == old(step) && rating == old(rating) && comment == old(comment)
    {
      var pending := BeginSubmit();
      CompleteSubmit(pending, id, timestamp, storageFails);
    }

    /** "Überspringen" (`handleSkipFeedback`) calls the same handler, so it too stores the
        comment typed so far. */
    method SkipFeedback() returns (pending: Pending)
      requires !isSubmitting
      modifies this
      ensures pending == Pending(old(rating), old(comment))
      ensures isSubmitting
      ensures step == old(step) && rating == old(rating) && comment == old(comment)
      ensures stored == old(stored) && isSubmitted == old(isSubmitted)
    {
      pending := BeginSubmit();
    }
  }

  /** A customer rates four stars, moves on, types a comment, edits it during the delay,
      and the stored entry keeps the comment as it was when "Absenden" was pressed. */
  method RateCommentSubmit(id: int, timestamp: string)
  {
    var page := new FeedbackPage(None);
    page.RatingSubmit();
    assert page.step == 1;
    page.SetRating(4);
    page.RatingSubmit();
    assert page.step == 2 && page.Valid();
    page.SetComment("Gut");
    var pending := page.BeginSubmit();
    page.SetComment("Sehr gut");
    assert page.Existing() == [];
    page.CompleteSubmit(pending, id, timestamp, false);
    assert [] + [EntryOf(pending, id, timestamp)] == [Entry(id, 4, "Gut", timestamp, Anonymous)];
    assert page.stored == Some([Entry(id, 4, "Gut", timestamp, Anonymous)]);
    assert page.isSubmitted && !page.isSubmitting;
  }
}
