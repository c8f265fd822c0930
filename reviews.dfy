/**
 * The review list component: the new-review and edit-review forms, their
 * checks, the tag parsing, the edit prefill and the author-only controls.
 */
module ReviewList {
  import opened Optional
  import opened Strings
  import opened Server

  /** A review as the server returns it; `authorId` is `review.user?._id`. */
  datatype Review = Review(id: string, authorId: Option<string>, rating: Option<int>, comment: string, tags: Option<seq<string>>)

  /** The state of either form: the star rating (`None` once cleared), the comment and the tags text. */
  datatype ReviewForm = ReviewForm(rating: Option<int>, comment: string, tags: string)

  /** What the create and update requests carry besides the target. */
  datatype ReviewBody = ReviewBody(rating: Option<int>, comment: string, tags: seq<string>)

  /** The update request: the edited review's id, then the body. */
  datatype UpdateRequest = UpdateRequest(reviewId: string, body: ReviewBody)

  /** The create request: the reviewed model and id, then the body. */
  datatype CreateRequest = CreateRequest(targetModel: string, targetId: string, body: ReviewBody)

  /** A fresh form: five stars, empty comment, no tags. */
  const EmptyForm := ReviewForm(Some(5), "", "")

  const NoCommentMessage := "Please enter a comment"
  const NoRatingMessage := "Please select a rating"

  /** JavaScript truthiness of the rating: `null` and 0 are falsy. */
  predicate HasRating(rating: Option<int>) {
    rating.Some? && rating.value != 0
  }

  /** The new-review checks: a blank comment first, then a missing rating. */
  function CreateCheck(form: ReviewForm): (r: Option<string>)
    ensures IsBlank(form.comment) ==> r == Some(NoCommentMessage)
    ensures !IsBlank(form.comment) && !HasRating(form.rating) ==> r == Some(NoRatingMessage)
    ensures r == None <==> !IsBlank(form.comment) && HasRating(form.rating)
  {
    if |Trim(form.comment)| == 0 then Some(NoCommentMessage)
    else if !HasRating(form.rating) then Some(NoRatingMessage)
    else None
  }

  /** The edit check: only a blank comment is refused; the rating is not looked at. */
  function EditCheck(form: ReviewForm): (r: Option<string>)
    ensures r == None <==> !IsBlank(form.comment)
    ensures r != None ==> r == Some(NoCommentMessage)
  {
    if |Trim(form.comment)| == 0 then Some(NoCommentMessage) else None
  }

  /** The body both forms send: rating and comment as typed, tags parsed from the text. */
  function BodyOf(form: ReviewForm): (b: ReviewBody)
    ensures b.rating == form.rating && b.comment == form.comment
    ensures b.tags == ParseCommaList(form.tags)
  {
    ReviewBody(form.rating, form.comment, ParseCommaList(form.tags))
  }

  /** `handleEditClick`'s prefill: tags joined with ", ", no tags giving "". */
  function EditFormOf(review: Review): (form: ReviewForm)
    ensures form.rating == review.rating && form.comment == review.comment
    ensures review.tags == None ==> form.tags == ""
    ensures review.tags.Some? ==> form.tags == JoinList(review.tags.value)
  {
    ReviewForm(review.rating, review.comment, if review.tags.Some? then JoinList(review.tags.value) else "")
  }

  /**
   * Saving an edit form left as prefilled sends the review's own tags back,
   * when each tag is non-empty, trimmed and free of commas.
   */
  lemma UnchangedEditKeepsTags(review: Review)
    requires review.tags.Some?
    requires forall i :: 0 <= i < |review.tags.value| ==> IsListEntry(review.tags.value[i])
    ensures BodyOf(EditFormOf(review)).tags == review.tags.value
  {
    ParseJoinRoundTrip(review.tags.value);
  }

  /** `user?._id === review.user?._id`: the edit and delete controls show exactly when this holds. */
  predicate IsOwner(userId: Option<string>, review: Review) {
    userId == review.authorId
  }

  /**
   * With nobody signed in and a review without an author, both sides are
   * `undefined` and the controls show.
   */
  lemma OwnerWhenBothAbsent(review: Review)
    requires review.authorId == None
    ensures IsOwner(None, review)
  {
  }

  /** What `handleEditSubmit` leaves behind: the request sent, the review handed on, and the new error, dialog and editing state. */
  datatype EditSubmitOutcome = EditSubmitOutcome(
    sent: Option<UpdateRequest>, updated: Option<Review>,
    error: string, showEditDialog: bool, editingReview: Option<Review>)

  /**
   * The outcome of submitting the edit form: the update goes out exactly when
   * the comment is not blank and a review is being edited; the dialog closes
   * and the review is handed on exactly when that update is accepted, and
   * otherwise the dialog and the edited review stay as they were.
   */
  function EditSubmitted(form: ReviewForm, editing: Option<Review>, error: string, showEditDialog: bool, reply: Reply<Review>): (r: EditSubmitOutcome)
    ensures r.sent.Some? <==> !IsBlank(form.comment) && editing.Some?
    ensures r.sent.Some? ==> r.sent.value == UpdateRequest(editing.value.id, BodyOf(form))
    ensures r.updated.Some? <==> r.sent.Some? && reply.Ok?
    ensures r.updated.Some? ==> r.updated.value == reply.data && !r.showEditDialog && r.editingReview == None
    ensures r.updated.None? ==> r.showEditDialog == showEditDialog && r.editingReview == editing
    ensures IsBlank(form.comment) ==> r.error == NoCommentMessage
    ensures !IsBlank(form.comment) && editing.None? ==> r.error == "Error updating review"
    ensures r.sent.Some? && reply.Failed? ==> r.error == OrElse(reply.message, "Error updating review")
    ensures r.updated.Some? ==> r.error == error
  {
    if EditCheck(form).Some? then EditSubmitOutcome(None, None, NoCommentMessage, showEditDialog, editing)
    else if editing.None? then EditSubmitOutcome(None, None, "Error updating review", showEditDialog, editing)
    else
      var request := UpdateRequest(editing.value.id, BodyOf(form));
      match reply
      case Ok(review) => EditSubmitOutcome(Some(request), Some(review), error, false, None)
      case Failed(message) => EditSubmitOutcome(Some(request), None, OrElse(message, "Error updating review"), showEditDialog, editing)
  }

  /** The component's state. */
  class ReviewListState {
    var newReview: ReviewForm
    var editForm: ReviewForm
    var error: string
    var editingReview: Option<Review>
    var showEditDialog: bool

    constructor ()
      ensures newReview == EmptyForm && editForm == EmptyForm && error == ""
      ensures editingReview == None && !showEditDialog
    {
      newReview := EmptyForm;
      editForm := EmptyForm;
      error := "";
      editingReview := None;
      showEditDialog := false;
    }

    /**
     * `handleSubmit`: a failed check sets its message and sends nothing;
     * otherwise the error is cleared and the request sent. After a created
     * review the form resets and the review is handed to `onReviewAdded`.
     */
    method HandleSubmit(targetModel: string, targetId: string, reply: Reply<Review>)
      returns (sent: Option<CreateRequest>, added: Option<Review>)
      modifies this`newReview, this`error
      ensures CreateCheck(old(newReview)).Some? ==>
        && sent == None && added == None
        && error == CreateCheck(old(newReview)).value && newReview == old(newReview)
      ensures CreateCheck(old(newReview)) == None ==>
        sent == Some(CreateRequest(targetModel, targetId, BodyOf(old(newReview))))
      ensures CreateCheck(old(newReview)) == None && reply.Ok? ==>
        newReview == EmptyForm && error == "" && added == Some(reply.data)
      ensures CreateCheck(old(newReview)) == None && reply.Failed? ==>
        && newReview == old(newReview) && added == None
        && error == OrElse(reply.message, "Error submitting review")
    {
      var check := CreateCheck(newReview);
      if check.Some? {
        error := check.value;
        return None, None;
      }
      error := "";
      sent := Some(CreateRequest(targetModel, targetId, BodyOf(newReview)));
      match reply
      case Ok(review) =>
        newReview := EmptyForm;
        added := Some(review);
      case Failed(message) =>
        error := OrElse(message, "Error submitting review");
        added := None;
    }

    method HandleEditClick(review: Review)
      modifies this`editingReview, this`editForm, this`showEditDialog
      ensures editingReview == Some(review) && editForm == EditFormOf(review) && showEditDialog
    {
      editingReview := Some(review);
      editForm := EditFormOf(review);
      showEditDialog := true;
    }

    /**
     * `handleEditSubmit`: a blank comment is refused; otherwise the update is
     * sent for the review being edited and, once accepted, the dialog closes
     * and the updated review goes to `onReviewUpdated`. With no review being
     * edited, reading its id throws inside the `try` and the fallback message shows.
     */
    method HandleEditSubmit(reply: Reply<Review>) returns (sent: Option<UpdateRequest>, updated: Option<Review>)
      modifies this`error, this`showEditDialog, this`editingReview
      ensures EditSubmitOutcome(sent, updated, error, showEditDialog, editingReview)
        == EditSubmitted(old(editForm), old(editingReview), old(error), old(showEditDialog), reply)
    {
      sent, updated := None, None;
      var check := EditCheck(editForm);
      if check.Some? {
        error := NoCommentMessage;
      } else if editingReview.None? {
        error := "Error updating review";
      } else {
        sent := Some(UpdateRequest(editingReview.value.id, BodyOf(editForm)));
        if reply.Ok? {
          showEditDialog := false;
          editingReview := None;
          updated := Some(reply.data);
        } else {
          error := OrElse(reply.message, "Error updating review");
        }
      }
    }

    /** `handleDelete`: only a confirmed and accepted delete reaches `onReviewDeleted`. */
    method HandleDelete(reviewId: string, confirmed: bool, reply: Reply<()>) returns (deleted: Option<string>)
      modifies this`error
      ensures deleted == Some(reviewId) <==> confirmed && reply.Ok?
      ensures deleted == None || deleted == Some(reviewId)
      ensures confirmed && reply.Failed? ==> error == OrElse(reply.message, "Error deleting review")
      ensures !(confirmed && reply.Failed?) ==> error == old(error)
    {
      if !confirmed {
        return None;
      }
      match reply
      case Ok(_) =>
        deleted := Some(reviewId);
      case Failed(message) =>
        error := OrElse(message, "Error deleting review");
        deleted := None;
    }
  }
}
