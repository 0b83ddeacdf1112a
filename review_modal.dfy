/**
 * The form of app/modal.tsx: a star rating and optional feedback, a submit
 * that sends the review and then settles, and the two dismiss buttons. The
 * network call is split into the send (`HandleSubmit`) and its settling
 * (`SubmitSettled`), so that the state while the request is pending is seen.
 */
module ReviewModal {
  import opened Wrappers
  import opened Toasts
  import opened Text

  const SelectRating := "Please select a rating"
  const ThankYou := "Thank you for your feedback!"
  const SubmitFailed := "Failed to submit review. Please try again."
  const Anonymous := "Anonymous"

  /** The signed-in user as the modal reads it: `user?.fullName` and `user?.email`. */
  datatype Profile = Profile(fullName: Option<string>, email: Option<string>)

  /** `SubmitReviewData` of types/review.ts */
  datatype ReviewData = ReviewData(userName: string, userEmail: string, rating: int, feedback: string)

  /** The callbacks the modal invokes, in the order it invokes them. */
  datatype ModalEvent = SubmitSuccess | DontAskAgain | Close

  /** The field of `user` if the user is signed in. */
  function Field(user: Option<Profile>, name: bool): Option<string> {
    match user
    case None => None
    case Some(p) => if name then p.fullName else p.email
  }

  /** `{ userName: user?.fullName || "Anonymous", userEmail: user?.email || "", rating, feedback: feedback.trim() }` */
  function Payload(user: Option<Profile>, rating: int, feedback: string): (data: ReviewData)
    ensures data.userName != ""
    ensures Truthy(Field(user, true)) ==> data.userName == Field(user, true).value
    ensures !Truthy(Field(user, true)) ==> data.userName == Anonymous
    ensures Truthy(Field(user, false)) ==> data.userEmail == Field(user, false).value
    ensures !Truthy(Field(user, false)) ==> data.userEmail == ""
    ensures data.rating == rating
    ensures Trimmed(data.feedback) && |data.feedback| <= |feedback|
    ensures data.feedback == "" <==> AllWhitespace(feedback)
  {
    var name := Field(user, true);
    var email := Field(user, false);
    ReviewData(
      if Truthy(name) then name.value else Anonymous,
      if Truthy(email) then email.value else "",
      rating,
      Trim(feedback))
  }

  /** Feedback with whitespace around it is sent as its trimmed core. */
  lemma PayloadFeedbackTrimmed(user: Option<Profile>, rating: int, w1: string, core: string, w2: string)
    requires AllWhitespace(w1) && AllWhitespace(w2) && core != [] && Trimmed(core)
    ensures Payload(user, rating, w1 + core + w2).feedback == core
  {
    TrimAround(w1, core, w2);
  }

  /** The five stars, numbered 1 to 5. */
  const Stars: seq<int> := [1, 2, 3, 4, 5]

  /** How many of `stars` are drawn filled: star `k` is filled when `k <= rating`. */
  function CountFilled(stars: seq<int>, rating: int): (n: nat)
    ensures n <= |stars|
  {
    if stars == [] then 0
    else (if stars[0] <= rating then 1 else 0) + CountFilled(stars[1..], rating)
  }

  /** A rating of 1 to 5 fills exactly that many stars, the first ones. */
  lemma {:induction false} FilledStarsArePrefix(rating: int)
    requires 1 <= rating <= 5
    ensures CountFilled(Stars, rating) == rating
    ensures forall k :: 0 <= k < |Stars| ==> (Stars[k] <= rating <==> k < rating)
  {
    assert Stars[1..] == [2, 3, 4, 5];
    assert Stars[2..] == [3, 4, 5];
    assert Stars[3..] == [4, 5];
    assert Stars[4..] == [5];
    assert Stars[5..] == [];
  }

  class ReviewForm {
    const user: Option<Profile>
    var rating: int
    var feedback: string
    var isSubmitting: bool
    var toast: Option<Toast>
    /** The callbacks invoked so far. */
    var events: seq<ModalEvent>

    constructor(user: Option<Profile>)
      ensures this.user == user
      ensures rating == 0 && feedback == "" && !isSubmitting && toast == None && events == []
    {
      this.user := user;
      rating := 0;
      feedback := "";
      isSubmitting := false;
      toast := None;
      events := [];
    }

    /** Star `star` is drawn filled. */
    predicate StarFilled(star: int)
      reads this
    {
      star <= rating
    }

    /** `disabled={isSubmitting}` on the submit button and on both dismiss buttons. */
    predicate SubmitDisabled()
      reads this
    {
      isSubmitting
    }

    /** `handleStarPress`: the pressed star becomes the rating. */
    method HandleStarPress(star: int)
      modifies this
      ensures rating == star
      ensures feedback == old(feedback) && isSubmitting == old(isSubmitting)
      ensures toast == old(toast) && events == old(events)
      ensures forall k :: 1 <= k <= 5 ==> (StarFilled(k) <==> k <= star)
    {
      rating := star;
    }

    /** `onChangeText={setFeedback}` */
    method SetFeedback(text: string)
      modifies this
      ensures feedback == text
      ensures rating == old(rating) && isSubmitting == old(isSubmitting)
      ensures toast == old(toast) && events == old(events)
    {
      feedback := text;
    }

    /**
     * The first half of `handleSubmit`: with no rating, an error toast and
     * nothing sent; otherwise the review is sent and the form is submitting.
     */
    method HandleSubmit() returns (sent: Option<ReviewData>)
      modifies this
      ensures old(rating) == 0 ==> sent == None && toast == Some(Toast(SelectRating, Error))
      ensures old(rating) == 0 ==> isSubmitting == old(isSubmitting)
      ensures old(rating) != 0 ==> sent == Some(Payload(user, rating, feedback))
      ensures old(rating) != 0 ==> isSubmitting && toast == old(toast)
      ensures old(rating) != 0 ==> SubmitDisabled()
      ensures rating == old(rating) && feedback == old(feedback) && events == old(events)
    {
      if rating == 0 {
        toast := Some(Toast(SelectRating, Error));
        return None;
      }
      isSubmitting := true;
      sent := Some(Payload(user, rating, feedback));
    }

    /**
     * The second half of `handleSubmit`, once the request settles: success
     * thanks the user, clears the form and calls `onSubmitSuccess`; failure
     * keeps the form; either way the form stops submitting.
     */
    method SubmitSettled(succeeded: bool)
      requires isSubmitting
      modifies this
      ensures !isSubmitting && !SubmitDisabled()
      ensures succeeded ==> toast == Some(Toast(ThankYou, Success))
      ensures succeeded ==> rating == 0 && feedback == "" && events == old(events) + [SubmitSuccess]
      ensures !succeeded ==> toast == Some(Toast(SubmitFailed, Error))
      ensures !succeeded ==> rating == old(rating) && feedback == old(feedback) && events == old(events)
    {
      if succeeded {
        toast := Some(Toast(ThankYou, Success));
        rating := 0;
        feedback := "";
        events := events + [SubmitSuccess];
      } else {
        toast := Some(Toast(SubmitFailed, Error));
      }
      isSubmitting := false;
    }

    /** `handleDontAskAgain`: clear the form, then call `onDontAskAgain`. */
    method HandleDontAskAgain()
      modifies this
      ensures rating == 0 && feedback == ""
      ensures events == old(events) + [DontAskAgain]
      ensures isSubmitting == old(isSubmitting) && toast == old(toast)
    {
      rating := 0;
      feedback := "";
      events := events + [DontAskAgain];
    }

    /** `handleMaybeLater`: clear the form, then call `onClose`. */
    method HandleMaybeLater()
      modifies this
      ensures rating == 0 && feedback == ""
      ensures events == old(events) + [Close]
      ensures isSubmitting == old(isSubmitting) && toast == old(toast)
    {
      rating := 0;
      feedback := "";
      events := events + [Close];
    }
  }

  /** A submit with a rating leaves the form not submitting, however the request settles. */
  method SubmitRound(form: ReviewForm, succeeded: bool) returns (sent: Option<ReviewData>)
    requires !form.isSubmitting
    modifies form
    ensures !form.isSubmitting
    ensures sent.Some? <==> old(form.rating) != 0
    ensures sent.Some? ==> sent.value.rating == old(form.rating) && sent.value.rating != 0
  {
    sent := form.HandleSubmit();
    if sent.Some? {
      form.SubmitSettled(succeeded);
    }
  }
}
