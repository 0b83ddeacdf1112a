/**
 * The `useReviewPrompt` hook of hooks/use-review-prompt.ts: the `shouldShow`
 * and `isChecking` state of one screen, kept in step with the review store.
 */
module ReviewPrompt {
  import opened ReviewStorage

  class ReviewPromptState {
    var quizzesCompleted: nat
    var shouldShow: bool
    var isChecking: bool
    const storage: ReviewStore

    ghost predicate Valid()
      reads this, storage
    {
      storage.Valid()
    }

    /** The hook's first render: not shown, check pending. */
    constructor (quizzesCompleted: nat, storage: ReviewStore)
      requires storage.Valid()
      ensures Valid()
      ensures this.quizzesCompleted == quizzesCompleted && this.storage == storage
      ensures !shouldShow && isChecking
    {
      this.quizzesCompleted := quizzesCompleted;
      this.storage := storage;
      shouldShow := false;
      isChecking := true;
    }

    /** `checkShouldShow`: asks the policy for the current quiz count. */
    method CheckShouldShow()
      requires Valid()
      modifies this
      ensures Valid()
      ensures quizzesCompleted == old(quizzesCompleted)
      ensures shouldShow == ShouldShowReview(storage.items, quizzesCompleted)
      ensures !isChecking
    {
      isChecking := true;
      var show := ShouldShowReview(storage.items, quizzesCompleted);
      shouldShow := show;
      isChecking := false;
    }

    /** The effect on `[quizzesCompleted]`: a new count re-runs the check. */
    method QuizzesCompletedChanged(count: nat)
      requires Valid()
      modifies this
      ensures Valid()
      ensures quizzesCompleted == count
      ensures count != old(quizzesCompleted) ==>
        shouldShow == ShouldShowReview(storage.items, count) && !isChecking
      ensures count == old(quizzesCompleted) ==>
        shouldShow == old(shouldShow) && isChecking == old(isChecking)
    {
      if count != quizzesCompleted {
        quizzesCompleted := count;
        CheckShouldShow();
      }
    }

    /**
     * `handleDismiss`: one more dismissal; the fifth one also sets the
     * opt-out flag, after which the prompt never shows again.
     */
    method HandleDismiss()
      requires Valid()
      modifies this, storage
      ensures Valid()
      ensures !shouldShow && isChecking == old(isChecking) && quizzesCompleted == old(quizzesCompleted)
      ensures DismissCount(storage.items) == old(DismissCount(storage.items)) + 1
      ensures LastReviewQuizCount(storage.items) == old(LastReviewQuizCount(storage.items))
      ensures DontAskAgain(storage.items) ==
        (old(DontAskAgain(storage.items)) || old(DismissCount(storage.items)) + 1 >= MaxDismissals)
      ensures old(DismissCount(storage.items)) + 1 >= MaxDismissals ==>
        forall c: nat :: !ShouldShowReview(storage.items, c)
    {
      var newCount := storage.IncrementDismissCount();
      shouldShow := false;
      if newCount >= MaxDismissals {
        storage.SetDontAskAgain(true);
      }
    }

    /** `handleDontAskAgain` */
    method HandleDontAskAgain()
      requires Valid()
      modifies this, storage
      ensures Valid()
      ensures !shouldShow && isChecking == old(isChecking) && quizzesCompleted == old(quizzesCompleted)
      ensures storage.items == old(storage.items)[DontAskAgainKey := BoolText(true)]
      ensures forall c: nat :: !ShouldShowReview(storage.items, c)
    {
      storage.SetDontAskAgain(true);
      shouldShow := false;
    }

    /** `handleSubmitSuccess`: the current count becomes the last reviewed one. */
    method HandleSubmitSuccess()
      requires Valid()
      modifies this, storage
      ensures Valid()
      ensures !shouldShow && isChecking == old(isChecking) && quizzesCompleted == old(quizzesCompleted)
      ensures storage.items == MarkedAsReviewed(old(storage.items), quizzesCompleted)
      ensures LastReviewQuizCount(storage.items) == quizzesCompleted
      ensures DismissCount(storage.items) == 0
      ensures !ShouldShowReview(storage.items, quizzesCompleted)
    {
      storage.MarkAsReviewed(quizzesCompleted);
      shouldShow := false;
    }
  }
}
