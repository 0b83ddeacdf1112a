/**
 * The review-prompt policy of utils/reviewStorage.ts: three entries of a
 * string-to-string key-value store (dismiss count, quiz count at the last
 * review, opt-out flag) and the rule that decides whether to ask for a rating.
 */
module ReviewStorage {
  import Decimal

  const DismissCountKey: string := "@app:review_dismiss_count"
  const LastReviewQuizCountKey: string := "@app:last_review_quiz_count"
  const DontAskAgainKey: string := "@app:review_dont_ask_again"

  /** Dismissals after which the prompt is no longer shown. */
  const MaxDismissals: nat := 5
  /** The prompt is offered every this many completed quizzes. */
  const Milestone: nat := 10

  /** The count entries, when present, hold the numerals this module wrote. */
  predicate WellFormed(items: map<string, string>) {
    && (DismissCountKey in items ==> Decimal.IsCanonical(items[DismissCountKey]))
    && (LastReviewQuizCountKey in items ==> Decimal.IsCanonical(items[LastReviewQuizCountKey]))
  }

  /** `count ? parseInt(count, 10) : 0` for the entry under `key`. */
  function ReadCount(items: map<string, string>, key: string): (n: nat)
    requires key in items ==> Decimal.IsCanonical(items[key])
    ensures key !in items ==> n == 0
    ensures key in items ==> Decimal.Format(n) == items[key]
  {
    if key in items && items[key] != "" then
      Decimal.FormatParse(items[key]);
      Decimal.Parse(items[key])
    else
      0
  }

  /** Writing `n.toString()` under `key` and reading it back gives `n`. */
  lemma CountRoundTrip(items: map<string, string>, key: string, n: nat)
    ensures ReadCount(items[key := Decimal.Format(n)], key) == n
  {
    Decimal.ParseFormat(n);
  }

  /** `getDismissCount` */
  function DismissCount(items: map<string, string>): (n: nat)
    requires WellFormed(items)
    ensures DismissCountKey !in items ==> n == 0
    ensures DismissCountKey in items ==> Decimal.Format(n) == items[DismissCountKey]
  {
    ReadCount(items, DismissCountKey)
  }

  /** `getLastReviewQuizCount` */
  function LastReviewQuizCount(items: map<string, string>): (n: nat)
    requires WellFormed(items)
    ensures LastReviewQuizCountKey !in items ==> n == 0
    ensures LastReviewQuizCountKey in items ==> Decimal.Format(n) == items[LastReviewQuizCountKey]
  {
    ReadCount(items, LastReviewQuizCountKey)
  }

  /** `value.toString()` for a boolean. */
  function BoolText(b: bool): string {
    if b then "true" else "false"
  }

  /** `getDontAskAgain`: only the text "true" reads as true. */
  predicate DontAskAgain(items: map<string, string>) {
    DontAskAgainKey in items && items[DontAskAgainKey] == "true"
  }

  /**
   * The flag reads false while nothing is stored, and after any write it
   * reads true exactly when the text written is `true.toString()`.
   */
  lemma FlagReadsText(items: map<string, string>, t: string)
    ensures DontAskAgainKey !in items ==> !DontAskAgain(items)
    ensures DontAskAgain(items[DontAskAgainKey := t]) <==> t == BoolText(true)
  {
  }

  /** Writing `b.toString()` under the opt-out key and reading it back gives `b`. */
  lemma FlagRoundTrip(items: map<string, string>, b: bool)
    ensures DontAskAgain(items[DontAskAgainKey := BoolText(b)]) == b
  {
  }

  /**
   * `shouldShowReview`: the checks in the source's order, each returning
   * false early; the prompt shows only when all four pass.
   */
  function ShouldShowReview(items: map<string, string>, currentQuizCount: nat): (show: bool)
    requires WellFormed(items)
    ensures show <==>
      && !DontAskAgain(items)
      && DismissCount(items) < MaxDismissals
      && currentQuizCount % Milestone == 0
      && currentQuizCount > LastReviewQuizCount(items)
  {
    if DontAskAgain(items) then false
    else if DismissCount(items) >= MaxDismissals then false
    else if currentQuizCount % Milestone != 0 then false
    else if currentQuizCount <= LastReviewQuizCount(items) then false
    else true
  }

  /** The store after `markAsReviewed(currentQuizCount)`. */
  function MarkedAsReviewed(items: map<string, string>, currentQuizCount: nat): map<string, string> {
    items[LastReviewQuizCountKey := Decimal.Format(currentQuizCount)] - {DismissCountKey}
  }

  /**
   * After `markAsReviewed(c)` the last-review count reads `c`, the dismiss
   * count reads 0, the opt-out flag is as before, and the prompt is not due at `c`.
   */
  lemma {:induction false} MarkedAsReviewedState(items: map<string, string>, currentQuizCount: nat)
    requires WellFormed(items)
    ensures WellFormed(MarkedAsReviewed(items, currentQuizCount))
    ensures LastReviewQuizCount(MarkedAsReviewed(items, currentQuizCount)) == currentQuizCount
    ensures DismissCount(MarkedAsReviewed(items, currentQuizCount)) == 0
    ensures DontAskAgain(MarkedAsReviewed(items, currentQuizCount)) == DontAskAgain(items)
    ensures !ShouldShowReview(MarkedAsReviewed(items, currentQuizCount), currentQuizCount)
  {
    var written := items[LastReviewQuizCountKey := Decimal.Format(currentQuizCount)];
    CountRoundTrip(items, LastReviewQuizCountKey, currentQuizCount);
    assert ReadCount(MarkedAsReviewed(items, currentQuizCount), LastReviewQuizCountKey)
        == ReadCount(written, LastReviewQuizCountKey);
  }

  /**
   * Once a milestone `c` is reviewed, the next prompt can only come at a
   * later milestone: at least `c + 10` when `c` was itself a milestone.
   */
  lemma {:induction false} NextPromptAfterReview(items: map<string, string>, c: nat, later: nat)
    requires WellFormed(items)
    requires ShouldShowReview(MarkedAsReviewed(items, c), later)
    ensures later > c && later % Milestone == 0
    ensures c % Milestone == 0 ==> later >= c + Milestone
  {
    MarkedAsReviewedState(items, c);
  }

  /** Dismissing `MaxDismissals` times or opting out silences the prompt for every count. */
  lemma SilencedForever(items: map<string, string>, c: nat)
    requires WellFormed(items)
    requires DontAskAgain(items) || DismissCount(items) >= MaxDismissals
    ensures !ShouldShowReview(items, c)
  {
  }

  /** The key-value store (AsyncStorage, or localStorage on the web) as one map. */
  class ReviewStore {
    var items: map<string, string>

    ghost predicate Valid()
      reads this
    {
      WellFormed(items)
    }

    constructor (initial: map<string, string>)
      requires WellFormed(initial)
      ensures Valid() && items == initial
    {
      items := initial;
    }

    /** `storage.setItem` */
    method SetItem(key: string, value: string)
      modifies this
      ensures items == old(items)[key := value]
    {
      items := items[key := value];
    }

    /** `storage.removeItem` */
    method RemoveItem(key: string)
      modifies this
      ensures items == old(items) - {key}
    {
      items := items - {key};
    }

    /** `incrementDismissCount`: writes and returns the old count plus one. */
    method IncrementDismissCount() returns (newCount: nat)
      requires Valid()
      modifies this
      ensures Valid()
      ensures newCount == old(DismissCount(items)) + 1
      ensures items == old(items)[DismissCountKey := Decimal.Format(newCount)]
      ensures DismissCount(items) == newCount
      ensures LastReviewQuizCount(items) == old(LastReviewQuizCount(items))
      ensures DontAskAgain(items) == old(DontAskAgain(items))
    {
      var currentCount := DismissCount(items);
      newCount := currentCount + 1;
      SetItem(DismissCountKey, Decimal.Format(newCount));
      CountRoundTrip(old(items), DismissCountKey, newCount);
    }

    /** `resetDismissCount`: removes the entry, so the count reads 0. */
    method ResetDismissCount()
      requires Valid()
      modifies this
      ensures Valid()
      ensures items == old(items) - {DismissCountKey}
      ensures DismissCount(items) == 0
      ensures LastReviewQuizCount(items) == old(LastReviewQuizCount(items))
      ensures DontAskAgain(items) == old(DontAskAgain(items))
    {
      RemoveItem(DismissCountKey);
    }

    /** `setLastReviewQuizCount` */
    method SetLastReviewQuizCount(count: nat)
      requires Valid()
      modifies this
      ensures Valid()
      ensures items == old(items)[LastReviewQuizCountKey := Decimal.Format(count)]
      ensures LastReviewQuizCount(items) == count
      ensures DismissCount(items) == old(DismissCount(items))
      ensures DontAskAgain(items) == old(DontAskAgain(items))
    {
      SetItem(LastReviewQuizCountKey, Decimal.Format(count));
      CountRoundTrip(old(items), LastReviewQuizCountKey, count);
    }

    /** `setDontAskAgain` */
    method SetDontAskAgain(value: bool)
      requires Valid()
      modifies this
      ensures Valid()
      ensures items == old(items)[DontAskAgainKey := BoolText(value)]
      ensures DontAskAgain(items) == value
      ensures DismissCount(items) == old(DismissCount(items))
      ensures LastReviewQuizCount(items) == old(LastReviewQuizCount(items))
    {
      SetItem(DontAskAgainKey, BoolText(value));
    }

    /** `markAsReviewed`: records the quiz count, then clears the dismissals. */
    method MarkAsReviewed(currentQuizCount: nat)
      requires Valid()
      modifies this
      ensures Valid()
      ensures items == MarkedAsReviewed(old(items), currentQuizCount)
      ensures LastReviewQuizCount(items) == currentQuizCount
      ensures DismissCount(items) == 0
      ensures DontAskAgain(items) == old(DontAskAgain(items))
      ensures !ShouldShowReview(items, currentQuizCount)
    {
      SetLastReviewQuizCount(currentQuizCount);
      ResetDismissCount();
      MarkedAsReviewedState(old(items), currentQuizCount);
    }
  }
}
