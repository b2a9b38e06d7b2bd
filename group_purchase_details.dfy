/**
 * One group purchase: the detail fetch, the join button and its label, the
 * like and bookmark buttons, the comment submit and delete flows, each of
 * which refetches only on success, the participation figures and the choice
 * of view. `confirm` is the `confirmed` answer.
 */
module GroupPurchaseDetails {
  import opened Wrappers
  import opened Js
  import opened ApiTypes
  import opened Effects
  import opened DetailFlow
  import GroupPurchase

  /** The fields of an offer that the page's logic reads. */
  datatype OfferDetail = OfferDetail(
    id: int,
    title: string,
    status: GroupPurchaseStatus,
    isParticipating: bool,
    currentQuantity: int,
    targetQuantity: int)

  /** The group-purchase endpoints the page calls; ids are the route's `id`. */
  datatype Call =
    | GetDetail(id: string)
    | Join(id: string)
    | ToggleLike(id: string)
    | ToggleBookmark(id: string)
    | CreateComment(id: string, content: string)
    | DeleteComment(commentId: int)

  const NotFoundMessage := "공동구매를 찾을 수 없습니다."
  const JoinFailurePrefix := "참여 실패: "
  const JoinedMessage := "참여 완료!"

  const ParticipatingLabel := "참여 완료"

  /** The join button is disabled for a completed offer and for one the user already joined. */
  predicate JoinDisabled(o: OfferDetail) {
    o.status == Completed || o.isParticipating
  }

  /** The label: participation first, then completion, else the call to join. */
  function JoinButtonLabel(o: OfferDetail): string {
    if o.isParticipating then ParticipatingLabel
    else if o.status == Completed then GroupPurchase.ClosedLabel
    else GroupPurchase.JoinLabel
  }

  /**
   * The button is enabled exactly when it reads "참여하기"; a cancelled offer
   * does not disable it, and a joined offer reads "참여 완료" whatever its status.
   */
  lemma JoinButtonRule(o: OfferDetail)
    ensures !JoinDisabled(o) <==> JoinButtonLabel(o) == GroupPurchase.JoinLabel
    ensures o.status == Cancelled && !o.isParticipating ==> !JoinDisabled(o)
    ensures o.isParticipating ==> JoinDisabled(o) && JoinButtonLabel(o) == ParticipatingLabel
    ensures !o.isParticipating && o.status == Completed ==> JoinButtonLabel(o) == GroupPurchase.ClosedLabel
  {
  }

  /** "N명 더 필요해요!": the target minus the current count, negative once the target is passed. */
  function Needed(o: OfferDetail): int {
    o.targetQuantity - o.currentQuantity
  }

  /** The figures shown agree: "current/target명" and the number still needed add up to the target. */
  lemma NeededAddsUp(o: OfferDetail)
    ensures o.currentQuantity + Needed(o) == o.targetQuantity
    ensures Needed(o) <= 0 <==> o.currentQuantity >= o.targetQuantity
  {
  }

  class GroupPurchaseDetailsPage {
    const id: Option<string>
    var item: Option<OfferDetail>
    var loading: bool
    var error: Option<string>
    var comment: string
    var submitting: bool

    function View(): DetailView<OfferDetail>
      reads this
    {
      DetailView(item, loading, error, comment, submitting)
    }

    constructor (id: Option<string>)
      ensures this.id == id
      ensures item.None? && loading && error.None? && comment == "" && !submitting
    {
      this.id := id;
      item := None;
      loading := true;
      error := None;
      comment := "";
      submitting := false;
    }

    /** `fetchItemDetail` once `getGroupPurchase` resolved to `fetched`. */
    method FetchItemDetail(fetched: Fetched<OfferDetail>) returns (calls: seq<Call>)
      modifies this`item, this`loading, this`error
      ensures calls == if StrTruthy(id) then [GetDetail(id.value)] else []
      ensures View() == Refreshed(old(View()), StrTruthy(id), fetched)
    {
      calls := [];
      if id.None? || id.value == "" {
        return;
      }
      loading := true;
      calls := [GetDetail(id.value)];
      match fetched {
        case Failed(message) =>
          if message != "" {
            error := Some(message);
            loading := false;
            return;
          }
        case Received(data) =>
          if data.Some? {
            item := data;
          }
      }
      loading := false;
    }

    /** `handleJoin`: a failed join alerts and does not refetch; a successful one confirms and refetches. */
    method HandleJoin(outcome: Outcome, refetched: Fetched<OfferDetail>) returns (calls: seq<Call>, effects: seq<Effect>)
      modifies this`item, this`loading, this`error
      ensures !StrTruthy(id) ==> calls == [] && effects == [] && View() == old(View())
      ensures StrTruthy(id) && outcome.Fails() ==>
        calls == [Join(id.value)] && effects == [Alert(JoinFailurePrefix + outcome.message)] && View() == old(View())
      ensures StrTruthy(id) && !outcome.Fails() ==>
        calls == [Join(id.value), GetDetail(id.value)] && effects == [Alert(JoinedMessage)]
        && View() == Refreshed(old(View()), true, refetched)
    {
      calls, effects := [], [];
      if id.None? || id.value == "" {
        return;
      }
      calls := [Join(id.value)];
      if outcome.Fails() {
        effects := [Alert(JoinFailurePrefix + outcome.message)];
        return;
      }
      effects := [Alert(JoinedMessage)];
      var more := FetchItemDetail(refetched);
      calls := calls + more;
    }

    /** `handleToggleLike`: a failed toggle alerts and keeps the page; a successful one refetches. */
    method HandleToggleLike(outcome: Outcome, refetched: Fetched<OfferDetail>) returns (calls: seq<Call>, effects: seq<Effect>)
      modifies this`item, this`loading, this`error
      ensures !StrTruthy(id) ==> calls == [] && effects == [] && View() == old(View())
      ensures StrTruthy(id) && outcome.Fails() ==>
        calls == [ToggleLike(id.value)] && effects == [Alert(LikeFailurePrefix + outcome.message)] && View() == old(View())
      ensures StrTruthy(id) && !outcome.Fails() ==>
        calls == [ToggleLike(id.value), GetDetail(id.value)] && effects == [] && View() == Refreshed(old(View()), true, refetched)
    {
      calls, effects := [], [];
      if id.None? || id.value == "" {
        return;
      }
      calls := [ToggleLike(id.value)];
      if outcome.Fails() {
        effects := [Alert(LikeFailurePrefix + outcome.message)];
        return;
      }
      var more := FetchItemDetail(refetched);
      calls := calls + more;
    }

    /** `handleToggleBookmark`, on the same rule. */
    method HandleToggleBookmark(outcome: Outcome, refetched: Fetched<OfferDetail>) returns (calls: seq<Call>, effects: seq<Effect>)
      modifies this`item, this`loading, this`error
      ensures !StrTruthy(id) ==> calls == [] && effects == [] && View() == old(View())
      ensures StrTruthy(id) && outcome.Fails() ==>
        calls == [ToggleBookmark(id.value)] && effects == [Alert(BookmarkFailurePrefix + outcome.message)] && View() == old(View())
      ensures StrTruthy(id) && !outcome.Fails() ==>
        calls == [ToggleBookmark(id.value), GetDetail(id.value)] && effects == [] && View() == Refreshed(old(View()), true, refetched)
    {
      calls, effects := [], [];
      if id.None? || id.value == "" {
        return;
      }
      calls := [ToggleBookmark(id.value)];
      if outcome.Fails() {
        effects := [Alert(BookmarkFailurePrefix + outcome.message)];
        return;
      }
      var more := FetchItemDetail(refetched);
      calls := calls + more;
    }

    /**
     * `handleSubmitComment`: nothing without an id or with a blank comment;
     * an error alerts and keeps the comment; a success clears it and
     * refetches. `submitting` is false again on both paths.
     */
    method HandleSubmitComment(outcome: Outcome, refetched: Fetched<OfferDetail>) returns (calls: seq<Call>, effects: seq<Effect>)
      modifies this`item, this`loading, this`error, this`comment, this`submitting
      ensures !CanSubmit(id, old(comment)) ==> calls == [] && effects == [] && View() == old(View())
      ensures CanSubmit(id, old(comment)) && outcome.Fails() ==>
        calls == [CreateComment(id.value, old(comment))] && effects == [Alert(CommentFailurePrefix + outcome.message)]
        && View() == old(View()).(submitting := false)
      ensures CanSubmit(id, old(comment)) && !outcome.Fails() ==>
        calls == [CreateComment(id.value, old(comment)), GetDetail(id.value)] && effects == []
        && View() == Refreshed(old(View()).(comment := "", submitting := false), true, refetched)
    {
      calls, effects := [], [];
      if id.None? || id.value == "" || Trim(comment) == "" {
        return;
      }
      submitting := true;
      calls := [CreateComment(id.value, comment)];
      if outcome.Fails() {
        effects := [Alert(CommentFailurePrefix + outcome.message)];
        submitting := false;
        return;
      }
      comment := "";
      submitting := false;
      var more := FetchItemDetail(refetched);
      calls := calls + more;
    }

    /** `handleDeleteComment(commentId)`: only after confirmation, and a refetch only on success. */
    method HandleDeleteComment(commentId: int, confirmed: bool, outcome: Outcome, refetched: Fetched<OfferDetail>)
      returns (calls: seq<Call>, effects: seq<Effect>)
      modifies this`item, this`loading, this`error
      ensures !confirmed ==> calls == [] && effects == [] && View() == old(View())
      ensures confirmed && outcome.Fails() ==>
        calls == [DeleteComment(commentId)] && effects == [Alert(DeleteFailurePrefix + outcome.message)] && View() == old(View())
      ensures confirmed && !outcome.Fails() ==>
        calls == [DeleteComment(commentId)] + (if StrTruthy(id) then [GetDetail(id.value)] else []) && effects == []
        && View() == Refreshed(old(View()), StrTruthy(id), refetched)
    {
      calls, effects := [], [];
      if !confirmed {
        return;
      }
      calls := [DeleteComment(commentId)];
      if outcome.Fails() {
        effects := [Alert(DeleteFailurePrefix + outcome.message)];
        return;
      }
      var more := FetchItemDetail(refetched);
      calls := calls + more;
    }

    /**
     * The view rendered: the loading view first, then the error view, whose
     * text is the stored error or else the not-found text, then the offer.
     */
    function Screen(): (s: Screen<OfferDetail>)
      reads this
      ensures s.LoadingScreen? <==> loading
      ensures s.ContentScreen? <==> !loading && !StrTruthy(error) && item.Some?
      ensures s.ContentScreen? ==> s.item == item.value
      ensures !loading && StrTruthy(error) ==> s == ErrorScreen(error.value)
      ensures !loading && !StrTruthy(error) && item.None? ==> s == ErrorScreen(NotFoundMessage)
    {
      ScreenOf(View(), NotFoundMessage)
    }

    /** The comment button. */
    predicate SubmitButtonDisabled()
      reads this
    {
      SubmitDisabled(submitting, comment)
    }
  }
}
