/**
 * A community post: the detail fetch, the like and bookmark buttons, the
 * comment submit and delete flows, each of which refetches only on success,
 * and the choice of view. `confirm` is the `confirmed` answer.
 */
module CommunityDetails {
  import opened Wrappers
  import opened Js
  import opened ApiTypes
  import opened Effects
  import opened DetailFlow
  import Community

  /** The fields of a post that the page's logic reads. */
  datatype PostDetail = PostDetail(communityId: int, title: string, category: CommunityCategory, isLiked: bool, isBookmarked: bool)

  /** The community endpoints the post page calls; ids are the route's `id`. */
  datatype Call =
    | GetDetail(id: string)
    | ToggleLike(id: string)
    | ToggleBookmark(id: string)
    | CreateComment(id: string, content: string)
    | DeleteComment(commentId: int)

  const NotFoundMessage := "게시글을 찾을 수 없습니다."

  /** The badge of a loaded post: its category's label, which names no other category. */
  function CategoryBadge(p: PostDetail): (r: string)
    ensures r != ""
    ensures forall c :: Community.CategoryLabel(c) == r <==> c == p.category
  {
    Community.CategoryLabel(p.category)
  }

  class CommunityDetailsPage {
    const id: Option<string>
    var post: Option<PostDetail>
    var loading: bool
    var error: Option<string>
    var comment: string
    var submitting: bool

    function View(): DetailView<PostDetail>
      reads this
    {
      DetailView(post, loading, error, comment, submitting)
    }

    constructor (id: Option<string>)
      ensures this.id == id
      ensures post.None? && loading && error.None? && comment == "" && !submitting
    {
      this.id := id;
      post := None;
      loading := true;
      error := None;
      comment := "";
      submitting := false;
    }

    /** `fetchPostDetail` once `getCommunityDetail` resolved to `fetched`. */
    method FetchPostDetail(fetched: Fetched<PostDetail>) returns (calls: seq<Call>)
      modifies this`post, this`loading, this`error
      ensures calls == if StrTruthy(id) then [GetDetail(id.value)] else []
      ensures View() == Refreshed(old(View()), StrTruthy(id), fetched)
    {
      calls := [];
      if id.None? || id.value == "" {
        return;
      }
      loading := true;
      calls := [GetDetail(id.value)];
      match fetched {
        case Failed(message) =>
          if message != "" {
            error := Some(message);
            loading := false;
            return;
          }
        case Received(data) =>
          if data.Some? {
            post := data;
          }
      }
      loading := false;
    }

    /** `handleToggleLike`: a failed toggle alerts and keeps the page; a successful one refetches. */
    method HandleToggleLike(outcome: Outcome, refetched: Fetched<PostDetail>) returns (calls: seq<Call>, effects: seq<Effect>)
      modifies this`post, this`loading, this`error
      ensures !StrTruthy(id) ==> calls == [] && effects == [] && View() == old(View())
      ensures StrTruthy(id) && outcome.Fails() ==>
        calls == [ToggleLike(id.value)] && effects == [Alert(LikeFailurePrefix + outcome.message)] && View() == old(View())
      ensures StrTruthy(id) && !outcome.Fails() ==>
        calls == [ToggleLike(id.value), GetDetail(id.value)] && effects == [] && View() == Refreshed(old(View()), true, refetched)
    {
      calls, effects := [], [];
      if id.None? || id.value == "" {
        return;
      }
      calls := [ToggleLike(id.value)];
      if outcome.Fails() {
        effects := [Alert(LikeFailurePrefix + outcome.message)];
        return;
      }
      var more := FetchPostDetail(refetched);
      calls := calls + more;
    }

    /** `handleToggleBookmark`, on the same rule. */
    method HandleToggleBookmark(outcome: Outcome, refetched: Fetched<PostDetail>) returns (calls: seq<Call>, effects: seq<Effect>)
      modifies this`post, this`loading, this`error
      ensures !StrTruthy(id) ==> calls == [] && effects == [] && View() == old(View())
      ensures StrTruthy(id) && outcome.Fails() ==>
        calls == [ToggleBookmark(id.value)] && effects == [Alert(BookmarkFailurePrefix + outcome.message)] && View() == old(View())
      ensures StrTruthy(id) && !outcome.Fails() ==>
        calls == [ToggleBookmark(id.value), GetDetail(id.value)] && effects == [] && View() == Refreshed(old(View()), true, refetched)
    {
      calls, effects := [], [];
      if id.None? || id.value == "" {
        return;
      }
      calls := [ToggleBookmark(id.value)];
      if outcome.Fails() {
        effects := [Alert(BookmarkFailurePrefix + outcome.message)];
        return;
      }
      var more := FetchPostDetail(refetched);
      calls := calls + more;
    }

    /**
     * `handleSubmitComment`: nothing without an id or with a blank comment;
     * an error alerts and keeps the comment; a success clears it and
     * refetches. `submitting` is false again on both paths.
     */
    method HandleSubmitComment(outcome: Outcome, refetched: Fetched<PostDetail>) returns (calls: seq<Call>, effects: seq<Effect>)
      modifies this`post, this`loading, this`error, this`comment, this`submitting
      ensures !CanSubmit(id, old(comment)) ==> calls == [] && effects == [] && View() == old(View())
      ensures CanSubmit(id, old(comment)) && outcome.Fails() ==>
        calls == [CreateComment(id.value, old(comment))] && effects == [Alert(CommentFailurePrefix + outcome.message)]
        && View() == old(View()).(submitting := false)
      ensures CanSubmit(id, old(comment)) && !outcome.Fails() ==>
        calls == [CreateComment(id.value, old(comment)), GetDetail(id.value)] && effects == []
        && View() == Refreshed(old(View()).(comment := "", submitting := false), true, refetched)
    {
      calls, effects := [], [];
      if id.None? || id.value == "" || Trim(comment) == "" {
        return;
      }
      submitting := true;
      calls := [CreateComment(id.value, comment)];
      if outcome.Fails() {
        effects := [Alert(CommentFailurePrefix + outcome.message)];
        submitting := false;
        return;
      }
      comment := "";
      submitting := false;
      var more := FetchPostDetail(refetched);
      calls := calls + more;
    }

    /** `handleDeleteComment(commentId)`: only after confirmation, and a refetch only on success. */
    method HandleDeleteComment(commentId: int, confirmed: bool, outcome: Outcome, refetched: Fetched<PostDetail>)
      returns (calls: seq<Call>, effects: seq<Effect>)
      modifies this`post, this`loading, this`error
      ensures !confirmed ==> calls == [] && effects == [] && View() == old(View())
      ensures confirmed && outcome.Fails() ==>
        calls == [DeleteComment(commentId)] && effects == [Alert(DeleteFailurePrefix + outcome.message)] && View() == old(View())
      ensures confirmed && !outcome.Fails() ==>
        calls == [DeleteComment(commentId)] + (if StrTruthy(id) then [GetDetail(id.value)] else []) && effects == []
        && View() == Refreshed(old(View()), StrTruthy(id), refetched)
    {
      calls, effects := [], [];
      if !confirmed {
        return;
      }
      calls := [DeleteComment(commentId)];
      if outcome.Fails() {
        effects := [Alert(DeleteFailurePrefix + outcome.message)];
        return;
      }
      var more := FetchPostDetail(refetched);
      calls := calls + more;
    }

    /**
     * The view rendered: the loading view first, then the error view, whose
     * text is the stored error or else the not-found text, then the post.
     */
    function Screen(): (s: Screen<PostDetail>)
      reads this
      ensures s.LoadingScreen? <==> loading
      ensures s.ContentScreen? <==> !loading && !StrTruthy(error) && post.Some?
      ensures s.ContentScreen? ==> s.item == post.value
      ensures !loading && StrTruthy(error) ==> s == ErrorScreen(error.value)
      ensures !loading && !StrTruthy(error) && post.None? ==> s == ErrorScreen(NotFoundMessage)
    {
      ScreenOf(View(), NotFoundMessage)
    }

    /** The comment button. */
    predicate SubmitButtonDisabled()
      reads this
    {
      SubmitDisabled(submitting, comment)
    }
  }
}
