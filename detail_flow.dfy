/**
 * What the community post page and the group-purchase details page share:
 * the effect of the detail fetch on the page's state, the choice between the
 * loading, error and content views, and the comment box's guard.
 */
module DetailFlow {
  import opened Wrappers
  import opened Js
  import opened ApiTypes

  /** A details page's state: the record shown, the fetch flags, and the comment box. */
  datatype DetailView<T> = DetailView(item: Option<T>, loading: bool, error: Option<string>, comment: string, submitting: bool)

  /**
   * The detail fetch: nothing at all without a route id; otherwise a
   * non-empty error is stored, a returned record replaces the shown one, and
   * loading ends. A success does not clear an earlier error.
   */
  function Refreshed<T>(v: DetailView<T>, hasId: bool, fetched: Fetched<T>): DetailView<T> {
    if !hasId then v
    else match fetched
      case Failed(m) => if m != "" then v.(error := Some(m), loading := false) else v.(loading := false)
      case Received(d) => if d.Some? then v.(item := d, loading := false) else v.(loading := false)
  }

  /**
   * A fetch never touches the comment box; with an id it ends loading, a
   * failure keeps the record shown, and only a returned record changes it.
   */
  lemma RefreshedOutcome<T>(v: DetailView<T>, hasId: bool, fetched: Fetched<T>)
    ensures var r := Refreshed(v, hasId, fetched);
      && r.comment == v.comment && r.submitting == v.submitting
      && (hasId ==> !r.loading)
      && (r.item != v.item ==> hasId && fetched.Received? && fetched.data.Some? && r.item == fetched.data)
      && (hasId && fetched.Failed? && fetched.message != "" ==> r.error == Some(fetched.message) && r.item == v.item)
      && (r.error != v.error ==> hasId && fetched.Failed? && r.error == Some(fetched.message))
  {
  }

  datatype Screen<T> = LoadingScreen | ErrorScreen(message: string) | ContentScreen(item: T)

  /** `if (loading) … if (error || !item) … else …`, with the page's own not-found text. */
  function ScreenOf<T>(v: DetailView<T>, notFound: string): (s: Screen<T>)
    ensures s.LoadingScreen? <==> v.loading
    ensures s.ContentScreen? <==> !v.loading && !StrTruthy(v.error) && v.item.Some?
    ensures s.ContentScreen? ==> s.item == v.item.value
    ensures s.ErrorScreen? && notFound != "" ==> s.message != ""
  {
    if v.loading then LoadingScreen
    else if StrTruthy(v.error) || v.item.None? then ErrorScreen(if StrTruthy(v.error) then v.error.value else notFound)
    else ContentScreen(v.item.value)
  }

  /** `if (!id || !comment.trim()) return` */
  predicate CanSubmit(id: Option<string>, comment: string) {
    StrTruthy(id) && Trim(comment) != ""
  }

  /** `disabled={submitting || !comment.trim()}` */
  predicate SubmitDisabled(submitting: bool, comment: string) {
    submitting || Trim(comment) == ""
  }

  /**
   * The button is disabled exactly while submitting or while the box holds
   * only white space, and on a page with an id an enabled button always gets
   * past the handler's guard.
   */
  lemma SubmitButtonGuard(id: Option<string>, submitting: bool, comment: string)
    ensures SubmitDisabled(submitting, comment) <==> submitting || IsBlank(comment)
    ensures StrTruthy(id) && !SubmitDisabled(submitting, comment) ==> CanSubmit(id, comment)
    ensures CanSubmit(id, comment) <==> StrTruthy(id) && !IsBlank(comment)
  {
    TrimEmptyIffBlank(comment);
  }
}
