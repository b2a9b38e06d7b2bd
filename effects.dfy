/** The user-visible side effects a handler performs, recorded in order instead of performed. */
module Effects {
  datatype Effect =
    | Alert(message: string)   // `alert(message)`
    | Navigate(path: string)   // `navigate(path)`

  // The alert prefixes the community and group-purchase pages share; the API's error message follows.
  const LikeFailurePrefix := "좋아요 처리 실패: "
  const BookmarkFailurePrefix := "북마크 처리 실패: "
  const CommentFailurePrefix := "댓글 작성 실패: "
  const DeleteFailurePrefix := "댓글 삭제 실패: "
}
