/**
 * The policy details page: the document checklist, the compare list, the
 * bookmark icon and the AI explanation switch. The policy shown is the
 * page's fixed demo record; only its document list matters here.
 */
module PolicyDetails {
  import opened Wrappers
  import opened Selection

  /** The submission documents of the demo policy. */
  const Documents: seq<string> := [
    "청년내일채움공제 가입신청서",
    "재직증명서",
    "주민등록등본",
    "통장 사본",
    "최종학력 증명서",
    "고용보험 가입내역 확인서"
  ]

  const AllReadyMessage := "✓ 모든 서류 준비 완료!"

  /** A checklist holds distinct indices of rows of the document list. */
  predicate ChecklistValid(checked: seq<int>) {
    NoDup(checked) && forall k :: 0 <= k < |checked| ==> 0 <= checked[k] < |Documents|
  }

  /** The badge next to "제출 서류": checked count over total. */
  function ChecklistBadge(checked: seq<int>): (int, int) {
    (|checked|, |Documents|)
  }

  /** `checkedDocuments.length === policyData.documents.length` */
  predicate AllReady(checked: seq<int>) {
    |checked| == |Documents|
  }

  /** The checked count never exceeds the number of documents, and reaches it exactly when every row is ticked. */
  lemma AllReadyIff(checked: seq<int>)
    requires ChecklistValid(checked)
    ensures ChecklistBadge(checked).0 <= ChecklistBadge(checked).1
    ensures AllReady(checked) <==> forall i :: 0 <= i < |Documents| ==> i in checked
  {
    IndexListBound(checked, |Documents|);
  }

  /** Ticking a row keeps the checklist valid. */
  lemma CheckKeepsValid(checked: seq<int>, index: int)
    requires ChecklistValid(checked) && 0 <= index < |Documents|
    ensures ChecklistValid(Toggle(checked, index))
  {
    var r := Toggle(checked, index);
    forall k | 0 <= k < |r| ensures 0 <= r[k] < |Documents| {
      assert r[k] in r;
    }
  }

  /** The compare button's label for policy `id`. */
  function CompareLabel(compareList: seq<int>, id: int): string {
    if id in compareList then "비교함" else "비교하기"
  }

  /** The compare alert: shown with the list's length exactly when the list is not empty. */
  function CompareAlert(compareList: seq<int>): (shown: Option<nat>)
    ensures shown.None? <==> compareList == []
    ensures shown.Some? ==> shown.value == |compareList| > 0
  {
    if |compareList| > 0 then Some(|compareList|) else None
  }

  /** A compare click flips the clicked policy's label and leaves every other policy's label as it was. */
  lemma CompareToggleLabel(compareList: seq<int>, id: int, other: int)
    ensures CompareLabel(Toggle(compareList, id), id) == (if CompareLabel(compareList, id) == "비교함" then "비교하기" else "비교함")
    ensures other != id ==> CompareLabel(Toggle(compareList, id), other) == CompareLabel(compareList, other)
  {
  }

  class PolicyDetailsPage {
    var aiEnabled: bool
    var checkedDocuments: seq<int>
    var bookmarked: bool
    var compareList: seq<int>

    predicate Valid()
      reads this
    {
      ChecklistValid(checkedDocuments) && NoDup(compareList)
    }

    constructor ()
      ensures !aiEnabled && checkedDocuments == [] && !bookmarked && compareList == []
      ensures Valid()
    {
      aiEnabled := false;
      checkedDocuments := [];
      bookmarked := false;
      compareList := [];
    }

    /** `handleCheckDocument(index)`, called with the index of a rendered document row. */
    method HandleCheckDocument(index: int)
      requires 0 <= index < |Documents|
      modifies this`checkedDocuments
      ensures checkedDocuments == Toggle(old(checkedDocuments), index)
      ensures old(Valid()) ==> Valid()
    {
      if index in checkedDocuments {
        checkedDocuments := Without(checkedDocuments, index);
      } else {
        checkedDocuments := checkedDocuments + [index];
      }
      if old(Valid()) {
        CheckKeepsValid(old(checkedDocuments), index);
      }
    }

    /** `handleCompareToggle(policyId)` */
    method HandleCompareToggle(policyId: int)
      modifies this`compareList
      ensures compareList == Toggle(old(compareList), policyId)
      ensures old(Valid()) ==> Valid()
    {
      if policyId in compareList {
        compareList := Without(compareList, policyId);
      } else {
        compareList := compareList + [policyId];
      }
    }

    /** The bookmark icon's click. */
    method ToggleBookmark()
      modifies this`bookmarked
      ensures bookmarked == !old(bookmarked)
    {
      bookmarked := !bookmarked;
    }

    /** The AI switch's `onCheckedChange`. */
    method SetAiEnabled(value: bool)
      modifies this`aiEnabled
      ensures aiEnabled == value
    {
      aiEnabled := value;
    }

    /** The AI explanation is rendered exactly while the switch is on. */
    predicate AiExplanationShown()
      reads this
    {
      aiEnabled
    }
  }
}
