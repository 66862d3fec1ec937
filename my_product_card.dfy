/**
 * src/components/MyProductCard.js: the seller's card for one of their products. The
 * status label and style, the rule that disables the edit/delete buttons, and the
 * control flow of `handleDelete` around the delete request; `confirm`, the request's
 * outcome and what `onUpdate` throws are inputs.
 */
module MyProductCard {
  import opened Wrappers

  /** `getStatusText(status)`: the Korean label of a known status, any other status as it is. */
  function GetStatusText(status: string): string {
    if status == "AVAILABLE" then "판매중"
    else if status == "SOLD" then "판매완료"
    else if status == "HIDDEN" then "숨김"
    else status
  }

  /** The three class names of the CSS module the card uses for a status badge. */
  datatype Styles = Styles(available: string, sold: string, hidden: string)

  /** `getStatusClass(status)`: the module class of a known status, "" otherwise. */
  function GetStatusClass(styles: Styles, status: string): string {
    if status == "AVAILABLE" then styles.available
    else if status == "SOLD" then styles.sold
    else if status == "HIDDEN" then styles.hidden
    else ""
  }

  const KnownStatuses: set<string> := {"AVAILABLE", "SOLD", "HIDDEN"}

  /**
   * The label is translated exactly for the three known statuses, and only they get a
   * style class (when the module defines one).
   */
  lemma StatusMappings(styles: Styles, status: string)
    requires styles.available != "" && styles.sold != "" && styles.hidden != ""
    ensures GetStatusText(status) != status <==> status in KnownStatuses
    ensures GetStatusClass(styles, status) != "" <==> status in KnownStatuses
    ensures GetStatusText("AVAILABLE") == "판매중" && GetStatusText("SOLD") == "판매완료" && GetStatusText("HIDDEN") == "숨김"
  {
  }

  /** `disabled={loading || product.status === 'SOLD'}` on both the edit and the delete button. */
  function ButtonsDisabled(loading: bool, status: string): bool {
    loading || status == "SOLD"
  }

  /** `loading ? '삭제 중...' : '삭제'`. */
  function DeleteLabel(loading: bool): string {
    if loading then "삭제 중..." else "삭제"
  }


  /** What `productService.deleteProduct` settles to. */
  datatype DeleteOutcome = Deleted | NotDeleted | DeleteThrew(message: string)

  const DeletedAlert := "상품이 삭제되었습니다."
  const NotDeletedAlert := "상품 삭제에 실패했습니다."
  const FailurePrefix := "상품 삭제 실패: "

  /** The card's state: `loading`, the alerts shown, the products it asked to delete, and the `onUpdate` calls. */
  datatype Card = Card(loading: bool, alerts: seq<string>, deleteRequests: seq<string>, updates: nat)

  /**
   * `handleDelete()`: nothing unless confirmed; otherwise one delete request, an alert
   * for the outcome, `onUpdate` on success (a synchronous throw from it lands in the
   * same `catch`), and `loading` cleared in `finally`.
   */
  function AfterDelete(c: Card, productId: string, confirmed: bool, outcome: DeleteOutcome, onUpdateThrows: Option<string>): Card {
    if !confirmed then c
    else
      var c1 := c.(deleteRequests := c.deleteRequests + [productId]);
      var c2 := match outcome
        case Deleted =>
          var c3 := c1.(alerts := c1.alerts + [DeletedAlert], updates := c1.updates + 1);
          if onUpdateThrows.Some? then c3.(alerts := c3.alerts + [FailurePrefix + onUpdateThrows.value]) else c3
        case NotDeleted => c1.(alerts := c1.alerts + [NotDeletedAlert])
        case DeleteThrew(m) => c1.(alerts := c1.alerts + [FailurePrefix + m]);
      c2.(loading := false)
  }

  /**
   * Declining the confirm changes nothing. A confirmed delete sends one request,
   * alerts its outcome (a throw from `onUpdate` after the success alert adds the failure
   * alert), calls `onUpdate` exactly when the product was deleted, and always ends with
   * `loading` cleared.
   */
  lemma DeleteFlow(c: Card, productId: string, confirmed: bool, outcome: DeleteOutcome, onUpdateThrows: Option<string>)
    ensures var c' := AfterDelete(c, productId, confirmed, outcome, onUpdateThrows);
      && (!confirmed ==> c' == c)
      && (confirmed ==> !c'.loading && c'.deleteRequests == c.deleteRequests + [productId])
      && (confirmed ==> (c'.updates == c.updates + 1 <==> outcome == Deleted))
      && (confirmed ==> c'.updates <= c.updates + 1 && c'.updates >= c.updates)
      && (confirmed && outcome == NotDeleted ==> c'.alerts == c.alerts + [NotDeletedAlert])
      && (confirmed && outcome.DeleteThrew? ==> c'.alerts == c.alerts + [FailurePrefix + outcome.message])
      && (confirmed && outcome == Deleted && onUpdateThrows.None? ==> c'.alerts == c.alerts + [DeletedAlert])
      && (confirmed && outcome == Deleted && onUpdateThrows.Some? ==>
            c'.alerts == c.alerts + [DeletedAlert, FailurePrefix + onUpdateThrows.value])
  {
  }

  /**
   * A sold product's buttons stay disabled before, during and after any delete, so it
   * can never be deleted from the card; for any other product a finished delete (or a
   * card that was idle) leaves the buttons enabled again with the plain label.
   */
  lemma ButtonRule(c: Card, status: string, productId: string, confirmed: bool, outcome: DeleteOutcome, onUpdateThrows: Option<string>)
    ensures var c' := AfterDelete(c, productId, confirmed, outcome, onUpdateThrows);
      && (status == "SOLD" ==> ButtonsDisabled(c.loading, status) && ButtonsDisabled(true, status) && ButtonsDisabled(c'.loading, status))
      && (confirmed || !c.loading ==> (ButtonsDisabled(c'.loading, status) <==> status == "SOLD"))
      && (confirmed || !c.loading ==> DeleteLabel(c'.loading) == "삭제")
      && DeleteLabel(true) == "삭제 중..."
  {
  }

  class MyProductCardState {
    var loading: bool
    var alerts: seq<string>
    var deleteRequests: seq<string>
    var updates: nat

    function Model(): Card
      reads this
    {
      Card(loading, alerts, deleteRequests, updates)
    }

    constructor ()
      ensures Model() == Card(false, [], [], 0)
    {
      loading, alerts, deleteRequests, updates := false, [], [], 0;
    }

    method HandleDelete(productId: string, confirmed: bool, outcome: DeleteOutcome, onUpdateThrows: Option<string>)
      modifies this
      ensures Model() == AfterDelete(old(Model()), productId, confirmed, outcome, onUpdateThrows)
    {
      if !confirmed {
        return;
      }
      loading := true;
      deleteRequests := deleteRequests + [productId];
      match outcome {
        case Deleted =>
          alerts := alerts + [DeletedAlert];
          updates := updates + 1;
          if onUpdateThrows.Some? {
            alerts := alerts + [FailurePrefix + onUpdateThrows.value];
          }
        case NotDeleted =>
          alerts := alerts + [NotDeletedAlert];
        case DeleteThrew(m) =>
          alerts := alerts + [FailurePrefix + m];
      }
      loading := false;
    }
  }
}
