/** The dashboard history of app/dashboard/_components/meditation-history.tsx: one page of ten
    meditation cards, newest first, with page controls when there is more than one page. */
module MeditationHistory {
  import opened Wrappers
  import opened Schema
  import opened MeditationsActions
  import Pagination

  const Limit: nat := 10
  const DashboardUrl: string := "/dashboard"

  /** `Math.ceil(n / d)` for a count. */
  function CeilDiv(n: nat, d: nat): (q: nat)
    requires d > 0
    ensures q * d >= n
    ensures q > 0 ==> (q - 1) * d < n
  {
    (n + d - 1) / d
  }

  /** The number of pages of `total` rows, `limit` to a page. */
  function TotalPages(total: nat): (pages: nat)
    ensures pages == 0 <==> total == 0
    ensures pages > 1 <==> total > Limit
  {
    CeilDiv(total, Limit)
  }

  /** Every row of the history is on a page that exists, and no page past the last is needed. */
  lemma EveryRowHasAPage(total: nat, k: nat)
    requires k < total
    ensures 1 <= k / Limit + 1 <= TotalPages(total)
  {
    var pages := TotalPages(total);
    assert pages * Limit > k;
  }

  /** What the component renders. */
  datatype View =
    | NoMeditations
    | Listing(cards: seq<Meditation>, controls: Option<Pagination.Controls>)

  /** The branch chosen from the action's answer: the empty state only when the action failed;
      otherwise the returned rows in order, with page controls when there is more than one page. */
  function Render(result: ActionState<HistoryPage>, page: int): (v: View)
    ensures result.ActionError? <==> v.NoMeditations?
    ensures result.ActionOk? ==> v.cards == result.data.meditations
    ensures result.ActionOk? ==> (v.controls.Some? <==> result.data.total > Limit)
    ensures v.Listing? && v.controls.Some? ==>
      v.controls.value == Pagination.Render(page, TotalPages(result.data.total), DashboardUrl)
  {
    match result
    case ActionError(_) => NoMeditations
    case ActionOk(_, data) =>
      var totalPages := TotalPages(data.total);
      Listing(data.meditations, if totalPages > 1 then Some(Pagination.Render(page, totalPages, DashboardUrl)) else None)
  }

  /** `MeditationHistory` for `page`, reading from the store; `reachable` says whether the
      action's queries succeed. */
  method Show(store: MeditationStore, userId: string, page: int, reachable: bool) returns (v: View)
    ensures page < 1 || !reachable <==> v.NoMeditations?
    ensures v.Listing? ==>
      && v.cards == Window(NewestFirst(UserRows(store.rows, userId)), (page - 1) * Limit, Limit)
      && (v.controls.Some? <==> |UserRows(store.rows, userId)| > Limit)
  {
    var result := store.ListByUser(userId, page, Limit, reachable);
    v := Render(result, page);
  }

  /** With a page in range, the listing is full unless it is the last page, and the controls on
      the first and last pages disable the links that would leave the history. */
  lemma PagesInRange(rows: seq<Meditation>, page: int)
    requires 1 <= page <= TotalPages(|rows|)
    ensures var w := Window(rows, (page - 1) * Limit, Limit);
      && |w| > 0
      && (page < TotalPages(|rows|) ==> |w| == Limit)
  {
    var pages := TotalPages(|rows|);
    assert (pages - 1) * Limit < |rows|;
    assert (page - 1) * Limit <= (pages - 1) * Limit;
    if page < pages {
      assert page * Limit <= (pages - 1) * Limit;
    }
  }
}
