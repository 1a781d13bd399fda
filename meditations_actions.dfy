/** The meditation server actions (actions/db/meditations-actions.ts) over an in-memory table:
    insert, lookup by id, and one page of a user's history, newest first. */
module MeditationsActions {
  import opened Wrappers
  import opened Sorting
  import opened Schema

  const DefaultPage: int := 1
  const DefaultLimit: int := 10

  /** The first row with the given id, as `findFirst` returns it. */
  function Lookup(rows: seq<Meditation>, id: string): (r: Option<Meditation>)
    ensures r.None? <==> forall k :: 0 <= k < |rows| ==> rows[k].id != id
    ensures r.Some? ==> r.value.id == id && exists k :: (0 <= k < |rows| && rows[k] == r.value
      && forall j :: 0 <= j < k ==> rows[j].id != id)
  {
    if |rows| == 0 then None
    else if rows[0].id == id then Some(rows[0])
    else
      var rest := Lookup(rows[1..], id);
      if rest.Some? then
        ghost var k :| 0 <= k < |rows[1..]| && rows[1..][k] == rest.value && rest.value.id == id
          && forall j :: 0 <= j < k ==> rows[1..][j].id != id;
        assert rows[k + 1] == rest.value;
        rest
      else rest
  }

  /** The rows of one user, in table order. */
  function UserRows(rows: seq<Meditation>, userId: string): (r: seq<Meditation>)
    ensures forall m :: multiset(r)[m] == if m.userId == userId then multiset(rows)[m] else 0
    ensures forall k :: 0 <= k < |r| ==> r[k].userId == userId
    ensures |r| <= |rows|
  {
    if |rows| == 0 then []
    else
      var rest := UserRows(rows[1..], userId);
      assert rows == [rows[0]] + rows[1..];
      FilterCountStep(rows[0], rows[1..], rest, userId);
      if rows[0].userId == userId then [rows[0]] + rest else rest
  }

  /** Every listed row is a row of the table, and every row of the user is listed. */
  lemma UserRowsMembers(rows: seq<Meditation>, userId: string)
    ensures forall k :: 0 <= k < |UserRows(rows, userId)| ==> UserRows(rows, userId)[k] in rows
    ensures forall k :: 0 <= k < |rows| && rows[k].userId == userId ==> rows[k] in UserRows(rows, userId)
  {
    var r := UserRows(rows, userId);
    forall k | 0 <= k < |r| ensures r[k] in rows {
      assert multiset(r)[r[k]] > 0;
    }
    forall k | 0 <= k < |rows| && rows[k].userId == userId ensures rows[k] in r {
      assert multiset(rows)[rows[k]] > 0;
    }
  }

  /** Keeping or dropping one more row keeps the count of every row right. */
  lemma FilterCountStep(head: Meditation, tail: seq<Meditation>, rest: seq<Meditation>, userId: string)
    requires forall m :: multiset(rest)[m] == if m.userId == userId then multiset(tail)[m] else 0
    requires forall k :: 0 <= k < |rest| ==> rest[k].userId == userId
    ensures var r := if head.userId == userId then [head] + rest else rest;
      && (forall m :: multiset(r)[m] == if m.userId == userId then multiset([head] + tail)[m] else 0)
      && (forall k :: 0 <= k < |r| ==> r[k].userId == userId)
  {
    assert multiset([head] + tail) == multiset{head} + multiset(tail);
    assert multiset([head] + rest) == multiset{head} + multiset(rest);
  }

  function NewestKey(m: Meditation): int { -m.createdAt }

  /** `orderBy: desc(createdAt)`: the same rows, latest `createdAt` first. PostgreSQL leaves the
      order of rows with equal `createdAt` open; the stable sort here keeps their table order,
      which is one of the orders the query may return. */
  function NewestFirst(rows: seq<Meditation>): (r: seq<Meditation>)
    ensures multiset(r) == multiset(rows)
    ensures forall i, j :: 0 <= i < j < |r| ==> r[i].createdAt >= r[j].createdAt
  {
    var r := SortBy(rows, NewestKey);
    assert forall i, j :: 0 <= i < j < |r| ==> NewestKey(r[i]) <= NewestKey(r[j]);
    r
  }

  /** `offset` then `limit` on an ordered result. */
  function Window<T>(s: seq<T>, offset: nat, limit: nat): (r: seq<T>)
    ensures |r| <= limit
    ensures forall k :: 0 <= k < |r| ==> offset + k < |s| && r[k] == s[offset + k]
    ensures offset + limit <= |s| ==> |r| == limit
    ensures offset <= |s| < offset + limit ==> |r| == |s| - offset
  {
    if offset >= |s| then []
    else if offset + limit <= |s| then s[offset..offset + limit]
    else s[offset..]
  }

  /** Every row of the ordered history is on exactly the page its position selects. */
  lemma PageHolds<T>(s: seq<T>, k: nat, limit: nat)
    requires k < |s| && limit > 0
    ensures var page := k / limit + 1;
      var w := Window(s, (page - 1) * limit, limit);
      k % limit < |w| && w[k % limit] == s[k]
  {
    var page := k / limit + 1;
    assert (page - 1) * limit + k % limit == k;
  }

  datatype HistoryPage = HistoryPage(meditations: seq<Meditation>, total: nat)

  class MeditationStore {
    var rows: seq<Meditation>

    constructor ()
      ensures rows == []
    {
      rows := [];
    }

    /** `createMeditationAction`: the insert fails when the database is unreachable or the random
        key collides with an existing row. */
    method Create(values: NewMeditation, id: string, now: int, reachable: bool) returns (r: ActionState<Meditation>)
      modifies this
      ensures var inserted := reachable && Lookup(old(rows), id).None?;
        && (inserted ==> r == ActionOk("Meditation created successfully", InsertedRow(values, id, now))
                         && rows == old(rows) + [r.data])
        && (!inserted ==> r == ActionError("Failed to create meditation") && rows == old(rows))
    {
      if !reachable || Lookup(rows, id).Some? {
        r := ActionError("Failed to create meditation");
      } else {
        var row := InsertedRow(values, id, now);
        rows := rows + [row];
        r := ActionOk("Meditation created successfully", row);
      }
    }

    /** `getMeditationAction`. `reachable` is false when the query fails: the database cannot be
        reached, or PostgreSQL refuses `id` as a uuid. */
    method Get(id: string, reachable: bool) returns (r: ActionState<Meditation>)
      ensures !reachable ==> r == ActionError("Failed to get meditation")
      ensures reachable ==> (r.ActionError? <==> forall k :: 0 <= k < |rows| ==> rows[k].id != id)
      ensures reachable && r.ActionError? ==> r.message == "Meditation not found"
      ensures r.ActionOk? ==> r.data.id == id && r.data in rows && r.message == "Meditation retrieved successfully"
    {
      if !reachable {
        return ActionError("Failed to get meditation");
      }
      var found := Lookup(rows, id);
      if found.None? {
        r := ActionError("Meditation not found");
      } else {
        r := ActionOk("Meditation retrieved successfully", found.value);
      }
    }

    /** `getMeditationsByUserIdAction`: page `page` of `limit` rows of the user's history, newest
        first, with the user's total row count. PostgreSQL rejects a negative LIMIT or OFFSET, which
        the action reports as a failure, as it does when the database cannot be reached. */
    method ListByUser(userId: string, page: int, limit: int, reachable: bool) returns (r: ActionState<HistoryPage>)
      ensures var offset := (page - 1) * limit;
        && (!reachable || offset < 0 || limit < 0 <==> r.ActionError?)
        && (r.ActionError? ==> r.message == "Failed to get meditations")
        && (r.ActionOk? ==>
              && r.data.total == |UserRows(rows, userId)|
              && r.data.meditations == Window(NewestFirst(UserRows(rows, userId)), offset, limit))
      ensures r.ActionOk? ==>
        && |r.data.meditations| <= limit
        && (forall k :: 0 <= k < |r.data.meditations| ==> r.data.meditations[k].userId == userId && r.data.meditations[k] in rows)
        && (forall i, j :: 0 <= i < j < |r.data.meditations| ==>
              r.data.meditations[i].createdAt >= r.data.meditations[j].createdAt)
    {
      var offset := (page - 1) * limit;
      if !reachable || offset < 0 || limit < 0 {
        r := ActionError("Failed to get meditations");
      } else {
        var mine := UserRows(rows, userId);
        UserRowsMembers(rows, userId);
        var ordered := NewestFirst(mine);
        var shown := Window(ordered, offset, limit);
        forall k | 0 <= k < |shown| ensures shown[k].userId == userId && shown[k] in rows {
          assert shown[k] in multiset(ordered);
          assert shown[k] in multiset(mine);
        }
        r := ActionOk("Meditations retrieved successfully", HistoryPage(shown, |mine|));
      }
    }
  }
}
