/** The list cache of the dashboard: merging cursor pages, and patching one row wherever the cache holds it. */
module CursorPages {
  import opened Prelude

  datatype Row<T> = Row(id: string, value: T)

  datatype Page<T> = Page(data: seq<Row<T>>, hasMore: bool, nextCursor: Option<string>)

  datatype ListCache<T> = Single(page: Page<T>) | Infinite(pages: seq<Page<T>>, pageParams: seq<string>)

  /** An empty cursor is no cursor. */
  function NextCursorOf<T>(page: Page<T>): Option<string> {
    if page.hasMore && page.nextCursor.Some? && page.nextCursor.value != "" then page.nextCursor else None
  }

  ghost function Ids<T>(rows: seq<Row<T>>): set<string> {
    set row | row in rows :: row.id
  }

  function AllRows<T>(pages: seq<Page<T>>): seq<Row<T>> {
    if pages == [] then [] else AllRows(pages[..|pages| - 1]) + pages[|pages| - 1].data
  }

  /** Each id once, where and as it first appears. */
  ghost function FirstSeen<T>(rows: seq<Row<T>>): seq<Row<T>> {
    if rows == [] then []
    else
      FirstSeen(rows[..|rows| - 1]) +
      (if rows[|rows| - 1].id in Ids(rows[..|rows| - 1]) then [] else [rows[|rows| - 1]])
  }

  ghost predicate UniqueIds<T>(rows: seq<Row<T>>) {
    forall i, j :: 0 <= i < j < |rows| ==> rows[i].id != rows[j].id
  }

  // ----- What merging gives -----

  lemma IdsOneMore<T>(rows: seq<Row<T>>, row: Row<T>)
    ensures Ids(rows + [row]) == Ids(rows) + {row.id}
  {
    assert forall r :: r in rows + [row] <==> r in rows || r == row;
  }

  lemma SeenOneMore<T>(rows: seq<Row<T>>, row: Row<T>)
    ensures FirstSeen(rows + [row]) == FirstSeen(rows) + (if row.id in Ids(rows) then [] else [row])
    ensures Ids(rows + [row]) == Ids(rows) + {row.id}
  {
    assert (rows + [row])[..|rows|] == rows;
    IdsOneMore(rows, row);
  }

  lemma LastRow<T>(rows: seq<Row<T>>)
    requires rows != []
    ensures rows == rows[..|rows| - 1] + [rows[|rows| - 1]]
  {
  }

  /** The merged ids are unique and exactly the ids present. */
  lemma {:induction false} MergedIds<T>(rows: seq<Row<T>>)
    ensures UniqueIds(FirstSeen(rows)) && Ids(FirstSeen(rows)) == Ids(rows)
  {
    if rows != [] {
      var front, last := rows[..|rows| - 1], rows[|rows| - 1];
      MergedIds(front);
      LastRow(rows);
      IdsOneMore(front, last);
      IdsOneMore(FirstSeen(front), last);
      assert forall i :: 0 <= i < |FirstSeen(front)| ==> FirstSeen(front)[i].id in Ids(FirstSeen(front));
    }
  }

  /** The merged rows are the first occurrences, in the order they occur. */
  lemma {:induction false} MergedInOrder<T>(rows: seq<Row<T>>) returns (places: seq<nat>)
    ensures |places| == |FirstSeen(rows)|
    ensures forall i :: 0 <= i < |places| ==>
      places[i] < |rows| && FirstSeen(rows)[i] == rows[places[i]] && rows[places[i]].id !in Ids(rows[..places[i]])
    ensures forall i, j :: 0 <= i < j < |places| ==> places[i] < places[j]
  {
    if rows == [] {
      places := [];
    } else {
      var front, last := rows[..|rows| - 1], rows[|rows| - 1];
      places := MergedInOrder(front);
      LastRow(rows);
      SeenOneMore(front, last);
      hide Ids, FirstSeen;
      var earlier := places;
      if last.id !in Ids(front) { places := places + [|rows| - 1]; }
      forall i | 0 <= i < |places|
        ensures places[i] < |rows| && FirstSeen(rows)[i] == rows[places[i]]
          && rows[places[i]].id !in Ids(rows[..places[i]])
      {
        if i < |earlier| { assert rows[..places[i]] == front[..places[i]]; }
      }
    }
  }

  lemma NothingSeen<T>()
    ensures FirstSeen<T>([]) == [] && Ids<T>([]) == {}
  {
  }

  /** `mergeCursorPages`. */
  method MergeCursorPages<T>(pages: seq<Page<T>>) returns (rows: seq<Row<T>>, hasMore: bool)
    ensures rows == FirstSeen(AllRows(pages))
    ensures hasMore <==>
      pages != [] && pages[|pages| - 1].hasMore && pages[|pages| - 1].nextCursor !in {None, Some("")}
  {
    hide Ids, FirstSeen;
    var seen: set<string>;
    rows, seen := [], {};
    NothingSeen<T>();
    assert pages[..0] == [];
    for p := 0 to |pages|
      invariant rows == FirstSeen(AllRows(pages[..p])) && seen == Ids(AllRows(pages[..p]))
    {
      var data := pages[p].data;
      ghost var before := AllRows(pages[..p]);
      assert before + data[..0] == before;
      for i := 0 to |data|
        invariant rows == FirstSeen(before + data[..i]) && seen == Ids(before + data[..i])
      {
        var row := data[i];
        OneMoreRow(before, data, i);
        SeenOneMore(before + data[..i], row);
        if row.id in seen { continue; }
        seen := seen + {row.id};
        rows := rows + [row];
      }
      assert data[..|data|] == data;
      assert pages[..p + 1][..p] == pages[..p];
    }
    assert pages[..|pages|] == pages;
    hasMore := |pages| > 0 && NextCursorOf(pages[|pages| - 1]).Some?;
  }

  lemma OneMoreRow<T>(before: seq<Row<T>>, data: seq<Row<T>>, i: nat)
    requires i < |data|
    ensures before + data[..i + 1] == before + data[..i] + [data[i]]
  {
  }

  // ----- Patching -----

  /** The first row with the id, patched. */
  function PatchRows<T>(rows: seq<Row<T>>, id: string, patch: Row<T> -> Row<T>): (r: seq<Row<T>>)
    ensures |r| == |rows|
  {
    if rows == [] then []
    else if rows[0].id == id then [patch(rows[0])] + rows[1..]
    else [rows[0]] + PatchRows(rows[1..], id, patch)
  }

  function PatchPages<T>(pages: seq<Page<T>>, id: string, patch: Row<T> -> Row<T>): (r: seq<Page<T>>)
    ensures |r| == |pages|
  {
    if pages == [] then []
    else
      PatchPages(pages[..|pages| - 1], id, patch) +
      [pages[|pages| - 1].(data := PatchRows(pages[|pages| - 1].data, id, patch))]
  }

  ghost predicate KeepsIds<T(!new)>(patch: Row<T> -> Row<T>) {
    forall row :: patch(row).id == row.id
  }

  lemma {:induction false} PatchAt<T>(rows: seq<Row<T>>, id: string, patch: Row<T> -> Row<T>, index: nat)
    requires index < |rows| && rows[index].id == id && forall i :: 0 <= i < index ==> rows[i].id != id
    ensures PatchRows(rows, id, patch) == rows[index := patch(rows[index])]
  {
    if index > 0 {
      PatchAt(rows[1..], id, patch, index - 1);
      assert rows == [rows[0]] + rows[1..];
    }
  }

  lemma {:induction false} PatchAbsent<T>(rows: seq<Row<T>>, id: string, patch: Row<T> -> Row<T>)
    requires id !in Ids(rows)
    ensures PatchRows(rows, id, patch) == rows
  {
    if rows != [] {
      assert rows == [rows[0]] + rows[1..];
      assert rows[0] in rows && forall r :: r in rows[1..] ==> r in rows;
      PatchAbsent(rows[1..], id, patch);
    }
  }

  /** `patchPage`: a copy of the page with its first row of that id patched, or nothing when it has none. */
  method PatchPage<T>(page: Page<T>, id: string, patch: Row<T> -> Row<T>) returns (r: Option<Page<T>>)
    ensures r.Some? <==> id in Ids(page.data)
    ensures r.Some? ==> r.value == page.(data := PatchRows(page.data, id, patch))
  {
    var index := 0;
    while index < |page.data| && page.data[index].id != id
      invariant index <= |page.data| && forall i :: 0 <= i < index ==> page.data[i].id != id
    {
      index := index + 1;
    }
    if index == |page.data| { return None; }
    PatchAt(page.data, id, patch, index);
    assert page.data[index] in page.data;
    r := Some(page.(data := page.data[index := patch(page.data[index])]));
  }

  function PatchCache<T>(cache: ListCache<T>, id: string, patch: Row<T> -> Row<T>): ListCache<T> {
    match cache
    case Single(page) => Single(page.(data := PatchRows(page.data, id, patch)))
    case Infinite(pages, params) => Infinite(PatchPages(pages, id, patch), params)
  }

  ghost function CacheIds<T>(cache: ListCache<T>): set<string> {
    match cache case Single(page) => Ids(page.data) case Infinite(pages, _) => Ids(AllRows(pages))
  }

  /** `patchListCacheRow`: nothing exactly when there is no cache or the id is nowhere in it. */
  method PatchListCacheRow<T>(cache: Option<ListCache<T>>, id: string, patch: Row<T> -> Row<T>)
    returns (r: Option<ListCache<T>>)
    ensures r.None? <==> cache.None? || id !in CacheIds(cache.value)
    ensures r.Some? ==> r.value == PatchCache(cache.value, id, patch)
  {
    if cache.None? { return None; }
    match cache.value {
      case Single(page) =>
        var next := PatchPage(page, id, patch);
        r := if next.Some? then Some(Single(next.value)) else None;
      case Infinite(pages, params) =>
        var changed, patched := false, [];
        assert pages[..0] == [];
        for p := 0 to |pages|
          invariant patched == PatchPages(pages[..p], id, patch)
          invariant changed <==> id in Ids(AllRows(pages[..p]))
        {
          var next := PatchPage(pages[p], id, patch);
          assert pages[..p + 1][..p] == pages[..p];
          IdsOfBoth(AllRows(pages[..p]), pages[p].data);
          if next.None? {
            PatchAbsent(pages[p].data, id, patch);
            patched := patched + [pages[p]];
          } else {
            changed := true;
            patched := patched + [next.value];
          }
        }
        assert pages[..|pages|] == pages;
        r := if changed then Some(Infinite(patched, params)) else None;
    }
  }

  lemma IdsOfBoth<T>(a: seq<Row<T>>, b: seq<Row<T>>)
    ensures Ids(a + b) == Ids(a) + Ids(b)
  {
    assert forall r :: r in a + b <==> r in a || r in b;
  }

  // ----- Merging and patching commute -----

  /** `b` is `a` with rows of that id patched here and there, the first of them for certain. */
  ghost predicate PatchedIn<T(!new)>(a: seq<Row<T>>, b: seq<Row<T>>, id: string, patch: Row<T> -> Row<T>) {
    && |a| == |b|
    && (forall i :: 0 <= i < |a| ==> b[i] == a[i] || (a[i].id == id && b[i] == patch(a[i])))
    && (forall i :: 0 <= i < |a| && a[i].id == id && id !in Ids(a[..i]) ==> b[i] == patch(a[i]))
  }

  lemma {:induction false} PatchRowsPatches<T(!new)>(rows: seq<Row<T>>, id: string, patch: Row<T> -> Row<T>)
    ensures PatchedIn(rows, PatchRows(rows, id, patch), id, patch)
  {
    if id !in Ids(rows) {
      PatchAbsent(rows, id, patch);
      assert forall i :: 0 <= i < |rows| ==> rows[i] in rows;
    } else {
      var index := FirstIndex(rows, id);
      PatchAt(rows, id, patch, index);
      forall i | index < i < |rows| ensures id in Ids(rows[..i]) {
        assert rows[..i][index] == rows[index];
      }
    }
  }

  lemma {:induction false} FirstIndex<T>(rows: seq<Row<T>>, id: string) returns (index: nat)
    requires id in Ids(rows)
    ensures index < |rows| && rows[index].id == id && forall i :: 0 <= i < index ==> rows[i].id != id
  {
    assert rows != [];
    if rows[0].id == id {
      index := 0;
    } else {
      assert rows == [rows[0]] + rows[1..];
      index := FirstIndex(rows[1..], id);
      index := index + 1;
    }
  }

  lemma PatchedJoin<T(!new)>(
      a: seq<Row<T>>, b: seq<Row<T>>, c: seq<Row<T>>, d: seq<Row<T>>, id: string, patch: Row<T> -> Row<T>)
    requires PatchedIn(a, b, id, patch) && PatchedIn(c, d, id, patch)
    ensures PatchedIn(a + c, b + d, id, patch)
  {
    forall i | 0 <= i < |a + c| && (a + c)[i].id == id && id !in Ids((a + c)[..i])
      ensures (b + d)[i] == patch((a + c)[i])
    {
      if i < |a| {
        assert (a + c)[..i] == a[..i];
      } else {
        assert (a + c)[..i] == a + c[..i - |a|];
        IdsOfBoth(a, c[..i - |a|]);
      }
    }
  }

  lemma {:induction false} PatchedPages<T(!new)>(pages: seq<Page<T>>, id: string, patch: Row<T> -> Row<T>)
    ensures PatchedIn(AllRows(pages), AllRows(PatchPages(pages, id, patch)), id, patch)
  {
    if pages != [] {
      var front, last := pages[..|pages| - 1], pages[|pages| - 1];
      PatchedPages(front, id, patch);
      PatchRowsPatches(last.data, id, patch);
      var patched := PatchPages(pages, id, patch);
      assert patched[..|patched| - 1] == PatchPages(front, id, patch);
      PatchedJoin(AllRows(front), AllRows(PatchPages(front, id, patch)),
                  last.data, PatchRows(last.data, id, patch), id, patch);
    }
  }

  lemma {:induction false} PatchLast<T>(rows: seq<Row<T>>, row: Row<T>, id: string, patch: Row<T> -> Row<T>)
    ensures row.id != id || id in Ids(rows) ==> PatchRows(rows + [row], id, patch) == PatchRows(rows, id, patch) + [row]
    ensures row.id == id && id !in Ids(rows) ==> PatchRows(rows + [row], id, patch) == rows + [patch(row)]
  {
    if rows != [] {
      assert rows == [rows[0]] + rows[1..] && (rows + [row])[1..] == rows[1..] + [row];
      IdsOfBoth([rows[0]], rows[1..]);
      PatchLast(rows[1..], row, id, patch);
    }
  }

  lemma PatchedFront<T(!new)>(a: seq<Row<T>>, b: seq<Row<T>>, id: string, patch: Row<T> -> Row<T>)
    requires PatchedIn(a, b, id, patch) && KeepsIds(patch) && a != []
    ensures PatchedIn(a[..|a| - 1], b[..|b| - 1], id, patch)
    ensures var last, lastB := a[|a| - 1], b[|b| - 1];
      && lastB.id == last.id && (last.id != id ==> lastB == last)
      && (last.id == id && id !in Ids(a[..|a| - 1]) ==> lastB == patch(last))
  {
    assert forall i :: 0 <= i < |a| - 1 ==> a[..|a| - 1][..i] == a[..i];
  }

  lemma MergeStep<T(!new)>(
      front: seq<Row<T>>, frontB: seq<Row<T>>, last: Row<T>, lastB: Row<T>, id: string, patch: Row<T> -> Row<T>)
    requires FirstSeen(frontB) == PatchRows(FirstSeen(front), id, patch) && Ids(frontB) == Ids(front)
    requires lastB.id == last.id && (last.id != id ==> lastB == last)
    requires last.id == id && id !in Ids(front) ==> lastB == patch(last)
    ensures FirstSeen(frontB + [lastB]) == PatchRows(FirstSeen(front + [last]), id, patch)
    ensures Ids(frontB + [lastB]) == Ids(front + [last])
  {
    hide Ids, FirstSeen, PatchRows;
    SeenOneMore(front, last);
    SeenOneMore(frontB, lastB);
    MergedIds(front);
    PatchLast(FirstSeen(front), last, id, patch);
    assert FirstSeen(front) + [] == FirstSeen(front) && FirstSeen(frontB) + [] == FirstSeen(frontB);
    if last.id == id && id !in Ids(front) { PatchAbsent(FirstSeen(front), id, patch); }
  }

  lemma {:induction false} MergePatched<T(!new)>(a: seq<Row<T>>, b: seq<Row<T>>, id: string, patch: Row<T> -> Row<T>)
    requires PatchedIn(a, b, id, patch) && KeepsIds(patch)
    ensures FirstSeen(b) == PatchRows(FirstSeen(a), id, patch) && Ids(b) == Ids(a)
  {
    if a == [] {
      assert b == [];
    } else {
      var front, frontB := a[..|a| - 1], b[..|b| - 1];
      PatchedFront(a, b, id, patch);
      LastRow(a);
      LastRow(b);
      MergePatched(front, frontB, id, patch);
      hide *;
      MergeStep(front, frontB, a[|a| - 1], b[|b| - 1], id, patch);
    }
  }

  /**
   Merging the patched cache is patching the row in the merged list, even when the id is on several pages, for every
   patch that keeps ids.
   */
  lemma MergeAndPatchCommute<T(!new)>(pages: seq<Page<T>>, id: string, patch: Row<T> -> Row<T>)
    requires KeepsIds(patch)
    ensures FirstSeen(AllRows(PatchPages(pages, id, patch))) == PatchRows(FirstSeen(AllRows(pages)), id, patch)
  {
    PatchedPages(pages, id, patch);
    MergePatched(AllRows(pages), AllRows(PatchPages(pages, id, patch)), id, patch);
  }
}
