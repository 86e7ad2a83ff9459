/** Listing documents page by page: the page is cut first and filtered by access afterwards. */
module Listing {
  import opened Stores
  import opened Sequences

  datatype Response = Response(doc: Document, chunkCount: nat)

  /** WHERE status = ...; no status, or an empty one, selects every row. */
  function Selected(table: seq<Document>, status: Option<string>): seq<Document> {
    if table == [] then [] else
      (if status.None? || status.value == "" || table[0].status == status.value then [table[0]] else [])
      + Selected(table[1..], status)
  }

  /** LIMIT and OFFSET on the ordered rows. */
  function Page(rows: seq<Document>, limit: nat, offset: nat): seq<Document> {
    if offset >= |rows| then []
    else if offset + limit < |rows| then rows[offset..offset + limit]
    else rows[offset..]
  }

  /** With access control off nothing is filtered. */
  function Visible(rows: seq<Document>, accessible: Option<set<DocUuid>>): seq<Document> {
    if rows == [] then [] else
      (if accessible.None? || rows[0].docUuid in accessible.value then [rows[0]] else [])
      + Visible(rows[1..], accessible)
  }

  function ListedRows(rows: seq<Document>, accessible: Option<set<DocUuid>>, limit: nat, offset: nat): seq<Document> {
    if accessible == Some({}) then [] else Visible(Page(rows, limit, offset), accessible)
  }

  /** The documents of one page. */
  function Listed(table: seq<Document>, status: Option<string>, accessible: Option<set<DocUuid>>,
                  limit: nat, offset: nat): seq<Document> {
    ListedRows(Selected(table, status), accessible, limit, offset)
  }

  method BuildResponses(docs: seq<Document>, chunkCount: DocUuid -> nat) returns (responses: seq<Response>)
    ensures |responses| == |docs|
    ensures forall i :: 0 <= i < |docs| ==> responses[i] == Response(docs[i], chunkCount(docs[i].docUuid))
  {
    responses := [];
    for i := 0 to |docs|
      invariant |responses| == i
      invariant forall j :: 0 <= j < i ==> responses[j] == Response(docs[j], chunkCount(docs[j].docUuid))
    {
      responses := responses + [Response(docs[i], chunkCount(docs[i].docUuid))];
    }
  }

  method ListDocuments(table: seq<Document>, status: Option<string>, accessible: Option<set<DocUuid>>,
                       limit: nat, offset: nat, chunkCount: DocUuid -> nat)
    returns (responses: seq<Response>)
    ensures var docs := Listed(table, status, accessible, limit, offset);
      |responses| == |docs| &&
      forall i :: 0 <= i < |docs| ==> responses[i] == Response(docs[i], chunkCount(docs[i].docUuid))
  {
    if accessible == Some({}) {
      return [];
    }
    var page := Page(Selected(table, status), limit, offset);
    AllVisible(page);
    var docs := if accessible.Some? then Visible(page, accessible) else page;
    responses := BuildResponses(docs, chunkCount);
  }

  lemma {:induction false} AllVisible(rows: seq<Document>)
    ensures Visible(rows, None) == rows
  {
    if rows != [] {
      AllVisible(rows[1..]);
    }
  }

  lemma {:induction false} NoneVisible(rows: seq<Document>)
    ensures Visible(rows, Some({})) == []
  {
    if rows != [] {
      NoneVisible(rows[1..]);
    }
  }

  lemma {:induction false} VisibleConcat(a: seq<Document>, b: seq<Document>, accessible: Option<set<DocUuid>>)
    ensures Visible(a + b, accessible) == Visible(a, accessible) + Visible(b, accessible)
  {
    if a == [] {
      assert a + b == b;
    } else {
      assert (a + b)[1..] == a[1..] + b;
      VisibleConcat(a[1..], b, accessible);
    }
  }

  /** The pages at offset, offset + limit, and so on up to the last row, one after the other. */
  function PagesOf(rows: seq<Document>, accessible: Option<set<DocUuid>>, limit: nat, offset: nat): seq<Document>
    requires limit >= 1
    decreases |rows| - offset
  {
    if offset >= |rows| then [] else
      ListedRows(rows, accessible, limit, offset) + PagesOf(rows, accessible, limit, offset + limit)
  }

  lemma {:induction false} ListedIsVisible(rows: seq<Document>, accessible: Option<set<DocUuid>>, limit: nat,
      offset: nat)
    ensures ListedRows(rows, accessible, limit, offset) == Visible(Page(rows, limit, offset), accessible)
  {
    NoneVisible(Page(rows, limit, offset));
  }

  function From(rows: seq<Document>, offset: nat): seq<Document> {
    if offset < |rows| then rows[offset..] else []
  }

  lemma {:induction false} PageSplits(rows: seq<Document>, limit: nat, offset: nat, next: nat)
    requires next == offset + limit
    ensures From(rows, offset) == Page(rows, limit, offset) + From(rows, next)
  {
  }

  lemma {:induction false} PagesFrom(
    rows: seq<Document>, accessible: Option<set<DocUuid>>, limit: nat, offset: nat, tail: seq<Document>)
    requires limit >= 1 && tail == From(rows, offset)
    ensures PagesOf(rows, accessible, limit, offset) == Visible(tail, accessible)
    decreases |rows| - offset
  {
    if offset < |rows| {
      var next := offset + limit;
      var page, rest := Page(rows, limit, offset), From(rows, next);
      PageSplits(rows, limit, offset, next);
      VisibleConcat(page, rest, accessible);
      ListedIsVisible(rows, accessible, limit, offset);
      PagesFrom(rows, accessible, limit, next, rest);
      assert tail == page + rest;
      assert PagesOf(rows, accessible, limit, offset)
          == ListedRows(rows, accessible, limit, offset) + PagesOf(rows, accessible, limit, next);
    }
  }

  /** All pages of a listing. */
  function Pages(table: seq<Document>, status: Option<string>, accessible: Option<set<DocUuid>>, limit: nat)
    : seq<Document>
    requires limit >= 1
  {
    PagesOf(Selected(table, status), accessible, limit, 0)
  }

  /** Over a fixed table the pages at 0, L, 2L, ... tile the accessible rows: put together they are the
      rows selected, in order, that the caller may see. */
  lemma {:induction false} PagesTile(table: seq<Document>, status: Option<string>,
      accessible: Option<set<DocUuid>>, limit: nat)
    requires limit >= 1
    ensures Pages(table, status, accessible, limit) == Visible(Selected(table, status), accessible)
  {
    assert From(Selected(table, status), 0) == Selected(table, status);
    PagesFrom(Selected(table, status), accessible, limit, 0, Selected(table, status));
  }

  predicate DistinctDocs(rows: seq<Document>) {
    forall i, j :: 0 <= i < j < |rows| ==> rows[i].docUuid != rows[j].docUuid
  }

  predicate Seen(accessible: Option<set<DocUuid>>, d: DocUuid) {
    accessible.None? || d in accessible.value
  }

  lemma {:induction false} SelectedRows(table: seq<Document>, status: Option<string>)
    ensures forall d :: d in Selected(table, status) <==>
      d in table && (status.None? || status.value == "" || d.status == status.value)
    ensures DistinctDocs(table) ==> DistinctDocs(Selected(table, status))
  {
    if table != [] {
      SelectedRows(table[1..], status);
      assert table == [table[0]] + table[1..];
      if DistinctDocs(table) {
        forall d | d in table[1..] ensures d.docUuid != table[0].docUuid {
          var i :| 0 <= i < |table[1..]| && table[1..][i] == d;
          assert table[i + 1] == d;
        }
      }
    }
  }

  lemma {:induction false} VisibleRows(rows: seq<Document>, accessible: Option<set<DocUuid>>)
    ensures forall d :: d in Visible(rows, accessible) <==> d in rows && Seen(accessible, d.docUuid)
    ensures DistinctDocs(rows) ==> DistinctDocs(Visible(rows, accessible))
  {
    if rows != [] {
      VisibleRows(rows[1..], accessible);
      assert rows == [rows[0]] + rows[1..];
      if DistinctDocs(rows) {
        forall d | d in rows[1..] ensures d.docUuid != rows[0].docUuid {
          var i :| 0 <= i < |rows[1..]| && rows[1..][i] == d;
          assert rows[i + 1] == d;
        }
      }
    }
  }

  lemma {:induction false} SelectedInOrder(table: seq<Document>, status: Option<string>)
    ensures Subsequence(Selected(table, status), table)
  {
    if table != [] {
      SelectedInOrder(table[1..], status);
      if Selected(table, status) == Selected(table[1..], status) {
        SubsequenceSkip(Selected(table[1..], status), table[0], table[1..]);
        assert table == [table[0]] + table[1..];
      }
    }
  }

  lemma {:induction false} VisibleInOrder(rows: seq<Document>, accessible: Option<set<DocUuid>>)
    ensures Subsequence(Visible(rows, accessible), rows)
  {
    if rows != [] {
      VisibleInOrder(rows[1..], accessible);
      if Visible(rows, accessible) == Visible(rows[1..], accessible) {
        SubsequenceSkip(Visible(rows[1..], accessible), rows[0], rows[1..]);
        assert rows == [rows[0]] + rows[1..];
      }
    }
  }

  /** A page lists, in the order of the table, those of its at most `limit` rows that the caller may see. */
  lemma {:induction false} ListedIsPage(table: seq<Document>, status: Option<string>,
      accessible: Option<set<DocUuid>>, limit: nat, offset: nat)
    ensures var rows, docs := Selected(table, status), Listed(table, status, accessible, limit, offset);
      && Subsequence(docs, rows) && |docs| <= limit
      && forall d :: d in docs <==>
        Seen(accessible, d.docUuid) && exists i :: offset <= i < offset + limit && i < |rows| && rows[i] == d
  {
    var rows := Selected(table, status);
    var page := Page(rows, limit, offset);
    ListedIsVisible(rows, accessible, limit, offset);
    VisibleRows(page, accessible);
    VisibleInOrder(page, accessible);
    PageInOrder(rows, limit, offset);
    SubsequenceTransitive(Visible(page, accessible), page, rows);
    SubsequenceLength(Visible(page, accessible), page);
  }

  lemma {:induction false} PageInOrder(rows: seq<Document>, limit: nat, offset: nat)
    ensures var page := Page(rows, limit, offset);
      && Subsequence(page, rows) && |page| <= limit
      && forall d :: d in page <==> exists i :: offset <= i < offset + limit && i < |rows| && rows[i] == d
  {
    var last := if offset + limit < |rows| then offset + limit else |rows|;
    var page := Page(rows, limit, offset);
    if offset < |rows| {
      assert page == rows[offset..last];
      SubsequencePart(rows, offset, last);
      forall i | offset <= i < last ensures rows[i] in page {
        assert page[i - offset] == rows[i];
      }
    }
  }

  /** Nothing is listed twice, nothing accessible is left out, nothing else is listed, and the order is
      that of the table. */
  lemma {:induction false} PagesHaveNoGaps(table: seq<Document>, status: Option<string>,
      accessible: Option<set<DocUuid>>, limit: nat)
    requires limit >= 1 && DistinctDocs(table)
    ensures var docs := Pages(table, status, accessible, limit);
      && DistinctDocs(docs) && Subsequence(docs, table)
      && forall d :: d in docs <==>
        d in table && (status.None? || status.value == "" || d.status == status.value) && Seen(accessible, d.docUuid)
  {
    PagesTile(table, status, accessible, limit);
    SelectedRows(table, status);
    VisibleRows(Selected(table, status), accessible);
    SelectedInOrder(table, status);
    VisibleInOrder(Selected(table, status), accessible);
    SubsequenceTransitive(Visible(Selected(table, status), accessible), Selected(table, status), table);
  }

  /** A page comes back empty exactly when the caller may see none of its rows; that does not mean that
      the listing has ended. */
  lemma {:induction false} EmptyPageIff(table: seq<Document>, status: Option<string>, accessible: Option<set<DocUuid>>,
                                        limit: nat, offset: nat)
    ensures Listed(table, status, accessible, limit, offset) == [] <==>
      forall d :: d in Page(Selected(table, status), limit, offset) ==> !Seen(accessible, d.docUuid)
  {
    var page := Page(Selected(table, status), limit, offset);
    ListedIsVisible(Selected(table, status), accessible, limit, offset);
    VisibleRows(page, accessible);
    if Visible(page, accessible) != [] {
      assert Visible(page, accessible)[0] in page;
    }
  }

  /** A first page can be empty although the next one is not. */
  lemma {:induction false} EmptyPageBeforeLast(hidden: Document, shown: Document)
    requires hidden.docUuid != shown.docUuid
    ensures Listed([hidden, shown], None, Some({shown.docUuid}), 1, 0) == []
    ensures Listed([hidden, shown], None, Some({shown.docUuid}), 1, 1) == [shown]
  {
    var table, accessible := [hidden, shown], Some({shown.docUuid});
    assert Selected([shown], None) == [shown] by {
      assert [shown][1..] == [];
    }
    assert Selected(table, None) == table by {
      assert table[1..] == [shown];
    }
    assert Page(table, 1, 0) == [hidden] && Page(table, 1, 1) == [shown];
    assert Visible([hidden], accessible) == [] by {
      assert [hidden][1..] == [];
    }
    assert Visible([shown], accessible) == [shown] by {
      assert [shown][1..] == [];
    }
    assert shown.docUuid in accessible.value;
  }
}
