/** The log over runs: what the store holds, and what a client that follows the cursor gets while others add. */
module LogPaging {
  import opened Ordering
  import opened LogStore

  // ----- contents ----------------------------------------------------------------------------------------

  function Numbered(rs: seq<Record>): (r: seq<Record>)
    ensures |r| == |rs| && forall i :: 0 <= i < |rs| ==> r[i] == rs[i].(id := i + 1)
  {
    seq(|rs|, i requires 0 <= i < |rs| => rs[i].(id := i + 1))
  }

  /** After n additions the store holds the last min(n, capacity) records, numbered from 1 without gaps. */
  lemma {:induction false} HoldsTheLast(rs: seq<Record>, capacity: nat)
    requires capacity > 0
    ensures AddedAll(Log([], 0), rs, capacity) == Log(Last(Numbered(rs), capacity), |rs|)
  {
    if |rs| > 0 {
      var n := |rs| - 1;
      hide Numbered;
      hide Last;
      HoldsTheLast(rs[..n], capacity);
      NumberedNext(rs);
      LastOfLast(Numbered(rs[..n]), rs[n].(id := n + 1), capacity);
    }
  }

  lemma NumberedNext(rs: seq<Record>)
    requires |rs| > 0
    ensures Numbered(rs) == Numbered(rs[..|rs| - 1]) + [rs[|rs| - 1].(id := |rs|)]
  {
  }

  lemma LastOfLast<T>(s: seq<T>, x: T, n: nat)
    requires n > 0
    ensures Last(Last(s, n) + [x], n) == Last(s + [x], n)
  {
  }

  lemma {:induction false} AddsKeep(s: Log, rs: seq<Record>, capacity: nat)
    requires Consecutive(s) && |s.records| <= capacity
    ensures var after := AddedAll(s, rs, capacity);
            && Consecutive(after) && |after.records| <= capacity && s.nextID <= after.nextID
            && s.nextID - |s.records| <= after.nextID - |after.records|
            && forall r :: r in after.records && r.id <= s.nextID ==> r in s.records
  {
    if |rs| > 0 {
      var n := |rs| - 1;
      AddsKeep(s, rs[..n], capacity);
      AddedConsecutive(AddedAll(s, rs[..n], capacity), rs[n], capacity);
    }
  }

  // ----- one page ----------------------------------------------------------------------------------------------

  ghost predicate Descending(rs: seq<Record>) { forall i, j :: 0 <= i < j < |rs| ==> rs[j].id < rs[i].id }

  /** The selection of a query: exactly the matching records, newest first. */
  lemma {:induction false} SelectedExactly(rs: seq<Record>, q: Query)
    requires forall i, j :: 0 <= i < j < |rs| ==> rs[i].id < rs[j].id
    ensures Descending(Selected(rs, q))
    ensures forall r :: r in Selected(rs, q) <==> r in rs && Matches(r, q)
  {
    if |rs| > 0 {
      var n := |rs| - 1;
      assert rs == rs[..n] + [rs[n]];
      SelectedExactly(rs[..n], q);
      forall r | r in Selected(rs[..n], q) ensures r.id < rs[n].id {
        var i :| 0 <= i < n && rs[i] == r;
      }
    }
  }

  // ----- following the cursor --------------------------------------------------------------------------------------

  function NextQuery(s: Log, q: Query, scrub: string -> string): Query {
    q.(cursor := PageOf(s.records, q, scrub).nextCursor)
  }

  /** Everything the client gets: page after page, with the additions of gaps[k] between page k and page k + 1. */
  function Walk(s: Log, q: Query, gaps: seq<seq<Record>>, capacity: nat, scrub: string -> string): seq<Record>
    decreases |gaps|
  {
    var page := PageOf(s.records, q, scrub);
    if !page.hasMore || |gaps| == 0 then page.records
    else page.records + Walk(AddedAll(s, gaps[0], capacity), NextQuery(s, q, scrub), gaps[1..], capacity, scrub)
  }

  /** The client reaches a page that says there are no more. */
  predicate Ends(s: Log, q: Query, gaps: seq<seq<Record>>, capacity: nat, scrub: string -> string)
    decreases |gaps|
  {
    PageOf(s.records, q, scrub).hasMore ==>
      |gaps| > 0 && Ends(AddedAll(s, gaps[0], capacity), NextQuery(s, q, scrub), gaps[1..], capacity, scrub)
  }

  /** The record is still stored at every page up to the one that reaches its identifier. */
  predicate Survives(r: Record, s: Log, q: Query, gaps: seq<seq<Record>>, capacity: nat, scrub: string -> string)
    decreases |gaps|
  {
    var page := PageOf(s.records, q, scrub);
    && r in s.records
    && (page.hasMore && |gaps| > 0 && r.id < page.nextCursor ==>
          Survives(r, AddedAll(s, gaps[0], capacity), NextQuery(s, q, scrub), gaps[1..], capacity, scrub))
  }

  /** A page in terms of the selection: its first records, and the identifier of the last one as the cursor. */
  lemma PageFacts(s: Log, q: Query, scrub: string -> string)
    requires Consecutive(s)
    ensures var page, all := PageOf(s.records, q, scrub), Selected(s.records, q);
            && Descending(all) && (forall r :: r in all <==> r in s.records && Matches(r, q))
            && |page.records| <= |all|
            && (forall i :: 0 <= i < |page.records| ==> page.records[i] == Sanitize(all[i], scrub) && page.records[i].id == all[i].id)
            && (if page.hasMore
                then 0 < |page.records| < |all| && page.nextCursor == all[|page.records| - 1].id > 0
                else |page.records| == |all|)
  {
    hide Sanitize;
    SelectedExactly(s.records, q);
    var page, all := PageOf(s.records, q, scrub), Selected(s.records, q);
    forall i | 0 <= i < |page.records| ensures page.records[i].id == all[i].id { SanitizeKeepsID(all[i], scrub); }
    if page.hasMore { assert all[|page.records| - 1] in all; }
  }

  lemma SanitizeKeepsID(r: Record, scrub: string -> string)
    ensures Sanitize(r, scrub).id == r.id
  {
  }

  /** What is returned was stored and matching at the first page: nothing twice, nothing new, in descending order. */
  ghost predicate Exact(result: seq<Record>, s: Log, q: Query, scrub: string -> string) {
    Descending(result) &&
    forall i :: 0 <= i < |result| ==> Origin(result[i], s, q, scrub)
  }

  ghost predicate Origin(x: Record, s: Log, q: Query, scrub: string -> string) {
    exists r :: r in s.records && Matches(r, q) && x == Sanitize(r, scrub) && x.id == r.id
  }

  lemma PageExact(s: Log, q: Query, scrub: string -> string)
    requires Consecutive(s)
    ensures Exact(PageOf(s.records, q, scrub).records, s, q, scrub)
  {
    hide Matches;
    hide Sanitize;
    hide PageOf;
    hide Selected;
    PageFacts(s, q, scrub);
    var page, all := PageOf(s.records, q, scrub), Selected(s.records, q);
    forall i | 0 <= i < |page.records| ensures Origin(page.records[i], s, q, scrub) {
      assert all[i] in all;
    }
  }

  /** A record of a later page was already there at this one, below the cursor. */
  lemma OriginBefore(x: Record, s: Log, q: Query, rs: seq<Record>, capacity: nat, scrub: string -> string)
    requires Consecutive(s) && |s.records| <= capacity && PageOf(s.records, q, scrub).hasMore
    requires Origin(x, AddedAll(s, rs, capacity), NextQuery(s, q, scrub), scrub)
    ensures Origin(x, s, q, scrub) && x.id < PageOf(s.records, q, scrub).nextCursor
  {
    hide Sanitize;
    hide PageOf;
    hide Selected;
    PageFacts(s, q, scrub);
    AddsKeep(s, rs, capacity);
    var page, all := PageOf(s.records, q, scrub), Selected(s.records, q);
    var r :| r in AddedAll(s, rs, capacity).records && Matches(r, NextQuery(s, q, scrub)) && x == Sanitize(r, scrub) && x.id == r.id;
    var last := all[|page.records| - 1];
    assert last in all && Matches(last, q);
    assert last.id <= s.nextID;
    assert r in s.records && Matches(r, q);
  }

  /** Paging is exact, whatever is added meanwhile. */
  lemma {:induction false} WalkExact(s: Log, q: Query, gaps: seq<seq<Record>>, capacity: nat, scrub: string -> string)
    requires Consecutive(s) && |s.records| <= capacity
    ensures Exact(Walk(s, q, gaps, capacity, scrub), s, q, scrub)
    decreases |gaps|
  {
    hide Origin;
    hide PageOf;
    hide Selected;
    hide Consecutive;
    PageExact(s, q, scrub);
    var page := PageOf(s.records, q, scrub);
    if page.hasMore && |gaps| > 0 {
      AddsKeep(s, gaps[0], capacity);
      var s', q' := AddedAll(s, gaps[0], capacity), NextQuery(s, q, scrub);
      WalkExact(s', q', gaps[1..], capacity, scrub);
      var rest := Walk(s', q', gaps[1..], capacity, scrub);
      forall i | 0 <= i < |rest| ensures Origin(rest[i], s, q, scrub) && rest[i].id < page.nextCursor {
        OriginBefore(rest[i], s, q, gaps[0], capacity, scrub);
      }
      PageFacts(s, q, scrub);
      JoinDescending(page.records, rest, page.nextCursor);
    }
  }

  lemma JoinDescending(a: seq<Record>, b: seq<Record>, bound: nat)
    requires Descending(a) && Descending(b) && |a| > 0 && a[|a| - 1].id == bound
    requires forall i :: 0 <= i < |b| ==> b[i].id < bound
    ensures Descending(a + b)
  {
  }

  /** Paging is complete: a matching record that is not evicted before it is reached is returned. */
  lemma {:induction false} WalkComplete(r: Record, s: Log, q: Query, gaps: seq<seq<Record>>, capacity: nat, scrub: string -> string)
    requires Consecutive(s) && |s.records| <= capacity && Ends(s, q, gaps, capacity, scrub)
    requires Matches(r, q) && Survives(r, s, q, gaps, capacity, scrub)
    ensures Sanitize(r, scrub) in Walk(s, q, gaps, capacity, scrub)
    decreases |gaps|
  {
    hide Sanitize;
    hide PageOf;
    hide Selected;
    PageFacts(s, q, scrub);
    var page, all := PageOf(s.records, q, scrub), Selected(s.records, q);
    assert r in all;
    var i :| 0 <= i < |all| && all[i] == r;
    if i < |page.records| {
      assert page.records[i] == Sanitize(r, scrub);
    } else {
      assert r.id < page.nextCursor;
      AddsKeep(s, gaps[0], capacity);
      WalkComplete(r, AddedAll(s, gaps[0], capacity), NextQuery(s, q, scrub), gaps[1..], capacity, scrub);
    }
  }

  /** A page with a successor moves the cursor down, and not below the oldest record. */
  lemma CursorMoves(s: Log, q: Query, scrub: string -> string)
    requires Consecutive(s) && PageOf(s.records, q, scrub).hasMore
    ensures var next := PageOf(s.records, q, scrub).nextCursor;
            && (q.cursor > 0 ==> next < q.cursor) && 0 < next <= s.nextID && s.nextID - |s.records| + 1 < next
  {
    hide PageOf;
    hide Selected;
    PageFacts(s, q, scrub);
    var page, all := PageOf(s.records, q, scrub), Selected(s.records, q);
    assert all[|page.records| - 1] in all && all[|page.records|] in all;
  }

  lemma {:induction false} CursorReachesEnd(s: Log, q: Query, gaps: seq<seq<Record>>, capacity: nat, scrub: string -> string)
    requires Consecutive(s) && |s.records| <= capacity
    requires q.cursor > 0 && |gaps| >= q.cursor - (s.nextID - |s.records| + 1)
    ensures Ends(s, q, gaps, capacity, scrub)
    decreases |gaps|
  {
    hide PageOf;
    hide Consecutive;
    if PageOf(s.records, q, scrub).hasMore {
      CursorMoves(s, q, scrub);
      AddsKeep(s, gaps[0], capacity);
      CursorReachesEnd(AddedAll(s, gaps[0], capacity), NextQuery(s, q, scrub), gaps[1..], capacity, scrub);
    }
  }

  /** Following the cursor ends after at most as many pages as records were stored at the first one. */
  lemma WalkEnds(s: Log, q: Query, gaps: seq<seq<Record>>, capacity: nat, scrub: string -> string)
    requires Consecutive(s) && |s.records| <= capacity && |gaps| >= |s.records|
    ensures Ends(s, q, gaps, capacity, scrub)
  {
    hide PageOf;
    hide Consecutive;
    if PageOf(s.records, q, scrub).hasMore {
      CursorMoves(s, q, scrub);
      AddsKeep(s, gaps[0], capacity);
      CursorReachesEnd(AddedAll(s, gaps[0], capacity), NextQuery(s, q, scrub), gaps[1..], capacity, scrub);
    }
  }
}
