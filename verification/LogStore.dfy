/** The bounded in-memory log: adding, and paging from newest to oldest. */
module LogStore {
  import opened Ordering
  import opened Domain

  datatype Record = Record(id: nat, timestamp: Timestamp, level: string, component: string, message: string,
                           fields: map<string, string>)

  datatype Query = Query(limit: int, cursor: nat, since: Option<Timestamp>, level: string, component: string)

  datatype Page = Page(records: seq<Record>, nextCursor: nat, hasMore: bool)

  const DEFAULT_CAPACITY := 2000
  const DEFAULT_PAGE_SIZE := 100
  const MAXIMUM_PAGE_SIZE := 200
  const REDACTED := "[REDACTED]"

  // ----- sanitizing; scrub stands for the redaction expressions of sanitizeMessage ----------------------

  function NormalizeLevel(value: string): string {
    var v := ToUpper(TrimSpace(value));
    if v == "DEBUG" then "DEBUG"
    else if v == "WARN" || v == "WARNING" then "WARN"
    else if v == "ERROR" then "ERROR"
    else "INFO"
  }

  predicate IsNameChar(c: char) { c != '_' && c != '-' && c != '.' }

  predicate EndsWith(s: string, suffix: string) { |suffix| <= |s| && s[|s| - |suffix|..] == suffix }

  predicate IsSecretField(key: string) {
    var k := ToLower(Filter(IsNameChar, key));
    || k in ["password", "passwordhash", "managementtoken", "authorization", "bearer", "privatekey", "privatekeypath",
             "dnstoken", "dnsapitoken", "apikey", "clientsecret", "secret", "credential", "credentials", "token"]
    || EndsWith(k, "password") || EndsWith(k, "passwordhash") || EndsWith(k, "token") || EndsWith(k, "secret")
    || EndsWith(k, "privatekey") || EndsWith(k, "apikey")
  }

  function SanitizeFields(fields: map<string, string>, scrub: string -> string): map<string, string> {
    map k | k in fields :: if IsSecretField(k) then REDACTED else scrub(fields[k])
  }

  function Sanitize(r: Record, scrub: string -> string): Record {
    r.(level := NormalizeLevel(r.level), component := scrub(r.component), message := scrub(r.message),
       fields := SanitizeFields(r.fields, scrub))
  }

  /** What Add stores, apart from the identifier. */
  function Prepared(r: Record, now: Timestamp, scrub: string -> string): Record {
    Sanitize(r.(timestamp := if r.timestamp == 0 then now else r.timestamp,
                component := if r.component == "" then "daemon" else r.component), scrub)
  }

  // ----- specification --------------------------------------------------------------------------------------

  /** The last n elements. */
  function Last<T>(s: seq<T>, n: nat): seq<T> { if |s| <= n then s else s[|s| - n..] }

  datatype Log = Log(records: seq<Record>, nextID: nat)

  /** The records are the newest ones, with consecutive identifiers up to the last one given out. */
  ghost predicate Consecutive(s: Log) {
    |s.records| <= s.nextID && forall i :: 0 <= i < |s.records| ==> s.records[i].id == s.nextID - |s.records| + 1 + i
  }

  function Added(s: Log, r: Record, capacity: nat): Log {
    Log(Last(s.records + [r.(id := s.nextID + 1)], capacity), s.nextID + 1)
  }

  function AddedAll(s: Log, rs: seq<Record>, capacity: nat): Log {
    if |rs| == 0 then s else Added(AddedAll(s, rs[..|rs| - 1], capacity), rs[|rs| - 1], capacity)
  }

  function EffectiveLimit(limit: int): nat {
    if limit <= 0 then DEFAULT_PAGE_SIZE else if limit > MAXIMUM_PAGE_SIZE then MAXIMUM_PAGE_SIZE else limit
  }

  predicate Matches(r: Record, q: Query) {
    var level, component := ToUpper(TrimSpace(q.level)), ToLower(TrimSpace(q.component));
    && (q.cursor > 0 ==> r.id < q.cursor)
    && (q.since.Some? ==> q.since.value <= r.timestamp)
    && (level != "" ==> r.level == level)
    && (component != "" ==> ToLower(r.component) == component)
  }

  /** The matching records, newest first. */
  function Selected(rs: seq<Record>, q: Query): (r: seq<Record>)
    ensures |r| <= |rs|
  {
    if |rs| == 0 then []
    else
      var n := |rs| - 1;
      (if Matches(rs[n], q) then [rs[n]] else []) + Selected(rs[..n], q)
  }

  function SanitizeAll(rs: seq<Record>, scrub: string -> string): (r: seq<Record>)
    ensures |r| == |rs| && forall i :: 0 <= i < |rs| ==> r[i] == Sanitize(rs[i], scrub)
  {
    seq(|rs|, i requires 0 <= i < |rs| => Sanitize(rs[i], scrub))
  }

  /** The first page of what a query selects. */
  function PageOf(rs: seq<Record>, q: Query, scrub: string -> string): Page {
    var all, limit := Selected(rs, q), EffectiveLimit(q.limit);
    if |all| <= limit then Page(SanitizeAll(all, scrub), 0, false)
    else Page(SanitizeAll(all[..limit], scrub), all[limit - 1].id, true)
  }

  lemma {:induction false} SelectedSplit(a: seq<Record>, b: seq<Record>, q: Query)
    ensures Selected(a + b, q) == Selected(b, q) + Selected(a, q)
  {
    if |b| == 0 {
      assert a + b == a;
    } else {
      assert (a + b)[..|a + b| - 1] == a + b[..|b| - 1];
      SelectedSplit(a, b[..|b| - 1], q);
    }
  }

  // ----- the store ----------------------------------------------------------------------------------------------

  class Store {
    const capacity: nat
    const scrub: string -> string
    var nextID: nat
    var data: array<Record>
    var length: nat

    ghost predicate Valid()
      reads this, data
    {
      0 < capacity == data.Length && length <= data.Length && Consecutive(Log(data[..length], nextID))
    }

    ghost function View(): Log
      requires length <= data.Length
      reads this, data
    {
      Log(data[..length], nextID)
    }

    constructor (capacity: int, scrub: string -> string)
      ensures Valid() && fresh(data) && View() == Log([], 0) && this.scrub == scrub
      ensures this.capacity == if capacity <= 0 then DEFAULT_CAPACITY else capacity
    {
      var size := if capacity <= 0 then DEFAULT_CAPACITY else capacity;
      this.capacity, this.scrub, nextID, length := size, scrub, 0, 0;
      data := new Record[size](_ => Record(0, 0, "", "", "", map[]));
    }

    /** copy(s.records, s.records[1:]). */
    method ShiftLeft()
      requires 0 < length <= data.Length
      modifies data
      ensures data[..length - 1] == old(data[1..length])
    {
      for i := 0 to length - 1
        invariant forall j :: 0 <= j < i ==> data[j] == old(data[j + 1])
        invariant forall j :: i <= j < length ==> data[j] == old(data[j])
      {
        data[i] := data[i + 1];
      }
    }

    /** The part of Add under the lock. */
    method Append(r: Record)
      requires Valid()
      modifies this`nextID, this`length, data
      ensures Valid() && View() == Added(old(View()), r, capacity)
    {
      hide Consecutive;
      AddedConsecutive(View(), r, capacity);
      ghost var before := data[..length];
      nextID := nextID + 1;
      var record := r.(id := nextID);
      if length == capacity {
        ShiftLeft();
        data[length - 1] := record;
        assert data[..length] == before[1..] + [record] == (before + [record])[1..];
      } else {
        data[length] := record;
        length := length + 1;
        assert data[..length] == before + [record];
      }
    }

    method Add(r: Record, now: Timestamp)
      requires Valid()
      modifies this`nextID, this`length, data
      ensures Valid() && View() == Added(old(View()), Prepared(r, now, scrub), capacity)
    {
      hide Added;
      hide NormalizeLevel;
      hide SanitizeFields;
      hide Consecutive;
      var record := r;
      if record.timestamp == 0 { record := record.(timestamp := now); }
      record := record.(level := NormalizeLevel(record.level));
      if record.component == "" { record := record.(component := "daemon"); }
      record := record.(component := scrub(record.component), message := scrub(record.message),
        fields := SanitizeFields(record.fields, scrub));
      Append(record);
    }

    method Find(q: Query) returns (page: Page)
      requires Valid()
      ensures page == PageOf(View().records, q, scrub)
    {
      hide Selected;
      hide SanitizeAll;
      hide Sanitize;
      hide PageOf;
      hide Matches;
      hide Consecutive;
      var limit := q.limit;
      if limit <= 0 { limit := DEFAULT_PAGE_SIZE; }
      if limit > MAXIMUM_PAGE_SIZE { limit := MAXIMUM_PAGE_SIZE; }
      var level, component := ToUpper(TrimSpace(q.level)), ToLower(TrimSpace(q.component));
      ghost var rs, found: seq<Record> := data[..length], [];
      SelectedNone(rs, q);
      page := Page([], 0, false);
      var index := length;
      while index > 0
        invariant 0 <= index <= length && found == Selected(rs[index..], q)
        invariant page == Page(SanitizeAll(found, scrub), 0, false) && |found| <= limit
      {
        index := index - 1;
        var record := data[index];
        SelectedNext(rs, index, q);
        MatchesTested(record, q);
        if q.cursor > 0 && record.id >= q.cursor { continue; }
        if q.since.Some? && record.timestamp < q.since.value { continue; }
        if level != "" && record.level != level { continue; }
        if component != "" && ToLower(record.component) != component { continue; }
        if |page.records| == limit {
          MorePages(rs, index, q, found, scrub);
          return page.(hasMore := true, nextCursor := page.records[|page.records| - 1].id);
        }
        SanitizeNext(found, record, scrub);
        found := found + [record];
        page := page.(records := page.records + [Sanitize(record, scrub)]);
      }
      assert rs[0..] == rs;
      LastPage(rs, q, scrub);
    }
  }

  lemma SelectedNone(rs: seq<Record>, q: Query)
    ensures Selected(rs[|rs|..], q) == []
  {
  }

  lemma MatchesTested(r: Record, q: Query)
    ensures Matches(r, q) <==>
            && !(q.cursor > 0 && r.id >= q.cursor) && !(q.since.Some? && r.timestamp < q.since.value)
            && !(ToUpper(TrimSpace(q.level)) != "" && r.level != ToUpper(TrimSpace(q.level)))
            && !(ToLower(TrimSpace(q.component)) != "" && ToLower(r.component) != ToLower(TrimSpace(q.component)))
  {
  }

  lemma SanitizeNext(rs: seq<Record>, r: Record, scrub: string -> string)
    ensures SanitizeAll(rs + [r], scrub) == SanitizeAll(rs, scrub) + [Sanitize(r, scrub)]
  {
  }

  lemma LastPage(rs: seq<Record>, q: Query, scrub: string -> string)
    requires |Selected(rs, q)| <= EffectiveLimit(q.limit)
    ensures PageOf(rs, q, scrub) == Page(SanitizeAll(Selected(rs, q), scrub), 0, false)
  {
  }

  /** A match beyond a full page decides that there are more. */
  lemma MorePages(rs: seq<Record>, index: nat, q: Query, found: seq<Record>, scrub: string -> string)
    requires index < |rs| && Selected(rs[index..], q) == found + [rs[index]] && |found| == EffectiveLimit(q.limit)
    ensures PageOf(rs, q, scrub) == Page(SanitizeAll(found, scrub), SanitizeAll(found, scrub)[|found| - 1].id, true)
  {
    assert rs == rs[..index] + rs[index..];
    SelectedSplit(rs[..index], rs[index..], q);
    assert Selected(rs, q)[..|found|] == found;
  }

  /** Going one record further back appends it if it matches. */
  lemma SelectedNext(rs: seq<Record>, i: nat, q: Query)
    requires i < |rs|
    ensures Selected(rs[i..], q) == Selected(rs[i + 1..], q) + (if Matches(rs[i], q) then [rs[i]] else [])
  {
    assert rs[i..] == [rs[i]] + rs[i + 1..];
    SelectedSplit([rs[i]], rs[i + 1..], q);
    assert [rs[i]][..0] == [];
    assert Selected([rs[i]], q) == (if Matches(rs[i], q) then [rs[i]] else []) + Selected([], q);
  }

  lemma AddedConsecutive(s: Log, r: Record, capacity: nat)
    requires Consecutive(s) && |s.records| <= capacity
    ensures Consecutive(Added(s, r, capacity)) && |Added(s, r, capacity).records| <= capacity
  {
  }
}
