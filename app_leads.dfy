/**
 * The lead records of app.py and two pieces of logic over them: the priority
 * score `compute_score` and the filtered and ordered listing of `list_leads`
 * (the patch of `update_lead` is in module AppLeadUpdate).  The lead table is
 * the sequence of rows the database returns; timestamps are integers.
 */
module AppLeads {
  import opened Wrappers
  import opened PyStrings

  /** A row of the `Lead` table (the `LeadBase` columns plus id and timestamps). */
  datatype Lead = Lead(
    id: Option<int>,
    role: string,
    firstName: Option<string>,
    lastName: Option<string>,
    email: Option<string>,
    phone: Option<string>,
    address: Option<string>,
    zipCode: Option<string>,
    beds: Option<int>,
    baths: Option<real>,
    sqft: Option<int>,
    priceMin: Option<int>,
    priceMax: Option<int>,
    timeline: Option<string>,
    tags: Option<string>,
    stage: string,
    consentSms: bool,
    consentEmail: bool,
    score: int,
    createdAt: int,
    updatedAt: int
  )

  // ---------- compute_score ----------

  /** The pipeline-stage table; a stage outside it is worth nothing. */
  function StagePoints(stage: string): (p: int)
    ensures p in {0, 5, 10, 20, 30}
  {
    if stage == "New" then 0
    else if stage == "Contacted" then 5
    else if stage == "Qualified" then 10
    else if stage == "Appointment" then 20
    else if stage == "Agreement" then 30
    else if stage == "Closed/Lost" then 0
    else 0
  }

  predicate ShortTimeline(timeline: Option<string>) {
    timeline == Some("0-3") || timeline == Some("3-6")
  }

  /** The score as the sum of its independent contributions. */
  function Score(ld: Lead): (s: int)
    ensures 0 <= s <= 105
  {
    (if Truthy(ld.phone) then 15 else 0)
    + (if Truthy(ld.email) then 10 else 0)
    + (if ShortTimeline(ld.timeline) then 15 else 0)
    + (if ld.role == "seller" && Truthy(ld.address) then 20 else 0)
    + (if ld.consentSms then 10 else 0)
    + (if ld.consentEmail then 5 else 0)
    + StagePoints(ld.stage)
  }

  /** `compute_score`: the running total `s`, one contribution at a time. */
  method ComputeScore(ld: Lead) returns (s: int)
    ensures s == Score(ld)
    ensures 0 <= s <= 105
  {
    s := 0;
    if Truthy(ld.phone) { s := s + 15; }
    if Truthy(ld.email) { s := s + 10; }
    if ShortTimeline(ld.timeline) { s := s + 15; }
    if ld.role == "seller" && Truthy(ld.address) { s := s + 20; }
    if ld.consentSms { s := s + 10; }
    if ld.consentEmail { s := s + 5; }
    s := s + StagePoints(ld.stage);
  }

  /** The fields the score reads agree. */
  predicate SameScoredFields(a: Lead, b: Lead) {
    a.phone == b.phone && a.email == b.email && a.timeline == b.timeline &&
    a.role == b.role && a.address == b.address &&
    a.consentSms == b.consentSms && a.consentEmail == b.consentEmail && a.stage == b.stage
  }

  /** The score depends on no field but the eight `SameScoredFields` compares. */
  lemma ScoreDependsOnlyOnScoredFields(a: Lead, b: Lead)
    requires SameScoredFields(a, b)
    ensures Score(a) == Score(b)
  {
  }

  /** Moving a lead along the pipeline strictly raises its score. */
  lemma StageOrder(ld: Lead)
    ensures Score(ld.(stage := "New")) < Score(ld.(stage := "Contacted"))
    ensures Score(ld.(stage := "Contacted")) < Score(ld.(stage := "Qualified"))
    ensures Score(ld.(stage := "Qualified")) < Score(ld.(stage := "Appointment"))
    ensures Score(ld.(stage := "Appointment")) < Score(ld.(stage := "Agreement"))
    ensures Score(ld.(stage := "Closed/Lost")) == Score(ld.(stage := "New"))
  {
  }

  /** A stage the table does not name scores like "New". */
  lemma UnknownStage(ld: Lead)
    requires ld.stage !in {"New", "Contacted", "Qualified", "Appointment", "Agreement", "Closed/Lost"}
    ensures Score(ld) == Score(ld.(stage := "New"))
  {
  }

  /** The bound 105 is reached: a seller with every signal at the "Agreement" stage. */
  lemma BestLead(ld: Lead)
    requires Truthy(ld.phone) && Truthy(ld.email) && ld.timeline == Some("0-3")
    requires ld.role == "seller" && Truthy(ld.address)
    requires ld.consentSms && ld.consentEmail && ld.stage == "Agreement"
    ensures Score(ld) == 105
  {
  }

  // ---------- list_leads ----------

  /** The nine texts the search looks in, a missing field as the empty string. */
  function SearchFields(ld: Lead): seq<string> {
    [OrEmpty(ld.firstName), OrEmpty(ld.lastName), OrEmpty(ld.email),
     OrEmpty(ld.phone), OrEmpty(ld.address), OrEmpty(ld.zipCode),
     OrEmpty(ld.tags), ld.role, ld.stage]
  }

  /** The lower-cased text the search looks in: the nine fields joined by spaces. */
  function SearchBlob(ld: Lead): string {
    Lower(Join(" ", SearchFields(ld)))
  }

  /** `if role and ld.role != role: continue` does not skip the lead. */
  predicate RolePasses(ld: Lead, role: Option<string>) {
    !Truthy(role) || ld.role == role.value
  }

  /** `if stage and ld.stage != stage: continue` does not skip the lead. */
  predicate StagePasses(ld: Lead, stage: Option<string>) {
    !Truthy(stage) || ld.stage == stage.value
  }

  /** `if q: ... if q.lower() not in blob: continue` does not skip the lead. */
  predicate QueryPasses(ld: Lead, q: Option<string>) {
    !Truthy(q) || Contains(SearchBlob(ld), Lower(q.value))
  }

  /** A query found, ignoring case, inside any one searched field passes the search filter. */
  lemma SearchFindsField(ld: Lead, q: Option<string>, i: int)
    requires Truthy(q) && 0 <= i < 9
    requires Contains(Lower(SearchFields(ld)[i]), Lower(q.value))
    ensures QueryPasses(ld, q)
  {
    var parts := SearchFields(ld);
    var pre, post := JoinSplit(" ", parts, i);
    LowerAppend(pre, parts[i]);
    LowerAppend(pre + parts[i], post);
    ContainsInMiddle(Lower(pre), Lower(parts[i]), Lower(post), Lower(q.value));
  }

  /** Absent or empty filters let every lead through. */
  lemma NoFilterPassesAll(ld: Lead, q: Option<string>, role: Option<string>, stage: Option<string>)
    requires !Truthy(q) && !Truthy(role) && !Truthy(stage)
    ensures Matches(ld, q, role, stage)
  {
  }

  /** The three filters; an absent or empty filter lets every lead through. */
  predicate Matches(ld: Lead, q: Option<string>, role: Option<string>, stage: Option<string>) {
    RolePasses(ld, role) && StagePasses(ld, stage) && QueryPasses(ld, q)
  }

  /** The matching rows in table order (the list `out` before sorting). */
  function Selected(rows: seq<Lead>, q: Option<string>, role: Option<string>,
                    stage: Option<string>): (out: seq<Lead>)
    ensures forall x :: x in out <==> x in rows && Matches(x, q, role, stage)
    ensures forall x :: multiset(out)[x] == if Matches(x, q, role, stage) then multiset(rows)[x] else 0
    ensures |out| <= |rows|
    decreases |rows|
  {
    if rows == [] then []
    else
      var init := Selected(rows[..|rows| - 1], q, role, stage);
      var last := rows[|rows| - 1];
      assert rows == rows[..|rows| - 1] + [last];
      if Matches(last, q, role, stage) then init + [last] else init
  }

  lemma SelectedNext(rows: seq<Lead>, i: int, q: Option<string>, role: Option<string>, stage: Option<string>)
    requires 0 <= i < |rows|
    ensures Matches(rows[i], q, role, stage) ==>
              Selected(rows[..i + 1], q, role, stage) == Selected(rows[..i], q, role, stage) + [rows[i]]
    ensures !Matches(rows[i], q, role, stage) ==>
              Selected(rows[..i + 1], q, role, stage) == Selected(rows[..i], q, role, stage)
  {
    assert rows[..i + 1][..i] == rows[..i];
  }

  /** The sort key `(score, created_at)`. */
  function Key(ld: Lead): (int, int) {
    (ld.score, ld.createdAt)
  }

  /** `a`'s key is at least `b`'s, comparing as Python compares tuples. */
  predicate KeyAtLeast(a: Lead, b: Lead) {
    a.score > b.score || (a.score == b.score && a.createdAt >= b.createdAt)
  }

  predicate SortedDesc(s: seq<Lead>) {
    forall i, j :: 0 <= i < j < |s| ==> KeyAtLeast(s[i], s[j])
  }

  /** The subsequence of the leads whose key is `k`. */
  function WithKey(s: seq<Lead>, k: (int, int)): seq<Lead> {
    if s == [] then [] else (if Key(s[0]) == k then [s[0]] else []) + WithKey(s[1..], k)
  }

  /** Places `x` before the first lead whose key is not above `x`'s. */
  function Insert(x: Lead, t: seq<Lead>): (r: seq<Lead>)
    ensures multiset(r) == multiset(t) + multiset{x}
    ensures SortedDesc(t) ==> SortedDesc(r)
  {
    if t == [] || KeyAtLeast(x, t[0]) then
      HeadBoundsAll(x, t);
      SortedCons(x, t);
      [x] + t
    else
      var rest := Insert(x, t[1..]);
      assert t == [t[0]] + t[1..];
      forall y | y in rest ensures y in t[1..] || y == x {
        assert y in multiset(rest);
      }
      HeadBoundsRest(x, t, rest);
      SortedCons(t[0], rest);
      [t[0]] + rest
  }

  /** A lead at least the head of a sorted list is at least every lead in it. */
  lemma HeadBoundsAll(x: Lead, t: seq<Lead>)
    ensures SortedDesc(t) && (t == [] || KeyAtLeast(x, t[0])) ==> forall y :: y in t ==> KeyAtLeast(x, y)
  {
    if SortedDesc(t) && t != [] && KeyAtLeast(x, t[0]) {
      forall y | y in t ensures KeyAtLeast(x, y) {
        var j :| 0 <= j < |t| && t[j] == y;
        if j > 0 {
          assert KeyAtLeast(t[0], t[j]);
        }
      }
    }
  }

  /** The head of a sorted list bounds its tail and any lead placed below the head. */
  lemma HeadBoundsRest(x: Lead, t: seq<Lead>, rest: seq<Lead>)
    requires t != [] && !KeyAtLeast(x, t[0])
    requires forall y :: y in rest ==> y in t[1..] || y == x
    ensures SortedDesc(t) ==> SortedDesc(t[1..]) && forall y :: y in rest ==> KeyAtLeast(t[0], y)
  {
    if SortedDesc(t) {
      forall y | y in rest ensures KeyAtLeast(t[0], y) {
        if y in t[1..] {
          var j :| 0 <= j < |t[1..]| && t[1..][j] == y;
          assert t[j + 1] == y;
        }
      }
      forall i, j | 0 <= i < j < |t[1..]| ensures KeyAtLeast(t[1..][i], t[1..][j]) {
        assert t[1..][i] == t[i + 1] && t[1..][j] == t[j + 1];
      }
    }
  }

  /** Prepending a lead whose key is at least every key of a sorted list keeps it sorted. */
  lemma SortedCons(x: Lead, t: seq<Lead>)
    ensures SortedDesc(t) && (forall y :: y in t ==> KeyAtLeast(x, y)) ==> SortedDesc([x] + t)
  {
    if SortedDesc(t) && (forall y :: y in t ==> KeyAtLeast(x, y)) {
      SortedConsAt(x, t);
    }
  }

  lemma SortedConsAt(x: Lead, t: seq<Lead>)
    requires SortedDesc(t)
    requires forall y :: y in t ==> KeyAtLeast(x, y)
    ensures SortedDesc([x] + t)
  {
    forall i, j | 0 <= i < j < |[x] + t| ensures KeyAtLeast(([x] + t)[i], ([x] + t)[j]) {
      if i > 0 {
        assert ([x] + t)[i] == t[i - 1];
      }
      assert ([x] + t)[j] == t[j - 1];
    }
  }

  /** What `out.sort(key=..., reverse=True)` leaves: a stable descending sort. */
  function SortDesc(s: seq<Lead>): (r: seq<Lead>)
    ensures multiset(r) == multiset(s)
    ensures SortedDesc(r)
  {
    if s == [] then []
    else
      assert s == [s[0]] + s[1..];
      Insert(s[0], SortDesc(s[1..]))
  }

  lemma WithKeyCons(a: Lead, r: seq<Lead>, k: (int, int))
    ensures WithKey([a] + r, k) == (if Key(a) == k then [a] else []) + WithKey(r, k)
  {
    assert ([a] + r)[1..] == r;
  }

  lemma {:induction false} InsertWithKey(x: Lead, t: seq<Lead>, k: (int, int))
    ensures WithKey(Insert(x, t), k) == (if Key(x) == k then [x] else []) + WithKey(t, k)
  {
    if t == [] || KeyAtLeast(x, t[0]) {
      WithKeyCons(x, t, k);
    } else {
      InsertWithKey(x, t[1..], k);
      WithKeyCons(t[0], Insert(x, t[1..]), k);
      WithKeyCons(t[0], t[1..], k);
      assert t == [t[0]] + t[1..];
    }
  }

  /** Leads with equal keys keep their relative order: the sort is stable. */
  lemma {:induction false} SortStable(s: seq<Lead>, k: (int, int))
    ensures WithKey(SortDesc(s), k) == WithKey(s, k)
  {
    if s != [] {
      SortStable(s[1..], k);
      InsertWithKey(s[0], SortDesc(s[1..]), k);
    }
  }

  lemma {:induction false} WithKeyAppend(a: seq<Lead>, b: seq<Lead>, k: (int, int))
    ensures WithKey(a + b, k) == WithKey(a, k) + WithKey(b, k)
    decreases |a|
  {
    if a != [] {
      WithKeyAppend(a[1..], b, k);
      assert (a + b)[1..] == a[1..] + b;
    } else {
      assert a + b == b;
    }
  }

  lemma WithKeySingle(x: Lead, k: (int, int))
    ensures WithKey([x], k) == if Key(x) == k then [x] else []
  {
    assert [x][1..] == [];
  }

  lemma SelectedSnoc(init: seq<Lead>, last: Lead, q: Option<string>, role: Option<string>, stage: Option<string>)
    ensures Selected(init + [last], q, role, stage)
         == Selected(init, q, role, stage) + (if Matches(last, q, role, stage) then [last] else [])
  {
    var rows := init + [last];
    assert rows[..|rows| - 1] == init;
    assert rows[|rows| - 1] == last;
  }

  /**
   * Filtering commutes with picking out one key: the matching leads with key
   * `k` are the leads with key `k` that match, in table order.
   */
  lemma {:induction false} SelectedWithKey(rows: seq<Lead>, q: Option<string>, role: Option<string>,
                                           stage: Option<string>, k: (int, int))
    ensures WithKey(Selected(rows, q, role, stage), k) == Selected(WithKey(rows, k), q, role, stage)
    decreases |rows|
  {
    if rows != [] {
      var n := |rows| - 1;
      var init, last := rows[..n], rows[n];
      assert rows == init + [last];
      SelectedWithKey(init, q, role, stage, k);
      SelectedSnoc(init, last, q, role, stage);
      var kept := if Matches(last, q, role, stage) then [last] else [];
      WithKeyAppend(Selected(init, q, role, stage), kept, k);
      WithKeyAppend(init, [last], k);
      WithKeySingle(last, k);
      assert kept == [] ==> WithKey(kept, k) == [];
      if Key(last) == k {
        SelectedSnoc(WithKey(init, k), last, q, role, stage);
      } else {
        assert WithKey(init, k) + [] == WithKey(init, k);
      }
    }
  }

  /** Everything the listing needs from the sort, in one place. */
  lemma SortDescSpec(s: seq<Lead>)
    ensures forall x :: x in SortDesc(s) <==> x in s
    ensures multiset(SortDesc(s)) == multiset(s)
    ensures SortedDesc(SortDesc(s))
    ensures forall k :: WithKey(SortDesc(s), k) == WithKey(s, k)
  {
    var r := SortDesc(s);
    forall x ensures x in r <==> x in s {
      assert x in r <==> x in multiset(r);
      assert x in s <==> x in multiset(s);
    }
    forall k ensures WithKey(r, k) == WithKey(s, k) {
      SortStable(s, k);
    }
  }

  /** The filtering loop of `list_leads`: each row is tested against role, stage and query in turn. */
  method FilterRows(rows: seq<Lead>, q: Option<string>, role: Option<string>, stage: Option<string>)
    returns (out: seq<Lead>)
    ensures out == Selected(rows, q, role, stage)
  {
    out := [];
    for i := 0 to |rows|
      invariant out == Selected(rows[..i], q, role, stage)
    {
      var ld := rows[i];
      SelectedNext(rows, i, q, role, stage);
      if !RolePasses(ld, role) { continue; }
      if !StagePasses(ld, stage) { continue; }
      if !QueryPasses(ld, q) { continue; }
      out := out + [ld];
    }
    assert rows[..|rows|] == rows;
  }

  /**
   * `list_leads`: the rows passing the role, stage and search filters, highest
   * score first, later creation first among equal scores, and in table order
   * among equal keys.
   */
  method ListLeads(rows: seq<Lead>, q: Option<string>, role: Option<string>, stage: Option<string>)
    returns (items: seq<Lead>)
    ensures forall x :: x in items <==> x in rows && Matches(x, q, role, stage)
    ensures multiset(items) == multiset(Selected(rows, q, role, stage))
    ensures SortedDesc(items)
    ensures forall k :: WithKey(items, k) == WithKey(Selected(rows, q, role, stage), k)
    ensures forall k :: WithKey(items, k) == Selected(WithKey(rows, k), q, role, stage)
  {
    var out := FilterRows(rows, q, role, stage);
    items := SortDesc(out);
    SortDescSpec(out);
    forall k ensures WithKey(items, k) == Selected(WithKey(rows, k), q, role, stage) {
      SelectedWithKey(rows, q, role, stage, k);
    }
  }
}
