/**
 * admin_gui.py: the admin header map sent with every request, and the
 * "Validate JSON" check of the bulk ZIP-rate import, which counts the rows an
 * import would accept.
 *
 * The pasted text arrives already decoded into a list; each element is either
 * an object, reduced to what `str(it.get("zip", ""))` and
 * `float(it.get("ppsf", 0))` make of it, or something without `.get`.
 */
module AdminGui {
  import opened Wrappers
  import opened PyStrings

  const ADMIN_HEADER: string := "X-Admin-Key"

  /** `api_headers(admin)`, with the session's stored key as `adminKey`. */
  method ApiHeaders(admin: bool, adminKey: string) returns (h: map<string, string>)
    ensures ADMIN_HEADER in h <==> admin && adminKey != ""
    ensures ADMIN_HEADER in h ==> h[ADMIN_HEADER] == adminKey
    ensures h.Keys <= {ADMIN_HEADER}
  {
    h := map[];
    if admin && adminKey != "" {
      h := h[ADMIN_HEADER := adminKey];
    }
  }

  /** A Python float: a finite value, an infinity (`float("inf")`, JSON `Infinity`), or NaN. */
  datatype PyFloat = Finite(value: real) | PosInfinity | NegInfinity | NaN

  /** `p > 0` on a Python float; NaN compares false with everything. */
  predicate IsPositive(p: PyFloat) {
    match p
    case Finite(v) => v > 0.0
    case PosInfinity => true
    case NegInfinity => false
    case NaN => false
  }

  /** `it.get("ppsf", 0)` passed to `float`: absent, converted, or raising. */
  datatype PpsfField = Absent | Converted(value: PyFloat) | NotNumeric

  /** One element of the decoded JSON list. */
  datatype Item =
    | Entry(zip: Option<string>, ppsf: PpsfField)  // `zip` is the text `str()` gives, `None` when the key is missing
    | NotAnObject

  /** Why the check reports "Invalid JSON", with the index of the element that raised. */
  datatype ValidationError = NoGet(index: nat) | BadPpsf(index: nat)

  /** Evaluating the element raises. */
  predicate Raises(it: Item) {
    it.NotAnObject? || it.ppsf.NotNumeric?
  }

  /** `float(it.get("ppsf", 0))`: a missing key gives 0, a value `float` rejects raises. */
  function Rate(ppsf: PpsfField): (p: Option<PyFloat>)
    ensures ppsf.Absent? ==> p == Some(Finite(0.0))
    ensures ppsf.Converted? ==> p == Some(ppsf.value)
    ensures p.None? <==> ppsf.NotNumeric?
  {
    match ppsf
    case Absent => Some(Finite(0.0))
    case Converted(v) => Some(v)
    case NotNumeric => None
  }

  /** `len(z) == 5 and z.isdigit()`. */
  predicate FiveDigits(z: string) {
    |z| == 5 && IsDigits(z)
  }

  /** `len(z) == 5 and z.isdigit() and p > 0`, with `z = str(it.get("zip", "")).strip()`. */
  predicate Counted(it: Item): (b: bool)
    ensures b ==> it.Entry? && !Raises(it) && it.ppsf.Converted?
  {
    match it
    case NotAnObject => false
    case Entry(zip, ppsf) =>
      FiveDigits(Strip(OrEmpty(zip))) && Rate(ppsf).Some? && IsPositive(Rate(ppsf).value)
  }

  /** How many elements of `s` satisfy `f`, adding them up from the front. */
  function CountWhere<T>(s: seq<T>, f: T -> bool): nat
    decreases |s|
  {
    if s == [] then 0
    else CountWhere(s[..|s| - 1], f) + (if f(s[|s| - 1]) then 1 else 0)
  }

  /** The positions of `s` whose element satisfies `f`. */
  function IndicesWhere<T>(s: seq<T>, f: T -> bool): set<int> {
    set k | 0 <= k < |s| && f(s[k])
  }

  /** The count is the number of satisfying positions, hence never above the length. */
  lemma {:induction false} CountIsCardinality<T>(s: seq<T>, f: T -> bool)
    ensures CountWhere(s, f) == |IndicesWhere(s, f)|
    ensures CountWhere(s, f) <= |s|
    decreases |s|
  {
    if s != [] {
      var n := |s| - 1;
      var init := s[..n];
      CountIsCardinality(init, f);
      var before := IndicesWhere(init, f);
      var extra: set<int> := if f(s[n]) then {n} else {};
      forall k ensures k in IndicesWhere(s, f) <==> k in before + extra {
        if 0 <= k < n {
          assert s[k] == init[k];
        }
      }
      assert IndicesWhere(s, f) == before + extra;
      assert n !in before;
    } else {
      assert IndicesWhere(s, f) == {};
    }
  }

  /** The number of items the check counts. */
  function CountValid(items: seq<Item>): (n: nat)
    ensures n == |IndicesWhere(items, Counted)|
    ensures n <= |items|
  {
    CountIsCardinality(items, Counted);
    CountWhere(items, Counted)
  }

  /** An item without a `ppsf` key counts as 0 and is never counted. */
  lemma MissingPpsfNeverCounted(zip: Option<string>)
    ensures !Counted(Entry(zip, Absent))
  {
  }

  /** Whitespace around the ZIP does not change whether an item is counted. */
  lemma PaddedZipCountsAlike(w1: string, zip: string, w2: string, ppsf: PpsfField)
    requires AllSpace(w1) && AllSpace(w2)
    ensures Counted(Entry(Some(w1 + zip + w2), ppsf)) == Counted(Entry(Some(zip), ppsf))
  {
    StripIgnoresPadding(w1, zip, w2);
  }

  /**
   * The "Validate JSON" handler: the number of items with a five-digit ZIP and
   * a positive rate, or the error raised by the first element that cannot be
   * read, in which case nothing is counted.
   */
  method ValidateItems(items: seq<Item>) returns (r: Result<nat, ValidationError>)
    ensures r.Ok? <==> forall k :: 0 <= k < |items| ==> !Raises(items[k])
    ensures r.Ok? ==> r.value == CountValid(items) && r.value <= |items|
    ensures r.Err? ==>
      var k := r.error.index;
      k < |items| && Raises(items[k]) && (forall j :: 0 <= j < k ==> !Raises(items[j])) &&
      (r.error.NoGet? <==> items[k].NotAnObject?)
  {
    var ok := 0;
    var i := 0;
    while i < |items|
      invariant 0 <= i <= |items|
      invariant ok == CountWhere(items[..i], Counted)
      invariant forall j :: 0 <= j < i ==> !Raises(items[j])
    {
      var it := items[i];
      assert items[..i + 1][..i] == items[..i];
      if it.NotAnObject? {
        return Err(NoGet(i));
      }
      var z := Strip(OrEmpty(it.zip));
      if it.ppsf.NotNumeric? {
        return Err(BadPpsf(i));
      }
      var p := if it.ppsf.Absent? then Finite(0.0) else it.ppsf.value;
      assert Rate(it.ppsf) == Some(p);
      if |z| == 5 && IsDigits(z) && IsPositive(p) {
        ok := ok + 1;
      }
      i := i + 1;
    }
    assert items[..i] == items;
    r := Ok(ok);
  }

  /** A list with one rate that is not a number is rejected as a whole. */
  lemma OneBadRateRejectsAll()
    ensures Raises(Entry(Some("20777"), NotNumeric))
    ensures !Raises(Entry(Some("1"), Converted(Finite(10.0))))
    ensures Counted(Entry(Some("20774"), Converted(Finite(300.0))))
    ensures !Counted(Entry(Some("1"), Converted(Finite(10.0))))
  {
    assert IsDigits("20774");
  }

  /**
   * Rates that are not finite: an infinite rate with a good ZIP is counted,
   * negative infinity and NaN never are, and none of them raises.
   */
  lemma NonFiniteRates(zip: Option<string>)
    ensures Counted(Entry(Some("20774"), Converted(PosInfinity)))
    ensures !Counted(Entry(zip, Converted(NegInfinity)))
    ensures !Counted(Entry(zip, Converted(NaN)))
    ensures !Raises(Entry(zip, Converted(NaN))) && !Raises(Entry(zip, Converted(PosInfinity)))
  {
    assert IsDigits("20774");
  }
}
