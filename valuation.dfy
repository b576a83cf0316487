/**
 * valuation.py: the ZIP rate table loaded from the comps CSV, and the same
 * estimator as app.py written as a chain of updates to a local factor.
 *
 * The CSV reader hands over rows as optional cells (`None` for a column the
 * file lacks or a row too short to fill it).  Python's `float` on the price
 * text is foreign code and enters as the parameter `parse`: `None` where
 * `float` raises, `Some(v)` where it returns the finite value `v`.
 */
module Valuation {
  import opened Wrappers
  import PyStrings
  import AppValuation

  const DEFAULT_PPSF: real := 220.0

  /** One `csv.DictReader` row, reduced to the two columns the loader reads. */
  datatype CsvRow = CsvRow(zip: Option<string>, pricePerSqft: Option<string>)

  /**
   * `float(row.get("price_per_sqft", "0") or 0)`: a missing or empty cell is
   * 0, any other text is whatever `float` makes of it.
   */
  function PriceOf(row: CsvRow, parse: string -> Option<real>): (p: Option<real>)
    ensures row.pricePerSqft.None? || row.pricePerSqft == Some("") ==> p == Some(0.0)
    ensures PyStrings.Truthy(row.pricePerSqft) ==> p == parse(row.pricePerSqft.value)
  {
    if PyStrings.Truthy(row.pricePerSqft) then parse(row.pricePerSqft.value) else Some(0.0)
  }

  /** The row writes `data[z]`: its price parses and its ZIP is neither missing nor empty. */
  predicate Stores(row: CsvRow, zip: string, parse: string -> Option<real>) {
    PriceOf(row, parse).Some? && row.zip == Some(zip) && zip != ""
  }

  /** One iteration of the loader's loop: at most the row's own ZIP is written, every other entry stays. */
  function LoadStep(data: map<string, real>, row: CsvRow, parse: string -> Option<real>): (r: map<string, real>)
    ensures data.Keys <= r.Keys
    ensures forall z :: z in r && z !in data ==> Stores(row, z, parse)
    ensures forall z :: z in data && !Stores(row, z, parse) ==> r[z] == data[z]
    ensures forall z :: Stores(row, z, parse) ==> z in r && r[z] == PriceOf(row, parse).value
    ensures |r| <= |data| + 1
  {
    match PriceOf(row, parse)
    case None => data
    case Some(p) => if PyStrings.Truthy(row.zip) then data[row.zip.value := p] else data
  }

  /** The table after the loop has run over `rows`, as a fold from the left. */
  function Loaded(rows: seq<CsvRow>, parse: string -> Option<real>): (r: map<string, real>)
    ensures |r| <= |rows|
    decreases |rows|
  {
    if rows == [] then map[]
    else LoadStep(Loaded(rows[..|rows| - 1], parse), rows[|rows| - 1], parse)
  }

  /** The index of the last row that writes `zip`, if one does. */
  predicate LastStore(rows: seq<CsvRow>, zip: string, parse: string -> Option<real>, j: int) {
    0 <= j < |rows| && Stores(rows[j], zip, parse) &&
    forall k :: j < k < |rows| ==> !Stores(rows[k], zip, parse)
  }

  /**
   * A ZIP is a key of the loaded table exactly when some row writes it, and
   * it holds the price of the last row that does.
   */
  lemma {:induction false} LoadedKeys(rows: seq<CsvRow>, parse: string -> Option<real>, zip: string)
    ensures zip in Loaded(rows, parse) <==> exists j :: 0 <= j < |rows| && Stores(rows[j], zip, parse)
    decreases |rows|
  {
    if rows != [] {
      var init := rows[..|rows| - 1];
      LoadedKeys(init, parse, zip);
      if exists j :: 0 <= j < |init| && Stores(init[j], zip, parse) {
        var j :| 0 <= j < |init| && Stores(init[j], zip, parse);
        assert Stores(rows[j], zip, parse);
      }
      if exists j :: 0 <= j < |rows| && Stores(rows[j], zip, parse) {
        var j :| 0 <= j < |rows| && Stores(rows[j], zip, parse);
        if j < |init| {
          assert Stores(init[j], zip, parse);
        }
      }
    }
  }

  lemma {:induction false} LastRowWins(rows: seq<CsvRow>, parse: string -> Option<real>, zip: string, j: int)
    requires LastStore(rows, zip, parse, j)
    ensures zip in Loaded(rows, parse)
    ensures Loaded(rows, parse)[zip] == PriceOf(rows[j], parse).value
    decreases |rows|
  {
    var init := rows[..|rows| - 1];
    if j < |rows| - 1 {
      assert LastStore(init, zip, parse, j);
      LastRowWins(init, parse, zip, j);
    }
  }

  /** The loader never stores the empty ZIP. */
  lemma {:induction false} NoEmptyKey(rows: seq<CsvRow>, parse: string -> Option<real>)
    ensures "" !in Loaded(rows, parse)
    decreases |rows|
  {
    if rows != [] {
      NoEmptyKey(rows[..|rows| - 1], parse);
    }
  }

  /** A row the loader skips leaves the whole rest of the load as if it were absent. */
  lemma {:induction false} SkippedRowIsInvisible(pre: seq<CsvRow>, row: CsvRow, post: seq<CsvRow>,
                                                 parse: string -> Option<real>)
    requires PriceOf(row, parse).None? || !PyStrings.Truthy(row.zip)
    ensures Loaded(pre + [row] + post, parse) == Loaded(pre + post, parse)
    decreases |post|
  {
    if post == [] {
      assert pre + [row] + post == pre + [row];
      assert (pre + [row])[..|pre + [row]| - 1] == pre;
      assert pre + post == pre;
    } else {
      var last := post[|post| - 1];
      var front := post[..|post| - 1];
      SkippedRowIsInvisible(pre, row, front, parse);
      assert (pre + [row] + post)[..|pre + [row] + post| - 1] == pre + [row] + front;
      assert (pre + post)[..|pre + post| - 1] == pre + front;
      assert (pre + [row] + post)[|pre + [row] + post| - 1] == last;
      assert (pre + post)[|pre + post| - 1] == last;
    }
  }

  /** A row with a ZIP and an empty price cell records a price of 0. */
  lemma EmptyPriceIsZero(rows: seq<CsvRow>, zip: string, parse: string -> Option<real>)
    requires zip != ""
    ensures Loaded(rows + [CsvRow(Some(zip), Some(""))], parse)[zip] == 0.0
  {
    assert (rows + [CsvRow(Some(zip), Some(""))])[..|rows|] == rows;
  }

  /**
   * `load_zip_ppsqft`: `comps` is the file's rows, `None` when the file does
   * not exist.
   */
  method LoadZipPpsqft(comps: Option<seq<CsvRow>>, parse: string -> Option<real>)
    returns (data: map<string, real>)
    ensures comps.None? ==> data == map[]
    ensures comps.Some? ==> data == Loaded(comps.value, parse)
    ensures "" !in data
  {
    data := map[];
    if comps.Some? {
      var rows := comps.value;
      var i := 0;
      while i < |rows|
        invariant 0 <= i <= |rows|
        invariant data == Loaded(rows[..i], parse)
      {
        var row := rows[i];
        var z := row.zip;
        var ppsf := PriceOf(row, parse);
        if ppsf.Some? {
          if PyStrings.Truthy(z) {
            data := data[z.value := ppsf.value];
          }
        }
        assert rows[..i + 1][..i] == rows[..i];
        i := i + 1;
      }
      assert rows[..i] == rows;
      NoEmptyKey(rows, parse);
    }
  }

  /**
   * The first part of valuation.py's `estimate_value`: the rate looked up, the
   * clamped size and the factor built by the `if beds:` and `if baths:` chains.
   */
  method Inputs(table: map<string, real>, zip: Option<string>, beds: Option<int>,
                baths: Option<real>, sqft: Option<int>)
    returns (ppsf: real, s: int, adj: int)
    ensures ppsf == AppValuation.PpsfFor(table, zip)
    ensures s == AppValuation.SqftUsed(sqft)
    ensures adj == AppValuation.Adjustment(beds, baths)
  {
    var key := if zip.Some? then zip.value else "";
    ppsf := if key in table then table[key] else DEFAULT_PPSF;
    s := if sqft.Some? && sqft.value != 0 then sqft.value else 1800;
    s := if 600 >= s then 600 else s;
    adj := 100;
    if beds.Some? && beds.value != 0 {
      if beds.value >= 5 {
        adj := adj + 8;
      } else if beds.value == 4 {
        adj := adj + 5;
      } else if beds.value == 3 {
        adj := adj + 2;
      }
    }
    assert adj == 100 + AppValuation.BedsIncrement(beds);
    if baths.Some? && baths.value != 0.0 {
      if baths.value >= 3.0 {
        adj := adj + 5;
      } else if baths.value >= 2.0 {
        adj := adj + 3;
      }
    }
  }

  /**
   * valuation.py's `estimate_value` over the loaded table: the same result as
   * app.py's formula given the same table.
   */
  method EstimateValue(table: map<string, real>, zip: Option<string>, beds: Option<int>,
                       baths: Option<real>, sqft: Option<int>)
    returns (v: AppValuation.Valuation)
    ensures v == AppValuation.EstimateFrom(table, zip, beds, baths, sqft)
    ensures "" !in table ==> v.ppsfUsed == (if zip.Some? && zip.value in table then table[zip.value] else DEFAULT_PPSF)
    ensures v.sqftUsed >= 600
    ensures v.estimate >= 0 ==> v.low <= v.estimate <= v.high
  {
    var ppsf, s, adj := Inputs(table, zip, beds, baths, sqft);
    v := AppValuation.Priced(ppsf, s, adj);
    if "" !in table {
      AppValuation.PpsfLookup(table, zip);
    }
  }

  /** Over a loaded table, an unknown or missing ZIP is priced at 220. */
  lemma LoadedFallback(rows: seq<CsvRow>, parse: string -> Option<real>, zip: Option<string>,
                       beds: Option<int>, baths: Option<real>, sqft: Option<int>)
    ensures var table := Loaded(rows, parse);
            AppValuation.EstimateFrom(table, zip, beds, baths, sqft).ppsfUsed
              == if zip.Some? && zip.value in table then table[zip.value] else DEFAULT_PPSF
  {
    NoEmptyKey(rows, parse);
  }
}
