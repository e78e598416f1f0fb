/**
 `MapToCSV` of internal/writer/csv.go: the headers are the keys of all
 documents, each once, in the order Go's map iteration happens to yield
 them; each row lists, in header order, the document's values that are
 present and non-empty. Missing and empty cells are dropped, not padded.
 */
module Table {
  import opened Parser

  /** `CSVOutput`: the header line and one cell list per document. */
  datatype CsvOutput = CsvOutput(headers: seq<string>, data: seq<seq<string>>)

  /** Every key of every document. */
  function KeysOf(rows: seq<Document>): set<string> {
    if |rows| == 0 then {} else KeysOf(rows[..|rows| - 1]) + rows[|rows| - 1].Keys
  }

  /** A key is collected exactly when some document has it. */
  lemma {:induction false} KeysOfMeaning(rows: seq<Document>, k: string)
    ensures k in KeysOf(rows) <==> exists i :: 0 <= i < |rows| && k in rows[i]
    decreases |rows|
  {
    if |rows| > 0 {
      var front := rows[..|rows| - 1];
      KeysOfMeaning(front, k);
      if k in KeysOf(front) {
        var i :| 0 <= i < |front| && k in front[i];
        assert k in rows[i];
      }
      if exists i :: 0 <= i < |rows| && k in rows[i] {
        var i :| 0 <= i < |rows| && k in rows[i];
        if i < |front| {
          assert k in front[i];
        }
      }
    }
  }

  predicate NoDuplicates(s: seq<string>) {
    forall i, j :: 0 <= i < j < |s| ==> s[i] != s[j]
  }

  /** Go's `row[h]`: the value under `h`, or `""` when `h` is absent. */
  function Cell(row: Document, h: string): string {
    if h in row then row[h] else ""
  }

  /** The non-empty values of `row` under `headers`, in header order. */
  function Cells(row: Document, headers: seq<string>): (r: seq<string>)
    ensures |r| <= |headers|
    ensures forall c :: c in r ==> c != ""
  {
    if |headers| == 0 then []
    else
      var rest := Cells(row, headers[..|headers| - 1]);
      var c := Cell(row, headers[|headers| - 1]);
      if c != "" then rest + [c] else rest
  }

  /** Cells of a header list split in two are the cells of each part, in order. */
  lemma {:induction false} CellsAppend(row: Document, a: seq<string>, b: seq<string>)
    ensures Cells(row, a + b) == Cells(row, a) + Cells(row, b)
    decreases |b|
  {
    if |b| > 0 {
      var b' := b[..|b| - 1];
      assert (a + b)[..|a + b| - 1] == a + b';
      assert (a + b)[|a + b| - 1] == b[|b| - 1];
      CellsAppend(row, a, b');
    } else {
      assert a + b == a;
    }
  }

  /** A single header contributes its value exactly when that value is present and non-empty. */
  lemma CellsSingle(row: Document, h: string)
    ensures Cells(row, [h]) == if h in row && row[h] != "" then [row[h]] else []
  {
    assert [h][..0] == [];
  }

  /** When every header has a non-empty value, nothing is dropped and cell `i` belongs to header `i`. */
  lemma {:induction false} CellsAligned(row: Document, headers: seq<string>)
    requires forall h :: h in headers ==> h in row && row[h] != ""
    ensures |Cells(row, headers)| == |headers|
    ensures forall i :: 0 <= i < |headers| ==> Cells(row, headers)[i] == row[headers[i]]
    decreases |headers|
  {
    if |headers| > 0 {
      var front := headers[..|headers| - 1];
      assert forall h :: h in front ==> h in headers;
      CellsAligned(row, front);
    }
  }

  /**
   A header whose value is absent or empty contributes nothing: the row's cells
   are those of the header list without it, so every later value moves one
   column to the left of its header.
   */
  lemma CellsSkipAbsent(row: Document, headers: seq<string>, i: nat)
    requires i < |headers| && Cell(row, headers[i]) == ""
    ensures Cells(row, headers) == Cells(row, headers[..i] + headers[i + 1..])
  {
    assert headers == headers[..i] + [headers[i]] + headers[i + 1..];
    CellsAppend(row, headers[..i] + [headers[i]], headers[i + 1..]);
    CellsAppend(row, headers[..i], [headers[i]]);
    CellsSingle(row, headers[i]);
    assert Cells(row, headers[..i]) + [] == Cells(row, headers[..i]);
    CellsAppend(row, headers[..i], headers[i + 1..]);
  }

  /** For example, with headers `a, b` and `a` missing, `b`'s value lands in column 0. */
  lemma CellsShiftLeft()
    ensures Cells(map["a" := "1", "b" := "2"], ["a", "b"]) == ["1", "2"]
    ensures Cells(map["b" := "2"], ["a", "b"]) == ["2"]
  {
    CellsAppend(map["a" := "1", "b" := "2"], ["a"], ["b"]);
    CellsAppend(map["b" := "2"], ["a"], ["b"]);
    CellsSingle(map["a" := "1", "b" := "2"], "a");
    CellsSingle(map["a" := "1", "b" := "2"], "b");
    CellsSingle(map["b" := "2"], "a");
    CellsSingle(map["b" := "2"], "b");
    assert ["a"] + ["b"] == ["a", "b"];
  }

  /**
   `MapToCSV`. The header order is whichever order the key set is enumerated in
   (Go's `MapKeys` leaves it unspecified); `Enumerate` picks the next header with
   `:|`, so this contract holds for every order.
   */
  method MapToCSV(rows: seq<Document>) returns (o: CsvOutput)
    ensures NoDuplicates(o.headers)
    ensures forall h :: h in o.headers <==> exists i :: 0 <= i < |rows| && h in rows[i]
    ensures |o.data| == |rows|
    ensures forall i :: 0 <= i < |rows| ==> o.data[i] == Cells(rows[i], o.headers)
  {
    var keys := CollectKeys(rows);
    var headers := Enumerate(keys);
    var data := BuildRows(rows, headers);
    forall h
      ensures h in headers <==> exists i :: 0 <= i < |rows| && h in rows[i]
    {
      KeysOfMeaning(rows, h);
    }
    o := CsvOutput(headers, data);
  }

  /** The key set (`headersMap`), one document at a time. */
  method CollectKeys(rows: seq<Document>) returns (keys: set<string>)
    ensures keys == KeysOf(rows)
  {
    keys := {};
    var n := 0;
    while n < |rows|
      invariant 0 <= n <= |rows|
      invariant keys == KeysOf(rows[..n])
    {
      assert rows[..n + 1][..n] == rows[..n];
      keys := keys + rows[n].Keys;
      n := n + 1;
    }
    assert rows[..|rows|] == rows;
  }

  /** The keys as a list, each once, in some order. */
  method Enumerate(keys: set<string>) returns (headers: seq<string>)
    ensures NoDuplicates(headers)
    ensures forall h :: h in headers <==> h in keys
  {
    headers := [];
    var left := keys;
    while left != {}
      invariant left <= keys
      invariant forall h :: h in headers <==> h in keys && h !in left
      invariant NoDuplicates(headers)
      decreases |left|
    {
      var h :| h in left;
      assert h !in headers;
      headers := headers + [h];
      left := left - {h};
    }
  }

  /** One cell list per document, in input order. */
  method BuildRows(rows: seq<Document>, headers: seq<string>) returns (data: seq<seq<string>>)
    ensures |data| == |rows|
    ensures forall i :: 0 <= i < |rows| ==> data[i] == Cells(rows[i], headers)
  {
    data := [];
    var m := 0;
    while m < |rows|
      invariant 0 <= m <= |rows|
      invariant |data| == m
      invariant forall i :: 0 <= i < m ==> data[i] == Cells(rows[i], headers)
    {
      var cells := Cells(rows[m], headers);
      assert (data + [cells])[m] == cells;
      assert forall i :: 0 <= i < m ==> (data + [cells])[i] == data[i];
      data := data + [cells];
      m := m + 1;
    }
  }
}
