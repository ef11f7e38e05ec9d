/** The proxies table of the source page, seen as rows of cell text, and the
    {ip, port} records that `save_proxies` builds from it. */
module ProxyTable {
  import opened Wrappers

  /** One proxy endpoint. Both fields are the text of a table cell and are never validated. */
  datatype ProxyRecord = ProxyRecord(ip: string, port: string)

  /** One `tr` of the table body: the text of its `td` cells, in order. */
  type Row = seq<string>

  /** The table found on the page; `tbody` is None when the table has no body element. */
  datatype Table = Table(tbody: Option<seq<Row>>)

  /** Every row carries the two cells that are read from it (ip, then port). */
  predicate RowsWellFormed(rows: seq<Row>) {
    forall j :: 0 <= j < |rows| ==> |rows[j]| >= 2
  }

  /** A table whose body, if it has one, is made of well-formed rows. A shorter row
      makes the source fail with an uncaught IndexError, so callers must not pass one. */
  predicate WellFormed(t: Table) {
    t.tbody.Some? ==> RowsWellFormed(t.tbody.value)
  }

  /** The record built from one row: its first cell is the ip, its second the port. */
  function RecordOf(row: Row): ProxyRecord
    requires |row| >= 2
  {
    ProxyRecord(row[0], row[1])
  }

  /** The records of a table body: one per row, in row order. */
  function ProxiesOf(rows: seq<Row>): (r: seq<ProxyRecord>)
    requires RowsWellFormed(rows)
    ensures |r| == |rows|
    ensures forall j :: 0 <= j < |rows| ==> r[j].ip == rows[j][0] && r[j].port == rows[j][1]
  {
    if rows == [] then [] else [RecordOf(rows[0])] + ProxiesOf(rows[1..])
  }

  /** The two-cell row a record would be read from. */
  function RowOf(p: ProxyRecord): (row: Row)
    ensures |row| == 2
  {
    [p.ip, p.port]
  }

  /** A table body holding exactly the given records, one row per record. */
  function RowsOf(ps: seq<ProxyRecord>): (rows: seq<Row>)
    ensures |rows| == |ps| && RowsWellFormed(rows)
    ensures forall j :: 0 <= j < |ps| ==> rows[j] == RowOf(ps[j])
  {
    seq(|ps|, j requires 0 <= j < |ps| => RowOf(ps[j]))
  }

  /** Parsing keeps row order: the records of two consecutive blocks of rows are
      the records of the first block followed by those of the second. */
  lemma ProxiesOfAppend(a: seq<Row>, b: seq<Row>)
    requires RowsWellFormed(a) && RowsWellFormed(b)
    ensures RowsWellFormed(a + b)
    ensures ProxiesOf(a + b) == ProxiesOf(a) + ProxiesOf(b)
  {
    forall j | 0 <= j < |a + b|
      ensures (a + b)[j] == if j < |a| then a[j] else b[j - |a|]
    {
    }
    var whole, parts := ProxiesOf(a + b), ProxiesOf(a) + ProxiesOf(b);
    forall j | 0 <= j < |whole|
      ensures whole[j] == parts[j]
    {
      if j < |a| {
        assert whole[j] == RecordOf(a[j]);
      } else {
        assert whole[j] == RecordOf(b[j - |a|]);
      }
    }
  }

  /** Every list of records is what parsing its own table gives back. */
  lemma {:induction false} ProxiesOfRowsOf(ps: seq<ProxyRecord>)
    ensures ProxiesOf(RowsOf(ps)) == ps
  {
    var r := ProxiesOf(RowsOf(ps));
    forall j | 0 <= j < |ps|
      ensures r[j] == ps[j]
    {
      assert RowsOf(ps)[j] == [ps[j].ip, ps[j].port];
    }
  }

  /** Cells after the second are ignored: a body of two-cell rows is recovered exactly
      from its records, and any body yields the records of its rows cut to two cells. */
  lemma {:induction false} RowsOfProxiesOf(rows: seq<Row>)
    requires RowsWellFormed(rows)
    ensures forall j :: 0 <= j < |rows| ==> RowsOf(ProxiesOf(rows))[j] == rows[j][..2]
    ensures (forall j :: 0 <= j < |rows| ==> |rows[j]| == 2) ==> RowsOf(ProxiesOf(rows)) == rows
  {
    var back := RowsOf(ProxiesOf(rows));
    forall j | 0 <= j < |rows|
      ensures back[j] == rows[j][..2]
    {
      assert back[j] == [rows[j][0], rows[j][1]];
    }
    if forall j :: 0 <= j < |rows| ==> |rows[j]| == 2 {
      forall j | 0 <= j < |rows|
        ensures back[j] == rows[j]
      {
        assert rows[j][..2] == rows[j];
      }
    }
  }

  /** A table of two rows gives two records, in the same order. */
  lemma TwoRowTable()
    ensures ProxiesOf([["1.2.3.4", "8080"], ["5.6.7.8", "3128"]])
         == [ProxyRecord("1.2.3.4", "8080"), ProxyRecord("5.6.7.8", "3128")]
  {
  }
}
