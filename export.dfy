/** The content of the plain-text and CSV downloads of the generated records. */
module Export {
  import opened Text

  /** The download formats whose content is modelled. */
  datatype Format = PlainText | Csv

  /** The plain-text download: the records joined by `'\n'`. */
  function TextContent(data: seq<string>): string {
    Join(data, "\n")
  }

  /** The CSV header row, `['Index', 'Data'].join(',')`. */
  function CsvHeader(): string {
    Join(["Index", "Data"], ",")
  }

  /** CSV row of record `index`: its 1-based position, a comma, the record. */
  function CsvRow(index: nat, item: string): string {
    Join([Decimal(index + 1), item], ",")
  }

  /** `data.map((item, index) => [index + 1, item])`, each row joined by commas. */
  function CsvRows(data: seq<string>): (rows: seq<string>)
    ensures |rows| == |data|
    ensures forall i :: 0 <= i < |data| ==> rows[i] == CsvRow(i, data[i])
  {
    seq(|data|, i requires 0 <= i < |data| => CsvRow(i, data[i]))
  }

  /** The CSV download: the header row and the record rows joined by `'\n'`. */
  function CsvContent(data: seq<string>): string {
    Join([CsvHeader()] + CsvRows(data), "\n")
  }

  /** `downloadAsFile`: no download at all when there are no records. */
  function DownloadContent(data: seq<string>, format: Format): (content: Option<string>)
    ensures content.None? <==> |data| == 0
  {
    if |data| == 0 then None
    else match format
      case PlainText => Some(TextContent(data))
      case Csv => Some(CsvContent(data))
  }

  lemma CsvHeaderValue()
    ensures CsvHeader() == "Index,Data"
  {
    JoinTwo("Index", "Data", ",");
  }

  /** Splitting the plain-text content at its newlines gives the records back. */
  lemma TextLines(data: seq<string>)
    requires |data| >= 1 && NoNewline(data)
    ensures SplitLines(TextContent(data)) == data
  {
    SplitJoinLines(data);
  }

  /** A CSV row splits at its first comma into the 1-based index and the
      record, whatever commas the record itself holds. */
  lemma CsvRowFields(index: nat, item: string)
    ensures var row := CsvRow(index, item);
      && ',' in row
      && row[..FirstIndex(row, ',')] == Decimal(index + 1)
      && AllDigits(row[..FirstIndex(row, ',')]) && ParseDecimal(row[..FirstIndex(row, ',')]) == index + 1
      && row[FirstIndex(row, ',') + 1..] == item
  {
    var d := Decimal(index + 1);
    assert ',' !in d by {
      forall k | 0 <= k < |d| ensures d[k] != ',' {
        assert IsDigit(d[k]);
      }
    }
    var row := CsvRow(index, item);
    JoinTwo(d, item, ",");
    FirstIndexAfter(d, ',', item);
    assert row[..|d|] == d;
    assert row[|d| + 1..] == item;
    ParseDecimalOfDecimal(index + 1);
  }

  /** A CSV row holds a newline only where its record does. */
  lemma CsvRowsNoNewline(data: seq<string>)
    requires NoNewline(data)
    ensures NoNewline([CsvHeader()] + CsvRows(data))
  {
    var lines := [CsvHeader()] + CsvRows(data);
    CsvHeaderValue();
    forall i | 0 <= i < |lines| ensures '\n' !in lines[i] {
      if i > 0 {
        var d := Decimal(i);
        var row := lines[i];
        JoinTwo(d, data[i - 1], ",");
        forall k | 0 <= k < |row| ensures row[k] != '\n' {
          if k < |d| {
            assert IsDigit(d[k]);
          } else if k > |d| {
            assert row[k] == data[i - 1][k - |d| - 1];
          }
        }
      }
    }
  }

  /** Splitting the CSV content at its newlines gives the header row, then
      one row per record in record order. */
  lemma CsvLines(data: seq<string>)
    requires NoNewline(data)
    ensures var lines := SplitLines(CsvContent(data));
      && |lines| == |data| + 1
      && lines[0] == "Index,Data"
      && forall i :: 0 <= i < |data| ==> lines[i + 1] == CsvRow(i, data[i])
  {
    CsvRowsNoNewline(data);
    SplitJoinLines([CsvHeader()] + CsvRows(data));
    CsvHeaderValue();
  }

  /** The worked example: `["a", "b"]` exports as `Index,Data\n1,a\n2,b`. */
  lemma CsvSample()
    ensures CsvContent(["a", "b"]) == "Index,Data\n1,a\n2,b"
  {
    CsvHeaderValue();
    assert Decimal(1) == "1" && Decimal(2) == "2";
    JoinTwo(Decimal(1), "a", ",");
    JoinTwo(Decimal(2), "b", ",");
    var rows := CsvRows(["a", "b"]);
    assert rows[0] == "1,a" && rows[1] == "2,b";
    var lines := ["Index,Data", "1,a", "2,b"];
    assert [CsvHeader()] + rows == lines;
    assert lines[1..] == ["1,a", "2,b"];
    JoinTwo("1,a", "2,b", "\n");
    assert Join(lines, "\n") == "Index,Data" + "\n" + ("1,a" + "\n" + "2,b");
  }
}
