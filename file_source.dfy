/** The file provider's row parser (src/source/file.rs): the content is cut
    into rows at the line ending, and each `host|url` row that is not a
    `#` comment becomes a url source. Reading the file is a parameter. */
module FileSource {
  import opened Wrappers
  import opened Strings
  import opened UrlSources
  import opened Requests

  /** The line ending outside Windows. */
  const LineEnding: char := '\n'

  const ReadErrorMessage: string := "unable to read url source file"

  /** The judgement on one row: exactly two `|`-separated parts and no
      leading `#`; the host is the first part and the url the last, untrimmed. */
  function ParseRow(row: string): Option<UrlSource>
  {
    var parts := Split(row, '|');
    if |parts| == 2 && !StartsWith(row, "#") then Some(UrlSource(parts[0], parts[|parts| - 1]))
    else None
  }

  /** What a row contributes to the output: its source, or nothing. */
  function RowSources(row: string): seq<UrlSource>
  {
    match ParseRow(row)
    case Some(source) => [source]
    case None => []
  }

  /** The sources of `rows`, in row order. */
  function ParsedRows(rows: seq<string>): seq<UrlSource>
  {
    if rows == [] then []
    else ParsedRows(rows[..|rows| - 1]) + RowSources(rows[|rows| - 1])
  }

  /** `FileUrlSourceProvider::get_url_sources`, given the outcome of reading the file. */
  method GetUrlSources(content: Result<string, Error>) returns (r: Result<seq<UrlSource>, Error>)
    ensures content.Failure? ==> r == Failure(Context(ReadErrorMessage, content.error))
    ensures content.Success? ==> r == Success(ParsedRows(Split(content.value, LineEnding)))
  {
    if content.Failure? {
      return Failure(Context(ReadErrorMessage, content.error));
    }
    var rows := Split(content.value, LineEnding);
    var results: seq<UrlSource> := [];
    for i := 0 to |rows|
      invariant results == ParsedRows(rows[..i])
    {
      var row := rows[i];
      var rowParts := Split(row, '|');
      if |rowParts| == 2 && !StartsWith(row, "#") {
        results := results + [UrlSource(rowParts[0], rowParts[|rowParts| - 1])];
      }
      assert rows[..i + 1][..i] == rows[..i];
    }
    assert rows[..|rows|] == rows;
    r := Success(results);
  }

  /** A row is accepted iff it holds exactly one `|` and does not start with `#`. */
  lemma ParseRowAccepts(row: string)
    ensures ParseRow(row).Some? <==> multiset(row)['|'] == 1 && !StartsWith(row, "#")
  {
    SplitCount(row, '|');
  }

  /** An accepted row is its host, a `|`, and its url, neither holding `|`. */
  lemma ParseRowParts(row: string)
    requires ParseRow(row).Some?
    ensures var source := ParseRow(row).value;
      row == source.zabbixHost + "|" + source.url
      && '|' !in source.zabbixHost && '|' !in source.url
  {
    var parts := Split(row, '|');
    SplitJoin(row, '|');
    SplitPartsFree(row, '|');
    assert parts[1..] == [parts[1]];
  }

  /** A source written as a row of the file. */
  function FormatRow(source: UrlSource): string
  {
    source.zabbixHost + "|" + source.url
  }

  /** The sources `ParseRow` can give back: no `|` inside and no leading `#`. */
  predicate Writable(source: UrlSource)
  {
    '|' !in source.zabbixHost && '|' !in source.url && !StartsWith(source.zabbixHost, "#")
  }

  /** Writing a source as a row and parsing it gives it back. */
  lemma ParseRowRoundTrip(source: UrlSource)
    requires Writable(source)
    ensures ParseRow(FormatRow(source)) == Some(source)
  {
    var (host, url) := (source.zabbixHost, source.url);
    var row := host + "|" + url;
    assert Join([host, url], "|") == row by {
      assert [host, url][1..] == [url];
    }
    JoinSplit([host, url], '|');
  }

  /** Rows are judged one by one and their sources concatenated in order. */
  lemma {:induction false} ParsedRowsAppend(a: seq<string>, b: seq<string>)
    ensures ParsedRows(a + b) == ParsedRows(a) + ParsedRows(b)
    decreases |b|
  {
    if b == [] {
      assert a + b == a;
    } else {
      var last := b[|b| - 1];
      assert (a + b)[..|a + b| - 1] == a + b[..|b| - 1];
      ParsedRowsAppend(a, b[..|b| - 1]);
    }
  }

  /** At most one source per row. */
  lemma {:induction false} ParsedRowsBound(rows: seq<string>)
    ensures |ParsedRows(rows)| <= |rows|
    decreases |rows|
  {
    if rows != [] {
      ParsedRowsBound(rows[..|rows| - 1]);
    }
  }

  /** A source is in the output iff some row parses to it. */
  lemma {:induction false} ParsedRowsMember(rows: seq<string>, source: UrlSource)
    ensures source in ParsedRows(rows) <==> exists i :: 0 <= i < |rows| && ParseRow(rows[i]) == Some(source)
    decreases |rows|
  {
    if rows != [] {
      var init := rows[..|rows| - 1];
      ParsedRowsMember(init, source);
      if source in ParsedRows(init) {
        var i :| 0 <= i < |init| && ParseRow(init[i]) == Some(source);
        assert rows[i] == init[i];
      }
      if exists i :: 0 <= i < |rows| && ParseRow(rows[i]) == Some(source) {
        var i :| 0 <= i < |rows| && ParseRow(rows[i]) == Some(source);
        if i < |init| {
          assert init[i] == rows[i];
        }
      }
    }
  }

  /** Two rows, judged in order. */
  lemma ParsedTwoRows(row1: string, row2: string)
    ensures ParsedRows([row1, row2]) == RowSources(row1) + RowSources(row2)
  {
    var rows := [row1, row2];
    assert rows[..1] == [row1] && [row1][..0] == [];
    assert ParsedRows([row1]) == ParsedRows([]) + RowSources(row1);
    assert ParsedRows(rows) == ParsedRows(rows[..1]) + RowSources(row2);
  }

  /** A file of two well-formed rows yields exactly their two sources, in order. */
  lemma TwoRows(source1: UrlSource, source2: UrlSource)
    requires Writable(source1) && Writable(source2)
    requires LineEnding !in FormatRow(source1) && LineEnding !in FormatRow(source2)
    ensures ParsedRows(Split(FormatRow(source1) + [LineEnding] + FormatRow(source2), LineEnding))
         == [source1, source2]
  {
    SplitHead(FormatRow(source1), FormatRow(source2), LineEnding);
    SplitFree(FormatRow(source2), LineEnding);
    ParsedTwoRows(FormatRow(source1), FormatRow(source2));
    ParseRowRoundTrip(source1);
    ParseRowRoundTrip(source2);
  }
}
