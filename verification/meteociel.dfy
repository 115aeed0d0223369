/** `WeatherData` of `custom_components/meteociel/meteociel.py`: the day
    summary of one Meteociel station for one date.

    Today's date, the page lookup (`requests.get` plus the BeautifulSoup
    search for the first `bgcolor="#FFFF99"` table) and Python's `float`
    are parameters. A table is its rows, a row the texts of its cells. */
module Meteociel {
  import opened Wrappers
  import opened Text

  datatype Date = Date(day: int, month: int, year: int)

  type Row = seq<string>
  type Table = seq<Row>

  /** The five values read from the second row of the table. */
  datatype DaySummary = DaySummary(tmax: Option<real>, tmin: Option<real>, wind: Option<real>, rain: Option<real>, sun: string)

  /** A constructed `WeatherData` object. `url` is kept only by the model:
      in the Python object it is a local of `__init__`, not an attribute. */
  datatype WeatherData = WeatherData(date: Date, url: string, summary: DaySummary)

  const BaseUrl := "http://www.meteociel.fr/temps-reel/obs_villes.php"

  /** The date asked for: today's unless day, month and year are all given.
      Only `None` counts as missing; a given 0 is used as it is. */
  function ResolveDate(day: Option<int>, month: Option<int>, year: Option<int>, today: Date): (d: Date)
    ensures day.None? || month.None? || year.None? ==> d == today
    ensures day.Some? && month.Some? && year.Some? ==> d.day == day.value && d.month == month.value && d.year == year.value
  {
    if day.None? || month.None? || year.None? then today
    else Date(day.value, month.value, year.value)
  }

  /** The query parameters, in order; the month is sent counted from 0.
      Every name occurs once, and no name or value holds a character that
      would end a name (`=`) or a pair (`&`). */
  function QueryPairs(cityCode: int, d: Date): (pairs: seq<(string, string)>)
    ensures |pairs| == 5
    ensures forall i, j :: 0 <= i < j < |pairs| ==> pairs[i].0 != pairs[j].0
    ensures forall i :: 0 <= i < |pairs| ==> '=' !in pairs[i].0 && '&' !in pairs[i].0 && '&' !in pairs[i].1
  {
    assert "code2"[0] != "jour2"[0] && "code2"[0] != "mois2"[0];
    assert "code2"[0] != "annee2"[0] && "code2"[0] != "envoyer"[0];
    assert "jour2"[0] != "mois2"[0] && "jour2"[0] != "annee2"[0] && "jour2"[0] != "envoyer"[0];
    assert "mois2"[0] != "annee2"[0] && "mois2"[0] != "envoyer"[0];
    assert "annee2"[0] != "envoyer"[0];
    [("code2", IntToDecimal(cityCode)), ("jour2", IntToDecimal(d.day)),
     ("mois2", IntToDecimal(d.month - 1)), ("annee2", IntToDecimal(d.year)),
     ("envoyer", "OK")]
  }

  /** The URL that is fetched: the observation page with the rendered
      query after its `?`. */
  function QueryUrl(cityCode: int, d: Date): (url: string)
    ensures QueryOf(url) == Some(RenderQuery(QueryPairs(cityCode, d)))
  {
    var q := RenderQuery(QueryPairs(cityCode, d));
    assert (BaseUrl + "?" + q)[|BaseUrl| + 1..] == q;
    BaseUrl + "?" + q
  }

  /** The query of a URL of the observation page, if it is one. */
  function QueryOf(url: string): Option<string>
  {
    if BaseUrl + "?" <= url then Some(url[|BaseUrl| + 1..]) else None
  }

  /** The value of a parameter of an observation-page URL, if present. */
  function QueryValue(url: string, key: string): Option<string>
  {
    match QueryOf(url)
    case None => None
    case Some(q) => Lookup(ParseQuery(q), key)
  }

  /** The number in a parameter of an observation-page URL, if present. */
  function QueryNumber(url: string, key: string): Option<int>
  {
    match QueryValue(url, key)
    case None => None
    case Some(text) => DecimalValue(text)
  }

  /** The query of the fetched URL parses back into the query pairs. */
  lemma ParsedQueryOfUrl(cityCode: int, d: Date)
    ensures QueryOf(QueryUrl(cityCode, d)) == Some(RenderQuery(QueryPairs(cityCode, d)))
    ensures ParseQuery(RenderQuery(QueryPairs(cityCode, d))) == QueryPairs(cityCode, d)
  {
    QueryRoundTrip(QueryPairs(cityCode, d));
  }

  /** The query pairs are `code2`, `jour2`, `mois2`, `annee2` and
      `envoyer`, each occurring once, so looking each one up finds its own
      value. */
  lemma LookupQueryPairs(cityCode: int, d: Date)
    ensures var pairs := QueryPairs(cityCode, d);
      && (forall i, j :: 0 <= i < j < |pairs| ==> pairs[i].0 != pairs[j].0)
      && Lookup(pairs, "code2") == Some(IntToDecimal(cityCode))
      && Lookup(pairs, "jour2") == Some(IntToDecimal(d.day))
      && Lookup(pairs, "mois2") == Some(IntToDecimal(d.month - 1))
      && Lookup(pairs, "annee2") == Some(IntToDecimal(d.year))
      && Lookup(pairs, "envoyer") == Some("OK")
  {
    var pairs := QueryPairs(cityCode, d);
    LookupFirst(pairs, 0, "code2");
    LookupFirst(pairs, 1, "jour2");
    LookupFirst(pairs, 2, "mois2");
    LookupFirst(pairs, 3, "annee2");
    LookupFirst(pairs, 4, "envoyer");
  }

  /** Reading the fetched URL back gives the station code, the day, the
      month minus one and the year. */
  lemma QueryUrlCarriesDate(cityCode: int, d: Date)
    ensures QueryNumber(QueryUrl(cityCode, d), "code2") == Some(cityCode)
    ensures QueryNumber(QueryUrl(cityCode, d), "jour2") == Some(d.day)
    ensures QueryNumber(QueryUrl(cityCode, d), "mois2") == Some(d.month - 1)
    ensures QueryNumber(QueryUrl(cityCode, d), "annee2") == Some(d.year)
    ensures QueryValue(QueryUrl(cityCode, d), "envoyer") == Some("OK")
  {
    ParsedQueryOfUrl(cityCode, d);
    LookupQueryPairs(cityCode, d);
    DecimalRoundTrip(cityCode);
    DecimalRoundTrip(d.day);
    DecimalRoundTrip(d.month - 1);
    DecimalRoundTrip(d.year);
  }

  /** The date the URL asks for: with day, month and year all given, the
      URL carries them (the month minus one); with any of them missing it
      carries today's date, even for the parts that were given. */
  lemma UrlCarriesResolvedDate(cityCode: int, day: Option<int>, month: Option<int>, year: Option<int>, today: Date)
    ensures var url := QueryUrl(cityCode, ResolveDate(day, month, year, today));
      var given := day.Some? && month.Some? && year.Some?;
      && (given ==>
            && QueryNumber(url, "jour2") == Some(day.value)
            && QueryNumber(url, "mois2") == Some(month.value - 1)
            && QueryNumber(url, "annee2") == Some(year.value))
      && (!given ==>
            && QueryNumber(url, "jour2") == Some(today.day)
            && QueryNumber(url, "mois2") == Some(today.month - 1)
            && QueryNumber(url, "annee2") == Some(today.year))
  {
    QueryUrlCarriesDate(cityCode, ResolveDate(day, month, year, today));
  }

  /** `float(cell.text.split(' ')[0])`, or `None` when the cell is missing
      (`IndexError`) or `float` rejects the token (`ValueError`). */
  function CellNumber(cells: Row, i: nat, parse: string -> Option<real>): (v: Option<real>)
    ensures i >= |cells| ==> v.None?
    ensures i < |cells| ==> v == parse(Before(cells[i], ' '))
  {
    if i < |cells| then parse(Before(cells[i], ' ')) else None
  }

  /** `parseWeatherTable(table)`: the cells of the second row; `tmax`,
      `tmin`, `wind` and `rain` from cells 0 to 3, each failure caught on
      its own, and `sun` the raw text of cell 4 with no `try` around it. A
      table with fewer than two rows, or a row with fewer than five cells,
      raises `IndexError`. */
  function ParseWeatherTable(table: Table, parse: string -> Option<real>): (r: Result<DaySummary, Exception>)
    ensures r.Success? <==> |table| >= 2 && |table[1]| >= 5
    ensures r.Failure? ==> r.error == IndexError
    ensures r.Success? ==>
      && r.value.tmax == parse(Before(table[1][0], ' '))
      && r.value.tmin == parse(Before(table[1][1], ' '))
      && r.value.wind == parse(Before(table[1][2], ' '))
      && r.value.rain == parse(Before(table[1][3], ' '))
      && r.value.sun == table[1][4]
  {
    if |table| < 2 then Failure(IndexError)
    else
      var cells := table[1];
      var tmax := CellNumber(cells, 0, parse);
      var tmin := CellNumber(cells, 1, parse);
      var wind := CellNumber(cells, 2, parse);
      var rain := CellNumber(cells, 3, parse);
      if |cells| < 5 then Failure(IndexError)
      else Success(DaySummary(tmax, tmin, wind, rain, cells[4]))
  }

  /** The numeric field read from cell `i` (0 to 3) of a summary. */
  function Field(s: DaySummary, i: nat): Option<real>
    requires i < 4
  {
    if i == 0 then s.tmax else if i == 1 then s.tmin else if i == 2 then s.wind else s.rain
  }

  /** Each numeric field depends on its own cell only: two tables whose
      second rows agree on cell `i` give the same field `i`, whatever the
      other cells hold. */
  lemma FieldsIndependent(t1: Table, t2: Table, parse: string -> Option<real>, i: nat)
    requires i < 4
    requires ParseWeatherTable(t1, parse).Success? && ParseWeatherTable(t2, parse).Success?
    requires t1[1][i] == t2[1][i]
    ensures Field(ParseWeatherTable(t1, parse).value, i) == Field(ParseWeatherTable(t2, parse).value, i)
  {
  }

  /** A cell that is empty or starts with a space yields the empty token,
      which `float` rejects, so that field is `None`. */
  lemma BlankTokenGivesNone(table: Table, parse: string -> Option<real>, i: nat)
    requires parse("") == None
    requires i < 4
    requires ParseWeatherTable(table, parse).Success?
    requires |table[1][i]| == 0 || table[1][i][0] == ' '
    ensures Field(ParseWeatherTable(table, parse).value, i) == None
  {
  }

  /** `WeatherData(cityCode, day, month, year)`. A lookup that raises
      propagates. When no table is found, `__init__` executes `return -1,
      -1, -1, -1, -1`; an `__init__` returning a value raises `TypeError`, so
      no object and no field exists. A found table is a BeautifulSoup tag,
      which is truthy whatever it holds, so it is always parsed, and a table
      without a second row or fifth cell raises `IndexError`. */
  function NewWeatherData(
    cityCode: int, day: Option<int>, month: Option<int>, year: Option<int>, today: Date,
    lookup: string -> Result<Option<Table>, Exception>, parse: string -> Option<real>)
    : (r: Result<WeatherData, Exception>)
    ensures var d := ResolveDate(day, month, year, today);
      var page := lookup(QueryUrl(cityCode, d));
      && (page.Failure? ==> r == Failure(page.error))
      && (page.Success? && page.value.None? ==> r == Failure(TypeError))
      && (page.Success? && page.value.Some? ==>
            && (r.Success? <==> |page.value.value| >= 2 && |page.value.value[1]| >= 5)
            && (r.Failure? ==> r.error == IndexError))
      && (r.Success? ==>
            page.Success? && page.value.Some?
            && r.value.date == d && r.value.url == QueryUrl(cityCode, d)
            && Success(r.value.summary) == ParseWeatherTable(page.value.value, parse))
  {
    var d := ResolveDate(day, month, year, today);
    var url := QueryUrl(cityCode, d);
    match lookup(url)
    case Failure(e) => Failure(e)
    case Success(table) =>
      if table.None? then Failure(TypeError)
      else
        match ParseWeatherTable(table.value, parse)
        case Failure(e) => Failure(e)
        case Success(summary) => Success(WeatherData(d, url, summary))
  }
}
