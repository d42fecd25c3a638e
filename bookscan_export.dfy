/**
 * The Nielsen BookScan sales export: the CSV row layouts and their field
 * formats, the file name, the SFTP upload's configuration check, the
 * single-day schedule, and the export log that records exactly one entry per
 * run. The SQL queries, the SFTP transfer and the clock are inputs.
 */
module BookscanExport {
  import opened Wrappers
  import opened Text
  import opened Calendar

  // ---- field formats ----

  /** `int(x)` on a number: truncation toward zero. */
  function Trunc(x: real): (r: int)
    ensures 0.0 <= x ==> r as real <= x < r as real + 1.0
    ensures x < 0.0 ==> r as real - 1.0 < x <= r as real
  {
    if x >= 0.0 then x.Floor else -((-x).Floor)
  }

  /** The nearest whole number to `y`, ties going to the even one (the rounding `format` applies). */
  function RoundHalfEven(y: real): (r: nat)
    requires y >= 0.0
    ensures -0.5 <= r as real - y <= 0.5
    ensures (r as real - y == 0.5 || y - r as real == 0.5) ==> r % 2 == 0
  {
    var n := y.Floor;
    var frac := y - n as real;
    if frac < 0.5 then n
    else if frac > 0.5 then n + 1
    else if n % 2 == 0 then n
    else n + 1
  }

  function Abs(x: real): real
  {
    if x < 0.0 then -x else x
  }

  /** A count of cents written as units, a point and exactly two digits. */
  function FormatCents(c: nat): string
  {
    NatToString(c / 100) + "." + PadLeft(c % 100, 2)
  }

  /** The number of cents `f"{price:.2f}"` shows for the magnitude of `price`. */
  function PriceCents(price: real): nat
  {
    RoundHalfEven(Abs(price) * 100.0)
  }

  /** `f"{price:.2f}"`: the sign of a negative price (kept even when it rounds to zero), then the cents. */
  function FormatPrice(price: real): string
  {
    (if price < 0.0 then "-" else "") + FormatCents(PriceCents(price))
  }

  /** The value the two-decimal text stands for. */
  function RoundedPrice(price: real): (r: real)
    ensures -0.005 <= r - price <= 0.005
  {
    var c := PriceCents(price) as real / 100.0;
    if price < 0.0 then -c else c
  }

  /** `date.strftime('%Y%m%d')`, with the year written on four digits. */
  function FormatYmd(d: Date): string
  {
    PadLeft(d.year, 4) + PadLeft(d.month, 2) + PadLeft(d.day, 2)
  }

  /** Reads a `YYYYMMDD` text back into its date. */
  function ParseYmd(s: string): Option<Date>
  {
    if |s| == 8 && AllDigits(s) then
      Some(Date(DigitsValue(s[..4]), DigitsValue(s[4..6]), DigitsValue(s[6..])))
    else None
  }

  lemma Pow10Small()
    ensures Pow10(2) == 100 && Pow10(4) == 10000
  {
    assert Pow10(1) == 10;
    assert Pow10(3) == 1000;
  }

  /** A two-decimal price reads back, with `float()`, as the rounded price. */
  lemma PriceRoundTrip(price: real)
    ensures ParseDecimal(FormatPrice(price)) == Some(RoundedPrice(price))
  {
    var c := PriceCents(price);
    var u, v := FormatCents(c), c as real / 100.0;
    CentsRoundTrip(c);
    SignedDecimal(u, v);
    assert RoundedPrice(price) == if price < 0.0 then -v else v;
    assert FormatPrice(price) == if price < 0.0 then "-" + u else u;
  }

  /** A count of cents, written with its point, reads back as that many hundredths. */
  lemma CentsRoundTrip(c: nat)
    ensures ParseUnsigned(FormatCents(c)) == Some(c as real / 100.0)
    ensures IsDigit(FormatCents(c)[0])
  {
    var whole, frac := NatToString(c / 100), PadLeft(c % 100, 2);
    Pow10Small();
    PadLeftValue(c % 100, 2);
    NatToStringValue(c / 100);
    ParsePointed(whole, frac);
    assert Shifted(c % 100, |frac|) == (c % 100) as real / 100.0;
    CentsValue(c);
  }

  lemma CentsValue(c: nat)
    ensures (c / 100) as real + (c % 100) as real / 100.0 == c as real / 100.0
  {
  }

  /** The price always shows exactly two digits after its point. */
  lemma PriceTwoDecimals(price: real)
    ensures var s := FormatPrice(price);
      |s| >= 4 && s[|s| - 3] == '.' && IsDigit(s[|s| - 2]) && IsDigit(s[|s| - 1])
  {
    var c := PriceCents(price);
    Pow10Small();
    PadLeftValue(c % 100, 2);
  }

  /** A valid date's `YYYYMMDD` text has eight digits and reads back as that date. */
  lemma YmdRoundTrip(d: Date)
    requires Valid(d)
    ensures |FormatYmd(d)| == 8 && ParseYmd(FormatYmd(d)) == Some(d)
  {
    Pow10Small();
    assert d.month < Pow10(2) && d.day < Pow10(2);
    PadLeftValue(d.year, 4);
    PadLeftValue(d.month, 2);
    PadLeftValue(d.day, 2);
    var s := FormatYmd(d);
    assert s[..4] == PadLeft(d.year, 4);
    assert s[4..6] == PadLeft(d.month, 2);
    assert s[6..] == PadLeft(d.day, 2);
  }

  lemma PriceExamples()
    ensures FormatPrice(12.5) == "12.50"
    ensures FormatPrice(0.125) == "0.12"
    ensures FormatPrice(-0.001) == "-0.00"
  {
    assert PriceCents(12.5) == 1250;
    assert NatToString(12) == "12";
    assert PadLeft(50, 2) == "50";
    assert PriceCents(0.125) == 12;
    assert PadLeft(12, 2) == "12";
    assert PriceCents(-0.001) == 0;
    assert PadLeft(0, 2) == "00";
  }

  // ---- rows ----

  /** One sale line as the queries return it; `postcode` and `countryCode` come from outer joins. */
  datatype SaleRow = SaleRow(outlet: string, isbn: string, qty: real, price: real, saleDate: Date,
                             postcode: Option<string>, countryCode: Option<string>)

  /** Whether the row carries its location: both postcode and country code truthy. */
  predicate HasLocation(row: SaleRow)
  {
    Truthy(row.postcode) && Truthy(row.countryCode)
  }

  /** The cells `writerow` receives for one sale. */
  function FormatRow(row: SaleRow): (cells: seq<string>)
    ensures |cells| == if HasLocation(row) then 7 else 5
    ensures cells[0] == row.outlet && cells[|cells| - 1] == FormatYmd(row.saleDate)
  {
    var saleDate := FormatYmd(row.saleDate);
    var qty := IntToString(Trunc(row.qty));
    var price := FormatPrice(row.price);
    if HasLocation(row) then
      [row.outlet, row.postcode.value, row.countryCode.value, row.isbn, qty, price, saleDate]
    else
      [row.outlet, row.isbn, qty, price, saleDate]
  }

  datatype Location = Location(postcode: string, countryCode: string)

  /** What a BookScan row says about a sale. */
  datatype ExportedRow = ExportedRow(outlet: string, location: Option<Location>, isbn: string,
                                     qty: int, price: real, saleDate: Date)

  /** The information a sale keeps once exported: truncated quantity, rounded price, location only when complete. */
  function Exported(row: SaleRow): ExportedRow
  {
    ExportedRow(row.outlet,
                if HasLocation(row) then Some(Location(row.postcode.value, row.countryCode.value)) else None,
                row.isbn, Trunc(row.qty), RoundedPrice(row.price), row.saleDate)
  }

  function ParseCells(outlet: string, location: Option<Location>, isbn: string,
                      qty: string, price: string, saleDate: string): Option<ExportedRow>
  {
    match (ParseInt(qty), ParseDecimal(price), ParseYmd(saleDate))
    case (Some(q), Some(p), Some(d)) => Some(ExportedRow(outlet, location, isbn, q, p, d))
    case _ => None
  }

  /** Reads a row back by its width: seven cells carry a location, five do not. */
  function ParseRow(cells: seq<string>): Option<ExportedRow>
  {
    if |cells| == 7 then
      ParseCells(cells[0], Some(Location(cells[1], cells[2])), cells[3], cells[4], cells[5], cells[6])
    else if |cells| == 5 then
      ParseCells(cells[0], None, cells[1], cells[2], cells[3], cells[4])
    else None
  }

  /** Every row reads back as the sale it was written from. */
  lemma RowRoundTrip(row: SaleRow)
    requires Valid(row.saleDate)
    ensures ParseRow(FormatRow(row)) == Some(Exported(row))
  {
    IntToStringRoundTrip(Trunc(row.qty));
    PriceRoundTrip(row.price);
    YmdRoundTrip(row.saleDate);
  }

  /** One CSV record: the cells joined by commas, ended by the writer's `\r\n`. */
  function Line(cells: seq<string>): string
  {
    Join(cells, ",") + "\r\n"
  }

  /** The CSV record of one sale. */
  function Record(row: SaleRow): string
  {
    Line(FormatRow(row))
  }

  /** The CSV text for a sequence of rows: one record per row, in order. */
  function Render(rows: seq<SaleRow>): string
  {
    ConcatMap(rows, Record)
  }

  /** Rendering concatenated rows is concatenating their renderings, so POS rows stay before website rows. */
  lemma RenderConcat(a: seq<SaleRow>, b: seq<SaleRow>)
    ensures Render(a + b) == Render(a) + Render(b)
  {
    ConcatMapAppend(a, b, Record);
  }

  /** The `i`-th row's record sits between the records of the rows before it and after it. */
  lemma RenderAt(rows: seq<SaleRow>, i: nat)
    requires i < |rows|
    ensures Render(rows) == Render(rows[..i]) + Record(rows[i]) + Render(rows[i + 1..])
  {
    ConcatMapAt(rows, i, Record);
  }

  /** `_build_csv`: writes one record per row into the buffer. */
  method BuildCsv(rows: seq<SaleRow>) returns (content: string)
    ensures content == Render(rows)
  {
    content := "";
    for i := 0 to |rows|
      invariant content == Render(rows[..i])
    {
      assert rows[..i + 1][..i] == rows[..i];
      content := content + Line(FormatRow(rows[i]));
      assert content == Render(rows[..i + 1]);
    }
    assert rows[..|rows|] == rows;
  }

  // ---- file name and schedule ----

  const DEFAULT_OUTLET := "booksandco"

  /** `get_param('bookscan_export.outlet_name', 'booksandco')` */
  function OutletName(param: Option<string>): (r: string)
    ensures r != ""
    ensures Truthy(param) ==> r == param.value
  {
    Param(param, DEFAULT_OUTLET)
  }

  /** The uploaded file's name: the outlet, the last day exported as `YYYYMMDD`, and `.csv`. */
  function ExportFilename(outlet: string, dateTo: Date): string
  {
    outlet + FormatYmd(dateTo) + ".csv"
  }

  /** The file name starts with the outlet, ends with `.csv`, and the digits between name the last day. */
  lemma FilenameParts(outlet: string, dateTo: Date)
    requires Valid(dateTo)
    ensures var f := ExportFilename(outlet, dateTo);
      |f| == |outlet| + 12 && StartsWith(f, outlet) && f[|f| - 4..] == ".csv"
      && ParseYmd(f[|outlet|..|f| - 4]) == Some(dateTo)
  {
    YmdRoundTrip(dateTo);
    var f := ExportFilename(outlet, dateTo);
    assert f[|outlet|..|f| - 4] == FormatYmd(dateTo);
  }

  /**
   * `_cron_export`'s range: yesterday, as both first and last day; `None` is
   * the `OverflowError` of the first representable date.
   */
  function CronRange(today: Date): (r: Option<(Date, Date)>)
    requires Valid(today)
    ensures r.None? <==> today == MIN_DATE
    ensures r.Some? ==> r.value.0 == r.value.1 && Valid(r.value.1) && NextDay(r.value.1) == today
  {
    match PrevDay(today)
    case None => None
    case Some(yesterday) => Some((yesterday, yesterday))
  }

  // ---- upload ----

  /** The SFTP system parameters; `None` is a parameter that is not set. */
  datatype SftpSettings = SftpSettings(host: Option<string>, port: Option<string>, username: Option<string>,
                                       password: Option<string>, keyPath: Option<string>)

  /**
   * `get_param(key, default)`: the stored value `or` the default, so a
   * parameter that is unset or set to "" reads as the default.
   */
  function Param(p: Option<string>, default: string): (r: string)
    ensures r == "" ==> default == ""
    ensures Truthy(p) ==> r == p.value
    ensures !Truthy(p) ==> r == default
  {
    if Truthy(p) then p.value else default
  }

  datatype Credential = KeyFile(path: string) | Password(secret: string)

  /** What the transport is asked to do: connect, authenticate and put `content` as `filename`. */
  datatype UploadRequest = UploadRequest(host: string, port: int, username: string, credential: Credential,
                                         filename: string, content: string)

  /** The exceptions `_sftp_upload` raises: a bad port, the missing configuration, or a transfer failure. */
  datatype UploadError = InvalidPort(text: string) | NotConfigured | TransferFailed(message: string)

  const NOT_CONFIGURED_MESSAGE := "BookScan SFTP is not configured. Go to Settings > Point of Sale > BookScan Export."

  /** `str(e)` of each exception. */
  function ErrorText(e: UploadError): string
  {
    match e
    case InvalidPort(text) => "invalid literal for int() with base 10: '" + text + "'"
    case NotConfigured => NOT_CONFIGURED_MESSAGE
    case TransferFailed(message) => message
  }

  /**
   * The configuration half of `_sftp_upload`: the port is read first, then a
   * missing host or user name is refused; a key file, when one is set, is
   * used instead of the password.
   */
  function UploadRequestFor(settings: SftpSettings, filename: string, content: string)
    : (r: Result<UploadRequest, UploadError>)
    ensures ParseInt(Param(settings.port, "22")).None? ==> r == Err(InvalidPort(Param(settings.port, "22")))
    ensures (ParseInt(Param(settings.port, "22")).Some?
             && (Param(settings.host, "") == "" || Param(settings.username, "") == "")) ==> r == Err(NotConfigured)
    ensures r.Ok? ==>
      r.value.host != "" && r.value.username != "" && r.value.filename == filename && r.value.content == content
      && Some(r.value.port) == ParseInt(Param(settings.port, "22"))
      && (r.value.credential.KeyFile? <==> Param(settings.keyPath, "") != "")
  {
    var portText := Param(settings.port, "22");
    var host := Param(settings.host, "");
    var username := Param(settings.username, "");
    var keyPath := Param(settings.keyPath, "");
    match ParseInt(portText)
    case None => Err(InvalidPort(portText))
    case Some(port) =>
      if host == "" || username == "" then Err(NotConfigured)
      else
        var credential := if keyPath != "" then KeyFile(keyPath) else Password(Param(settings.password, ""));
        Ok(UploadRequest(host, port, username, credential, filename, content))
  }

  /**
   * A port that is unset or set to "" reads as 22, so a configuration with a
   * host and a user name connects on port 22.
   */
  lemma EmptyPortIsDefault(settings: SftpSettings, filename: string, content: string)
    requires !Truthy(settings.port)
    requires Truthy(settings.host) && Truthy(settings.username)
    ensures UploadRequestFor(settings, filename, content).Ok?
    ensures UploadRequestFor(settings, filename, content).value.port == 22
  {
    IntToStringRoundTrip(22);
    assert IntToString(22) == "22";
  }

  /**
   * `_sftp_upload`: the transport (`None` when the transfer completes, the
   * exception text otherwise) is consulted only for a well-configured request.
   */
  function SftpUpload(settings: SftpSettings, filename: string, content: string,
                      transport: UploadRequest -> Option<string>): Result<UploadRequest, UploadError>
  {
    match UploadRequestFor(settings, filename, content)
    case Err(e) => Err(e)
    case Ok(request) =>
      match transport(request)
      case None => Ok(request)
      case Some(message) => Err(TransferFailed(message))
  }

  // ---- the export log ----

  datatype ExportState = Success | Error

  /** One `bookscan.export.log` record (its creation time is left to the clock). */
  datatype LogEntry = LogEntry(dateFrom: Date, dateTo: Date, filename: string, recordCount: nat,
                               state: ExportState, errorMessage: Option<string>)

  /** The entry `_run_export` creates for the given rows: a skipped upload, a success, or the upload's error. */
  function ExportEntry(outletParam: Option<string>, dateFrom: Date, dateTo: Date, rows: seq<SaleRow>,
                       settings: SftpSettings, transport: UploadRequest -> Option<string>): LogEntry
  {
    var filename := ExportFilename(OutletName(outletParam), dateTo);
    if rows == [] then LogEntry(dateFrom, dateTo, filename, 0, Success, None)
    else
      match SftpUpload(settings, filename, Render(rows), transport)
      case Ok(_) => LogEntry(dateFrom, dateTo, filename, |rows|, Success, None)
      case Err(e) => LogEntry(dateFrom, dateTo, filename, |rows|, Error, Some(ErrorText(e)))
  }

  /** A day without sales logs a success with no records and no error. */
  lemma NoSalesLogsSuccess(outletParam: Option<string>, dateFrom: Date, dateTo: Date,
                           settings: SftpSettings, transport: UploadRequest -> Option<string>)
    ensures var e := ExportEntry(outletParam, dateFrom, dateTo, [], settings, transport);
      e.state == Success && e.recordCount == 0 && e.errorMessage.None?
  {
  }

  /** With sales, the entry counts them and is a success exactly when the upload returns. */
  lemma SalesLogOutcome(outletParam: Option<string>, dateFrom: Date, dateTo: Date, rows: seq<SaleRow>,
                        settings: SftpSettings, transport: UploadRequest -> Option<string>)
    requires rows != []
    ensures var e := ExportEntry(outletParam, dateFrom, dateTo, rows, settings, transport);
      var upload := SftpUpload(settings, ExportFilename(OutletName(outletParam), dateTo), Render(rows), transport);
      e.recordCount == |rows|
      && (e.state == Success <==> upload.Ok?)
      && (e.state == Error ==> e.errorMessage == Some(ErrorText(upload.error)))
  {
    var filename := ExportFilename(OutletName(outletParam), dateTo);
    var upload := SftpUpload(settings, filename, Render(rows), transport);
    assert ExportEntry(outletParam, dateFrom, dateTo, rows, settings, transport)
      == if upload.Ok? then LogEntry(dateFrom, dateTo, filename, |rows|, Success, None)
         else LogEntry(dateFrom, dateTo, filename, |rows|, Error, Some(ErrorText(upload.error)));
  }

  /** A missing host or user name becomes an error entry carrying the configuration message. */
  lemma UnconfiguredLogsError(outletParam: Option<string>, dateFrom: Date, dateTo: Date, rows: seq<SaleRow>,
                              settings: SftpSettings, transport: UploadRequest -> Option<string>)
    requires rows != []
    requires ParseInt(Param(settings.port, "22")).Some?
    requires Param(settings.host, "") == "" || Param(settings.username, "") == ""
    ensures var e := ExportEntry(outletParam, dateFrom, dateTo, rows, settings, transport);
      e.state == Error && e.errorMessage == Some(NOT_CONFIGURED_MESSAGE)
  {
  }

  /** The `bookscan.export.log` table, oldest entry first. */
  class ExportLog {
    var entries: seq<LogEntry>

    constructor ()
      ensures entries == []
    {
      entries := [];
    }

    /**
     * `_run_export`: queries both sales sources for the range, then logs a
     * skipped upload, or uploads the CSV and logs the outcome. `attempted`
     * is the request handed to the transport, if any.
     */
    method RunExport(outletParam: Option<string>, dateFrom: Date, dateTo: Date,
                     posSales: (Date, Date) -> seq<SaleRow>, webSales: (Date, Date) -> seq<SaleRow>,
                     settings: SftpSettings, transport: UploadRequest -> Option<string>)
      returns (attempted: Option<UploadRequest>)
      modifies this
      ensures var rows := posSales(dateFrom, dateTo) + webSales(dateFrom, dateTo);
        entries == old(entries) + [ExportEntry(outletParam, dateFrom, dateTo, rows, settings, transport)]
        && (rows == [] ==> attempted.None?)
        && (rows != [] ==>
              var request := UploadRequestFor(settings, ExportFilename(OutletName(outletParam), dateTo), Render(rows));
              attempted == if request.Ok? then Some(request.value) else None)
    {
      var outlet := OutletName(outletParam);
      var posRows := posSales(dateFrom, dateTo);
      var webRows := webSales(dateFrom, dateTo);
      RenderConcat(posRows, webRows);
      var allRows := posRows + webRows;
      var filename := ExportFilename(outlet, dateTo);
      if allRows == [] {
        entries := entries + [LogEntry(dateFrom, dateTo, filename, 0, Success, None)];
        return None;
      }
      var content := BuildCsv(allRows);
      var request := UploadRequestFor(settings, filename, content);
      attempted := if request.Ok? then Some(request.value) else None;
      var upload := SftpUpload(settings, filename, content, transport);
      if upload.Ok? {
        entries := entries + [LogEntry(dateFrom, dateTo, filename, |allRows|, Success, None)];
      } else {
        entries := entries + [LogEntry(dateFrom, dateTo, filename, |allRows|, Error, Some(ErrorText(upload.error)))];
      }
    }

    /** `_cron_export`: exports yesterday alone; on the first representable date the subtraction raises. */
    method CronExport(today: Date, outletParam: Option<string>,
                      posSales: (Date, Date) -> seq<SaleRow>, webSales: (Date, Date) -> seq<SaleRow>,
                      settings: SftpSettings, transport: UploadRequest -> Option<string>)
      requires Valid(today)
      modifies this
      ensures today == MIN_DATE ==> entries == old(entries)
      ensures today != MIN_DATE ==>
        var day := CronRange(today).value.1;
        entries == old(entries) + [ExportEntry(outletParam, day, day, posSales(day, day) + webSales(day, day),
                                                  settings, transport)]
    {
      var range := CronRange(today);
      if range.None? {
        return;
      }
      var (dateFrom, dateTo) := range.value;
      var _ := RunExport(outletParam, dateFrom, dateTo, posSales, webSales, settings, transport);
    }
  }
}
