/** The fields build_invoice and build_email derive from a validated invoice
    configuration, the invoice document and the email message they build,
    and the invoice number. */
module Invoicer {
  import opened Wrappers
  import opened Json
  import opened Decimal
  import opened InvoiceSchema
  import opened Errors

  /** One reading of datetime.now(): the year and month as integers (1..9999
      and 1..12 for a real reading) and the date as a day number. */
  datatype Clock = Clock(year: nat, month: nat, day: int)

  /** Where build_invoice writes the PDF and build_email reads it back. */
  const PdfPath := "/tmp/invoice.pdf"

  /** The payment term when agreement_info has no net. */
  const DefaultNet := 30

  // ---------------------------------------------------------------------
  // Reading the configuration
  // ---------------------------------------------------------------------

  /** What build_invoice, build_email and the handlers index into: after
      validation every one of these lookups succeeds. */
  predicate Readable(config: Json)
  {
    && config.Object?
    && "client_info" in config.fields
    && config.fields["client_info"].Object?
    && "client_id" in config.fields["client_info"].fields
    && config.fields["client_info"].fields["client_id"].Str?
    && "service_provider_info" in config.fields
    && config.fields["service_provider_info"].Object?
    && "name" in config.fields["service_provider_info"].fields
    && config.fields["service_provider_info"].fields["name"].Str?
    && "agreement_info" in config.fields
    && config.fields["agreement_info"].Object?
    && "client_emails" in config.fields["agreement_info"].fields
    && config.fields["agreement_info"].fields["client_emails"].Array?
    && (var emails := config.fields["agreement_info"].fields["client_emails"].items;
        forall k :: 0 <= k < |emails| ==> emails[k].Str?)
    && "provider_email" in config.fields["agreement_info"].fields
    && config.fields["agreement_info"].fields["provider_email"].Str?
    && ("net" in config.fields["agreement_info"].fields ==>
          var net := config.fields["agreement_info"].fields["net"];
          net.Int? && 1 <= net.i <= 120)
    && ("verified_sender_arn" in config.fields["agreement_info"].fields ==>
          config.fields["agreement_info"].fields["verified_sender_arn"].Str?)
    && "line_items" in config.fields
    && config.fields["line_items"].Array?
    && (var items := config.fields["line_items"].items;
        forall k :: 0 <= k < |items| ==> items[k].Object?)
    && ("schedule_expression" in config.fields ==> config.fields["schedule_expression"].Str?)
  }

  /** Every lookup the pipelines make is safe on a configuration that
      passed validate_schema. */
  lemma ConformingIsReadable(config: Json)
    requires Conforms(config)
    ensures Readable(config)
  {
    var f := config.fields;
    assert "client_info" in TopRequired && "service_provider_info" in TopRequired;
    assert "agreement_info" in TopRequired && "line_items" in TopRequired;
    assert "client_id" in ClientRequired && "client_id" in ClientKeys;
    assert "name" in ProviderRequired && "name" in ProviderKeys;
    assert "client_emails" in AgreementRequired && "provider_email" in AgreementRequired;
    var a := f["agreement_info"].fields;
    assert StringValued(a, ["provider_email", "verified_sender_arn"]);
    assert "verified_sender_arn" in a ==> a["verified_sender_arn"].Str?;
    var items := f["line_items"].items;
    forall k | 0 <= k < |items| ensures items[k].Object? {
      assert LineItemValid(items[k]);
    }
  }

  /** What validate_schema accepts, the pipelines can read. */
  lemma ValidatedIsReadable(config: Json)
    requires ValidateSchema(config).Pass?
    ensures Readable(config)
  {
    ConformingIsReadable(config);
  }

  /** validate_schema demands at least one client email. */
  lemma ConformingHasRecipients(config: Json)
    requires Conforms(config)
    ensures Readable(config) && |ClientEmails(config)| >= 1
  {
    ConformingIsReadable(config);
    assert AgreementValid(config.fields["agreement_info"]);
  }

  function ClientId(config: Json): string
    requires Readable(config)
  {
    config.fields["client_info"].fields["client_id"].s
  }

  function ProviderName(config: Json): string
    requires Readable(config)
  {
    config.fields["service_provider_info"].fields["name"].s
  }

  function ProviderEmail(config: Json): string
    requires Readable(config)
  {
    config.fields["agreement_info"].fields["provider_email"].s
  }

  function ClientEmails(config: Json): (emails: seq<string>)
    requires Readable(config)
    ensures var items := config.fields["agreement_info"].fields["client_emails"].items;
      |emails| == |items| && forall k :: 0 <= k < |items| ==> items[k] == Str(emails[k])
  {
    var items := config.fields["agreement_info"].fields["client_emails"].items;
    seq(|items|, k requires 0 <= k < |items| => items[k].s)
  }

  /** agreement_info.get('verified_sender_arn'): None when absent. */
  function VerifiedSenderArn(config: Json): Option<string>
    requires Readable(config)
  {
    var a := config.fields["agreement_info"].fields;
    if "verified_sender_arn" in a then Some(a["verified_sender_arn"].s) else None
  }

  function ProviderInfo(config: Json): map<string, Json>
    requires Readable(config)
  {
    config.fields["service_provider_info"].fields
  }

  function ClientInfo(config: Json): map<string, Json>
    requires Readable(config)
  {
    config.fields["client_info"].fields
  }

  /** agreement_info.get('net', 30). */
  function NetDays(config: Json): (net: int)
    requires Readable(config)
    ensures 1 <= net <= 120
    ensures "net" !in config.fields["agreement_info"].fields ==> net == DefaultNet
    ensures "net" in config.fields["agreement_info"].fields ==> Int(net) == config.fields["agreement_info"].fields["net"]
  {
    var a := config.fields["agreement_info"].fields;
    if "net" in a then a["net"].i else DefaultNet
  }

  // ---------------------------------------------------------------------
  // The invoice number
  // ---------------------------------------------------------------------

  /** str(year) + str(month): no zero padding on the month. */
  function Stamp(now: Clock): (s: string)
    ensures AllDigits(s) && |s| >= 2
  {
    AllDigitsAppend(Digits(now.year), Digits(now.month));
    Digits(now.year) + Digits(now.month)
  }

  predicate IsSign(c: char) { c == '+' || c == '-' }

  /** The client ids int() accepts in front of the digits of the stamp. */
  predicate NumericClientId(clientId: string)
  {
    || clientId == ""
    || AllDigits(clientId)
    || (|clientId| > 0 && IsSign(clientId[0]) && AllDigits(clientId[1..]))
  }

  /** The client id without its sign. */
  function Magnitude(clientId: string): string
  {
    if |clientId| > 0 && IsSign(clientId[0]) then clientId[1..] else clientId
  }

  /** The magnitude with the client id's sign. */
  function Signed(clientId: string, magnitude: int): int
  {
    if |clientId| > 0 && clientId[0] == '-' then -magnitude else magnitude
  }

  lemma LiteralAccepted(clientId: string, stamp: string)
    requires AllDigits(stamp) && |stamp| > 0
    ensures IsIntLiteral(clientId + stamp) <==> NumericClientId(clientId)
    ensures NumericClientId(clientId) ==>
      && AllDigits(Magnitude(clientId) + stamp)
      && ParseInt(clientId + stamp) == Some(Signed(clientId, ValueOf(Magnitude(clientId) + stamp)))
  {
    if |clientId| > 0 && IsSign(clientId[0]) {
      SignedLiteral(clientId, stamp);
    } else {
      UnsignedLiteral(clientId, stamp);
    }
  }

  lemma SignedLiteral(clientId: string, stamp: string)
    requires AllDigits(stamp) && |stamp| > 0
    requires |clientId| > 0 && IsSign(clientId[0])
    ensures IsIntLiteral(clientId + stamp) <==> AllDigits(clientId[1..])
    ensures AllDigits(clientId[1..]) ==>
      && AllDigits(clientId[1..] + stamp)
      && ParseInt(clientId + stamp) == Some(Signed(clientId, ValueOf(clientId[1..] + stamp)))
  {
    var s := clientId + stamp;
    assert s[0] == clientId[0] && |s| > 1;
    assert s[1..] == clientId[1..] + stamp;
    AllDigitsAppend(clientId[1..], stamp);
    if AllDigits(clientId[1..]) {
      SignedValue(s, clientId);
    }
  }

  lemma SignedValue(s: string, clientId: string)
    requires |s| > 1 && |clientId| > 0 && s[0] == clientId[0] && IsSign(s[0]) && AllDigits(s[1..])
    ensures ParseInt(s) == Some(Signed(clientId, ValueOf(s[1..])))
  {
  }

  lemma UnsignedLiteral(clientId: string, stamp: string)
    requires AllDigits(stamp) && |stamp| > 0
    requires !(|clientId| > 0 && IsSign(clientId[0]))
    ensures IsIntLiteral(clientId + stamp) <==> AllDigits(clientId)
    ensures AllDigits(clientId) ==> ParseInt(clientId + stamp) == Some(ValueOf(clientId + stamp))
  {
    var s := clientId + stamp;
    AllDigitsAppend(clientId, stamp);
    if clientId == "" {
      assert s == stamp;
      assert IsDigit(s[0]);
    } else {
      assert s[0] == clientId[0];
    }
  }

  /** get_invoice_number with the clock read once:
      int(client_id + str(year) + str(month)). */
  function InvoiceNumber(clientId: string, now: Clock): (r: Result<int, Error>)
    ensures r.Ok? <==> NumericClientId(clientId)
    ensures r.Ok? ==>
      && AllDigits(Magnitude(clientId) + Stamp(now))
      && r.value == Signed(clientId, ValueOf(Magnitude(clientId) + Stamp(now)))
    ensures r.Err? ==> r.error == InvalidIntLiteral(clientId + Stamp(now))
  {
    var literal := clientId + Stamp(now);
    LiteralAccepted(clientId, Stamp(now));
    match ParseInt(literal)
    case Some(n) => Ok(n)
    case None => Err(InvalidIntLiteral(literal))
  }

  lemma {:induction false} MulAtLeast(x: int, b: int)
    requires x >= 1 && b >= 0
    ensures x * b >= b
    decreases x
  {
    if x > 1 {
      MulAtLeast(x - 1, b);
      assert x * b == (x - 1) * b + b;
    }
  }

  lemma DivModUnique(a: int, b: int, c: int)
    requires b > 0 && 0 <= c < b
    ensures (a * b + c) / b == a && (a * b + c) % b == c
  {
    var n := a * b + c;
    var q, r := n / b, n % b;
    assert n == q * b + r && 0 <= r < b;
    assert (q - a) * b == c - r;
    if q > a {
      MulAtLeast(q - a, b);
    } else if q < a {
      MulAtLeast(a - q, b);
    }
  }

  /** The stamp is the year shifted left past the month, plus the month. */
  lemma StampValue(now: Clock)
    ensures var py, pm := Pow10(|Digits(now.year)|), Pow10(|Digits(now.month)|);
      && ValueOf(Stamp(now)) == now.year * pm + now.month
      && Pow10(|Stamp(now)|) == py * pm
  {
    ValueOfAppend(Digits(now.year), Digits(now.month));
    Pow10Add(|Digits(now.year)|, |Digits(now.month)|);
  }

  /** For a digits-only client id the number is the client id's value
      shifted left past the stamp, plus the year shifted past the month,
      plus the month. */
  lemma InvoiceNumberValue(clientId: string, now: Clock)
    requires AllDigits(clientId)
    ensures InvoiceNumber(clientId, now).Ok?
    ensures var y, m := |Digits(now.year)|, |Digits(now.month)|;
      InvoiceNumber(clientId, now).value
      == (ValueOf(clientId) * Pow10(y) + now.year) * Pow10(m) + now.month
  {
    DigitsOnlyNumber(clientId, now);
    StampValue(now);
    Regroup(ValueOf(clientId), Pow10(|Digits(now.year)|), Pow10(|Digits(now.month)|), now.year, now.month);
  }

  lemma DigitsOnlyNumber(clientId: string, now: Clock)
    requires AllDigits(clientId)
    ensures InvoiceNumber(clientId, now).Ok?
    ensures InvoiceNumber(clientId, now).value == ValueOf(clientId) * Pow10(|Stamp(now)|) + ValueOf(Stamp(now))
  {
    assert Magnitude(clientId) == clientId && Signed(clientId, 1) == 1 by {
      if |clientId| > 0 { assert IsDigit(clientId[0]); }
    }
    ValueOfAppend(clientId, Stamp(now));
  }

  lemma Regroup(c: int, py: int, pm: int, year: int, month: int)
    ensures c * (py * pm) + (year * pm + month) == (c * py + year) * pm + month
  {
  }

  /** For a digits-only client id the number reads back as the client id,
      the year and the month of the reading. */
  lemma InvoiceNumberDecodes(clientId: string, now: Clock)
    requires AllDigits(clientId)
    ensures InvoiceNumber(clientId, now).Ok?
    ensures var n := InvoiceNumber(clientId, now).value;
      var y, m := |Digits(now.year)|, |Digits(now.month)|;
      && n % Pow10(m) == now.month
      && (n / Pow10(m)) % Pow10(y) == now.year
      && (n / Pow10(m)) / Pow10(y) == ValueOf(clientId)
  {
    var ys, ms := Digits(now.year), Digits(now.month);
    ValueOfBound(ys);
    ValueOfBound(ms);
    InvoiceNumberValue(clientId, now);
    var high := ValueOf(clientId) * Pow10(|ys|) + now.year;
    DivModUnique(high, Pow10(|ms|), now.month);
    DivModUnique(ValueOf(clientId), Pow10(|ys|), now.year);
  }

  /** int() drops leading zeros, so client ids "7" and "07" share numbers. */
  lemma LeadingZeroCollision(clientId: string, now: Clock)
    requires AllDigits(clientId)
    ensures InvoiceNumber("0" + clientId, now) == InvoiceNumber(clientId, now)
  {
    assert IsDigit('0');
    AllDigitsAppend("0", clientId);
    InvoiceNumberValue(clientId, now);
    InvoiceNumberValue("0" + clientId, now);
    LeadingZeroIgnored(clientId);
  }

  /** get_invoice_number as written: the year and the month come from two
      separate readings of the clock. */
  function InvoiceNumberAsWritten(clientId: string, yearReading: Clock, monthReading: Clock): (r: Result<int, Error>)
    ensures r == InvoiceNumber(clientId, Clock(yearReading.year, monthReading.month, monthReading.day))
  {
    var literal := clientId + Digits(yearReading.year) + Digits(monthReading.month);
    assert literal == clientId + Stamp(Clock(yearReading.year, monthReading.month, monthReading.day));
    match ParseInt(literal)
    case Some(n) => Ok(n)
    case None => Err(InvalidIntLiteral(literal))
  }

  /** Read across midnight on New Year's Eve 2024, the two readings give the
      number of January 2024, which neither reading's month has. */
  lemma SplitReadingAtNewYear(clientId: string, lastDay: int, anyDay: int)
    requires AllDigits(clientId)
    ensures var asWritten := InvoiceNumberAsWritten(clientId, Clock(2024, 12, lastDay), Clock(2025, 1, lastDay + 1));
      && asWritten == InvoiceNumber(clientId, Clock(2024, 1, anyDay))
      && asWritten != InvoiceNumber(clientId, Clock(2024, 12, lastDay))
      && asWritten != InvoiceNumber(clientId, Clock(2025, 1, lastDay + 1))
  {
    var jan24, dec24, jan25 := Clock(2024, 1, anyDay), Clock(2024, 12, lastDay), Clock(2025, 1, lastDay + 1);
    DigitsLength(2024, 3);
    DigitsLength(2025, 3);
    DigitsLength(1, 0);
    DigitsLength(12, 1);
    InvoiceNumberValue(clientId, jan24);
    InvoiceNumberValue(clientId, dec24);
    InvoiceNumberValue(clientId, jan25);
    var x := ValueOf(clientId) * Pow10(4);
    assert InvoiceNumber(clientId, jan24).value == (x + 2024) * 10 + 1;
    assert InvoiceNumber(clientId, dec24).value == (x + 2024) * 100 + 12;
    assert InvoiceNumber(clientId, jan25).value == (x + 2025) * 10 + 1;
  }

  // ---------------------------------------------------------------------
  // The invoice document (pyinvoice's SimpleInvoice) and the PDF file
  // ---------------------------------------------------------------------

  /** InvoiceInfo(number, invoice date, due date); dates are day numbers. */
  datatype InvoiceInfo = InvoiceInfo(number: int, invoiceDate: int, dueDate: int)

  /** Item(**item): the keyword arguments the item was built from. */
  datatype Item = Item(arguments: map<string, Json>)

  /** What doc.finish() renders: the document's content at that point. */
  datatype Pdf = Pdf(
    info: Option<InvoiceInfo>,
    provider: map<string, Json>,
    client: map<string, Json>,
    items: seq<Item>,
    bottomTip: string)

  /** The files the process can write to and read from. */
  class FileSystem {
    var files: map<string, Pdf>

    constructor()
      ensures files == map[]
    {
      files := map[];
    }
  }

  class SimpleInvoice {
    var path: string
    var invoiceInfo: Option<InvoiceInfo>
    var serviceProviderInfo: map<string, Json>
    var clientInfo: map<string, Json>
    var items: seq<Item>
    var bottomTip: string

    constructor(path: string)
      ensures this.path == path && invoiceInfo == None
      ensures serviceProviderInfo == map[] && clientInfo == map[]
      ensures items == [] && bottomTip == ""
    {
      this.path := path;
      invoiceInfo := None;
      serviceProviderInfo := map[];
      clientInfo := map[];
      items := [];
      bottomTip := "";
    }

    function Rendered(): Pdf
      reads this
    {
      Pdf(invoiceInfo, serviceProviderInfo, clientInfo, items, bottomTip)
    }

    method AddItem(item: Item)
      modifies this
      ensures items == old(items) + [item]
      ensures path == old(path) && invoiceInfo == old(invoiceInfo)
      ensures serviceProviderInfo == old(serviceProviderInfo) && clientInfo == old(clientInfo)
      ensures bottomTip == old(bottomTip)
    {
      items := items + [item];
    }

    method SetBottomTip(tip: string)
      modifies this
      ensures bottomTip == tip
      ensures path == old(path) && invoiceInfo == old(invoiceInfo)
      ensures serviceProviderInfo == old(serviceProviderInfo) && clientInfo == old(clientInfo)
      ensures items == old(items)
    {
      bottomTip := tip;
    }

    /** Renders the document into the file at its path. */
    method Finish(fs: FileSystem)
      modifies fs
      ensures fs.files == old(fs.files)[path := Rendered()]
    {
      fs.files := fs.files[path := Rendered()];
    }
  }

  function BottomTip(providerEmail: string): string
  {
    "Thanks for your business!<br />Email: " + providerEmail + "<br />Don't hesitate to contact us for any questions."
  }

  /** One Item per line item, in list order. */
  function LineItemsOf(config: Json): (items: seq<Item>)
    requires Readable(config)
    ensures var source := config.fields["line_items"].items;
      |items| == |source| && forall k :: 0 <= k < |source| ==> source[k] == Object(items[k].arguments)
  {
    var source := config.fields["line_items"].items;
    seq(|source|, k requires 0 <= k < |source| => Item(source[k].fields))
  }

  /** The document build_invoice renders for invoice number `number`, issued
      on the day of the reading. */
  function RenderedInvoice(config: Json, number: int, now: Clock): (r: Pdf)
    requires Readable(config)
    ensures r.info.Some? && r.info.value.number == number
    ensures |r.items| == |config.fields["line_items"].items|
  {
    Pdf(Some(InvoiceInfo(number, now.day, now.day + NetDays(config))),
        ProviderInfo(config), ClientInfo(config), LineItemsOf(config),
        BottomTip(ProviderEmail(config)))
  }

  /** The due date is the issue date plus the net days: 30 by default, and
      never more than 120. */
  lemma DueDate(config: Json, number: int, now: Clock)
    requires Readable(config)
    ensures var info := RenderedInvoice(config, number, now).info.value;
      && info.number == number
      && info.invoiceDate == now.day
      && info.dueDate == now.day + NetDays(config)
      && now.day + 1 <= info.dueDate <= now.day + 120
      && ("net" !in config.fields["agreement_info"].fields ==> info.dueDate == now.day + DefaultNet)
  {
  }

  /** build_invoice: renders the invoice and writes it to PdfPath; nothing
      is written when the invoice number cannot be formed. */
  method BuildInvoice(config: Json, now: Clock, fs: FileSystem) returns (o: Outcome<Error>)
    requires Readable(config)
    modifies fs
    ensures var number := InvoiceNumber(ClientId(config), now);
      && (number.Err? ==> o == Fail(number.error) && fs.files == old(fs.files))
      && (number.Ok? ==> o == Pass && fs.files == old(fs.files)[PdfPath := RenderedInvoice(config, number.value, now)])
  {
    var net := NetDays(config);
    var number := InvoiceNumber(ClientId(config), now);
    if number.Err? {
      return Fail(number.error);
    }
    var doc := new SimpleInvoice(PdfPath);
    doc.invoiceInfo := Some(InvoiceInfo(number.value, now.day, now.day + net));
    doc.serviceProviderInfo := ProviderInfo(config);
    doc.clientInfo := ClientInfo(config);

    var lineItems := config.fields["line_items"].items;
    var i := 0;
    while i < |lineItems|
      invariant 0 <= i <= |lineItems|
      invariant doc.items == LineItemsOf(config)[..i]
      invariant doc.path == PdfPath && doc.invoiceInfo == Some(InvoiceInfo(number.value, now.day, now.day + net))
      invariant doc.serviceProviderInfo == ProviderInfo(config) && doc.clientInfo == ClientInfo(config)
      invariant doc.bottomTip == ""
      invariant fs.files == old(fs.files)
    {
      doc.AddItem(Item(lineItems[i].fields));
      i := i + 1;
    }

    assert doc.items == LineItemsOf(config);
    doc.SetBottomTip(BottomTip(ProviderEmail(config)));
    doc.Finish(fs);
    return Pass;
  }

  // ---------------------------------------------------------------------
  // The email message (MIMEMultipart)
  // ---------------------------------------------------------------------

  datatype Part =
    | TextPart(text: string)
    | Attachment(data: Pdf, disposition: string, filename: string)

  /** A message as as_string() would serialise it. */
  datatype Email = Email(headers: seq<(string, string)>, preamble: string, parts: seq<Part>)

  class MimeMultipart {
    var headers: seq<(string, string)>
    var preamble: string
    var parts: seq<Part>

    constructor()
      ensures headers == [] && preamble == "" && parts == []
    {
      headers := [];
      preamble := "";
      parts := [];
    }

    function Message(): Email
      reads this
    {
      Email(headers, preamble, parts)
    }

    /** msg[name] = value adds a header after the existing ones. */
    method SetHeader(name: string, value: string)
      modifies this
      ensures headers == old(headers) + [(name, value)]
      ensures preamble == old(preamble) && parts == old(parts)
    {
      headers := headers + [(name, value)];
    }

    method Attach(part: Part)
      modifies this
      ensures parts == old(parts) + [part]
      ensures headers == old(headers) && preamble == old(preamble)
    {
      parts := parts + [part];
    }
  }

  /** msg[name]: the first header with that name. */
  function HeaderValue(headers: seq<(string, string)>, name: string): Option<string>
  {
    if headers == [] then None
    else if headers[0].0 == name then Some(headers[0].1)
    else HeaderValue(headers[1..], name)
  }

  const SubjectPrefix := "Invoice - "
  const Preamble := "Your monthly invoice is attached.\n"
  const BodyText := "Hi -- please find attached your monthly invoice."
  const AttachmentName := "invoice.pdf"

  function SubjectHeader(number: int): (r: string)
    ensures SubjectPrefix <= r && ParseInt(r[|SubjectPrefix|..]) == Some(number)
  {
    ParseIntOfIntToString(number);
    SubjectPrefix + IntToString(number)
  }

  /** "{} <{}>".format(name, email). */
  function FromHeader(name: string, email: string): (r: string)
    ensures |r| == |name| + |email| + 3 && name <= r
    ensures r[|r| - 1 - |email|..|r| - 1] == email
  {
    name + " <" + email + ">"
  }

  /** ", ".join(emails). */
  function JoinComma(emails: seq<string>): (r: string)
    ensures emails != [] ==> emails[0] <= r
  {
    if emails == [] then ""
    else if |emails| == 1 then emails[0]
    else emails[0] + ", " + JoinComma(emails[1..])
  }

  /** The message build_email returns for invoice number `number`, with
      `pdf` the content of the file at PdfPath. */
  function InvoiceEmail(config: Json, number: int, pdf: Pdf): (r: Email)
    requires Readable(config)
    ensures |r.headers| == 3 && r.headers[0].0 == "Subject" && r.headers[1].0 == "From" && r.headers[2].0 == "To"
    ensures |r.parts| == 2 && r.parts[0].TextPart? && r.parts[1] == Attachment(pdf, "attachment", AttachmentName)
  {
    Email(
      [("Subject", SubjectHeader(number)),
       ("From", FromHeader(ProviderName(config), ProviderEmail(config))),
       ("To", JoinComma(ClientEmails(config)))],
      Preamble,
      [TextPart(BodyText), Attachment(pdf, "attachment", AttachmentName)])
  }

  /** The Subject, From and To headers of the message, as a reader of the
      header list finds them. */
  lemma InvoiceEmailHeaders(config: Json, number: int, pdf: Pdf)
    requires Readable(config)
    ensures var h := InvoiceEmail(config, number, pdf).headers;
      && HeaderValue(h, "Subject") == Some(SubjectHeader(number))
      && HeaderValue(h, "From") == Some(FromHeader(ProviderName(config), ProviderEmail(config)))
      && HeaderValue(h, "To") == Some(JoinComma(ClientEmails(config)))
  {
    var h := InvoiceEmail(config, number, pdf).headers;
    assert h[1..][1..] == [h[2]];
    assert HeaderValue([h[2]], "To") == Some(h[2].1);
  }

  /** build_email: the number is formed before the PDF is read, so a bad
      client id fails before a missing file does. */
  method BuildEmail(config: Json, now: Clock, fs: FileSystem) returns (r: Result<MimeMultipart, Error>)
    requires Readable(config)
    ensures var number := InvoiceNumber(ClientId(config), now);
      && (number.Err? ==> r == Err(number.error))
      && (number.Ok? && PdfPath !in fs.files ==> r == Err(FileNotFound(PdfPath)))
      && (number.Ok? && PdfPath in fs.files ==>
            r.Ok? && fresh(r.value) && r.value.Message() == InvoiceEmail(config, number.value, fs.files[PdfPath]))
  {
    var msg := new MimeMultipart();
    var number := InvoiceNumber(ClientId(config), now);
    if number.Err? {
      return Err(number.error);
    }
    msg.SetHeader("Subject", SubjectHeader(number.value));
    msg.SetHeader("From", FromHeader(ProviderName(config), ProviderEmail(config)));
    msg.SetHeader("To", JoinComma(ClientEmails(config)));
    msg.preamble := Preamble;
    msg.Attach(TextPart(BodyText));
    if PdfPath !in fs.files {
      return Err(FileNotFound(PdfPath));
    }
    msg.Attach(Attachment(fs.files[PdfPath], "attachment", AttachmentName));
    return Ok(msg);
  }

  // ---------------------------------------------------------------------
  // The headers read back
  // ---------------------------------------------------------------------

  /** The number follows "Invoice - " in the Subject and reads back. */
  lemma SubjectCarriesNumber(number: int)
    ensures SubjectPrefix <= SubjectHeader(number)
    ensures ParseInt(SubjectHeader(number)[|SubjectPrefix|..]) == Some(number)
  {
    assert SubjectHeader(number)[|SubjectPrefix|..] == IntToString(number);
    ParseIntOfIntToString(number);
  }

  /** The index of the first c in s. */
  function FirstIndex(s: string, c: char): (i: nat)
    requires c in s
    ensures i < |s| && s[i] == c && c !in s[..i]
  {
    if s[0] == c then 0
    else
      assert c in s[1..] by {
        var k :| 0 <= k < |s| && s[k] == c;
        assert s[1..][k - 1] == c;
      }
      var i := 1 + FirstIndex(s[1..], c);
      assert s[..i] == [s[0]] + s[1..][..i - 1];
      i
  }

  /** Splits a To header at each comma, dropping the one character that
      follows it. */
  function SplitComma(s: string): seq<string>
    decreases |s|
  {
    if ',' !in s then [s]
    else
      var i := FirstIndex(s, ',');
      [s[..i]] + SplitComma(s[if i + 2 <= |s| then i + 2 else |s|..])
  }

  lemma FirstIndexAt(s: string, c: char, k: nat)
    requires k < |s| && s[k] == c && c !in s[..k]
    ensures FirstIndex(s, c) == k
  {
  }

  /** When no address contains a comma, the To header lists the client
      emails in order and nothing else. */
  lemma {:induction false} ToHeaderSplits(emails: seq<string>)
    requires emails != []
    requires forall e :: e in emails ==> ',' !in e
    ensures SplitComma(JoinComma(emails)) == emails
  {
    if |emails| == 1 {
      assert emails[0] in emails;
    } else {
      var head, rest := emails[0], JoinComma(emails[1..]);
      assert head in emails;
      var s := head + ", " + rest;
      assert s[..|head|] == head;
      assert s[|head|] == ',';
      FirstIndexAt(s, ',', |head|);
      assert s[|head| + 2..] == rest;
      assert forall e :: e in emails[1..] ==> e in emails;
      ToHeaderSplits(emails[1..]);
    }
  }

  /** The text after the last c in s (all of s when c does not occur). */
  function AfterLast(s: string, c: char): string
  {
    if s == [] then []
    else if s[|s| - 1] == c then []
    else AfterLast(s[..|s| - 1], c) + [s[|s| - 1]]
  }

  /** The address inside the trailing <...> of a From header. */
  function AddressOf(header: string): string
  {
    if |header| > 0 && header[|header| - 1] == '>' then AfterLast(header[..|header| - 1], '<') else ""
  }

  lemma {:induction false} AfterLastSuffix(u: string, c: char, t: string)
    requires c !in t
    ensures AfterLast(u + [c] + t, c) == t
  {
    var s := u + [c] + t;
    if t != [] {
      var t' := t[..|t| - 1];
      assert s[..|s| - 1] == u + [c] + t';
      assert s[|s| - 1] == t[|t| - 1];
      assert forall x :: x in t' ==> x in t;
      AfterLastSuffix(u, c, t');
    }
  }

  /** The From header names the provider email after the last '<', whatever
      the provider's name. */
  lemma FromHeaderAddress(name: string, email: string)
    requires '<' !in email
    ensures AddressOf(FromHeader(name, email)) == email
  {
    var h := FromHeader(name, email);
    assert h[..|h| - 1] == (name + " ") + ['<'] + email;
    AfterLastSuffix(name + " ", '<', email);
  }
}
