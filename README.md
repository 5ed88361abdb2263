# invoiceless, modelled in Dafny

invoiceless is a small invoicing service that runs behind an HTTP API. Its core does four things:

- It validates an invoice description (a JSON document) against one fixed JSON Schema (draft-04).
- It turns a valid description into a PDF invoice and an email that carries it.
- It sends that email.
- It can register a recurring schedule with a cloud event scheduler. Each time the schedule fires, it posts the same description back to the API.

This project models that core and proves properties of it:

- **`Json`, `Decimal`** (json.dfy, decimal.dfy):
  - the JSON values the service handles, with Python truthiness and `str()`;
  - `json.loads`/`json.dumps` as an abstract codec;
  - `str(int)` and `int(str)` on decimal digit strings.
- **`InvoiceSchema`** (schema.dfy):
  - the draft-04 checks the schema uses: `type`, `properties`, `required`, `minimum`, `maximum`, `items`, `minItems` and `uniqueItems`;
  - the violations found, in the order the validator finds them;
  - `validate_schema`, which stably sorts them by path;
  - an independent predicate `Conforms` that says what a valid invoice is.
- **`Invoicer`** (invoicer.dfy):
  - the invoice number;
  - the net-days default and the due date;
  - the PDF document, built step by step, and writing it to the file system;
  - the MIME message and its Subject/From/To headers.
- **`Ses`** (ses.dfy): the mail service, as a log of sent messages.
- **`CloudwatchEvents`** (cloudwatch_events.dfy):
  - the event scheduler, as a class holding a rule table and a call log;
  - the four scheduler functions of the service;
  - each one has a pure step function that specifies it.
- **`ApiHandlers`** (api_handlers.dfy):
  - the router;
  - the catch-all that turns any failure into a 400 response;
  - the send, schedule and unschedule pipelines.

Exceptions are values of `Errors.Error`. The current time is one `Clock` reading, passed in as a parameter.

Where the code and its description disagree, the model follows the code:

- **`schedule_expression`.** The schema leaves it optional. The schedule pipeline refuses a missing or empty one itself (`api_handlers.py:51-53`).
- **The duplicate guard.** It matches rule names by prefix, not exactly (`cloudwatch_events.py:16-20`).
- **A missing `client_id`.** An unschedule request without one formats the client id `None` into the path. It therefore routes only for the literal path `/invoices/scheduled/None`, and then acts on the rule `invoiceless-recurring-None`.

## Model

| member | source | states |
|---|---|---|
| Decimal.Digits | invoiceless/invoicer.py:136 | `str()` of a natural number is a digit string without leading zeros whose decimal value is the number |
| Decimal.ParseInt | invoiceless/invoicer.py:136 | `int()` accepts exactly an optional sign followed by one or more ASCII digits |
| Decimal.ParseIntOfIntToString | invoiceless/invoicer.py:156 | `int(str(n)) == n` for every integer, so the Subject's number reads back as the number |
| Decimal.ValueOfAppend | invoiceless/invoicer.py:136 | appending digit string b to a shifts a left by \|b\| digits and adds b's value |
| Decimal.AllDigitsAppend | invoiceless/invoicer.py:136 | a concatenation is all digits iff both parts are |
| Decimal.LeadingZeroIgnored | invoiceless/invoicer.py:136 | a leading '0' does not change a digit string's value |
| Decimal.ValueOfBound | invoiceless/invoicer.py:136 | a k-digit string is worth less than 10^k |
| Decimal.Pow10Add | invoiceless/invoicer.py:136 | 10^(a+b) = 10^a · 10^b |
| Decimal.DigitsLength | invoiceless/invoicer.py:136 | a number between 10^k and 10^(k+1) has k+1 digits |
| InvoiceSchema.Violations | invoiceless/invoicer.py:130-131 | every violation of SCHEMA in the order the validator finds them; a document that is not an object gets the one root type violation (its meaning is ViolationsEmptyIffConforms) |
| InvoiceSchema.ValidateSchema | invoiceless/invoicer.py:129-133 | passes iff the violation list is empty, iff the invoice conforms; otherwise fails with a nonempty list sorted by path that is a permutation of the violations |
| InvoiceSchema.ViolationsEmptyIffConforms | invoiceless/invoicer.py:19-127 | the schema-ordered violation list is empty exactly when the invoice satisfies every rule of SCHEMA |
| InvoiceSchema.TopPropertiesEmpty | invoiceless/invoicer.py:21-126 | with the four required sections present, the property checks find nothing iff each section is valid |
| InvoiceSchema.PartyEmpty | invoiceless/invoicer.py:25-74 | the provider/client section checks find nothing iff it is an object, its listed properties are strings and its required keys are present |
| InvoiceSchema.AgreementEmpty | invoiceless/invoicer.py:76-100 | the agreement checks find nothing iff net, client_emails, provider_email and verified_sender_arn obey their rules and the required keys are present |
| InvoiceSchema.ClientEmailsEmpty | invoiceless/invoicer.py:84-91 | client_emails is accepted iff it is an array of strings with at least one element and no duplicates |
| InvoiceSchema.SameStringValue | invoiceless/invoicer.py:90 | on strings, the equality uniqueItems uses is string equality |
| InvoiceSchema.IntFloatDuplicate | invoiceless/invoicer.py:90 | 1 and 1.0 are different JSON values but duplicates for uniqueItems, as Python's == makes them |
| InvoiceSchema.LineItemsEmpty | invoiceless/invoicer.py:102-124 | line_items is accepted iff it is an array whose every item is valid |
| InvoiceSchema.LineItemEmpty | invoiceless/invoicer.py:104-122 | a line item is accepted iff it is an object with string name/description, integer units ≥ 1, number unit_price ≥ 0.01 and the three required keys |
| InvoiceSchema.MissingKeysEmpty | invoiceless/invoicer.py:47 | `required` reports nothing iff every listed key is present |
| InvoiceSchema.StringPropertiesEmpty | invoiceless/invoicer.py:28-45 | string-typed properties report nothing iff each present one is a string |
| InvoiceSchema.StringItemsEmpty | invoiceless/invoicer.py:86-88 | `items: string` reports nothing iff every item is a string |
| InvoiceSchema.LineItemListEmpty | invoiceless/invoicer.py:104-123 | the per-item checks report nothing iff every item is valid |
| InvoiceSchema.PathLessTotal | invoiceless/invoicer.py:131 | the path order used for sorting is irreflexive, total and asymmetric |
| InvoiceSchema.PathLessTransitive | invoiceless/invoicer.py:131 | the path order is transitive |
| InvoiceSchema.StringLessTotal | invoiceless/invoicer.py:131 | the key order is irreflexive, total and asymmetric |
| InvoiceSchema.StringLessTransitive | invoiceless/invoicer.py:131 | the key order is transitive |
| InvoiceSchema.ElemLessTotal | invoiceless/invoicer.py:131 | the order on path steps is irreflexive, total and asymmetric |
| InvoiceSchema.ElemLessTransitive | invoiceless/invoicer.py:131 | the order on path steps is transitive |
| InvoiceSchema.NotAfterTransitive | invoiceless/invoicer.py:131 | "not after" on violations is transitive |
| InvoiceSchema.Insert | invoiceless/invoicer.py:131 | inserting adds exactly the one violation |
| InvoiceSchema.InsertSorted | invoiceless/invoicer.py:131 | insertion into a sorted list keeps it sorted |
| InvoiceSchema.SortByPath | invoiceless/invoicer.py:131 | `sorted(..., key=path)` returns a sorted permutation |
| InvoiceSchema.InsertStable | invoiceless/invoicer.py:131 | insertion places the new violation before the others at its path |
| InvoiceSchema.SortByPathStable | invoiceless/invoicer.py:131 | the sort is stable: violations at one path keep the order the validator found them in |
| InvoiceSchema.AllViolationsShaped | invoiceless/invoicer.py:19-127 | in every reported path, whether a step is an array index is fixed by the steps before it |
| InvoiceSchema.NoMixedComparison | invoiceless/invoicer.py:131 | two reported paths never compare a key with an index at the same step, so sorting never compares a string with an integer |
| InvoiceSchema.Reported | invoiceless/invoicer.py:129-133 | every violation the schema finds appears in the raised list |
| InvoiceSchema.ReportedFromSection | invoiceless/invoicer.py:21-124 | a violation found inside a top-level section appears in the raised list |
| InvoiceSchema.ReportedFromAgreementProperty | invoiceless/invoicer.py:78-98 | a violation found in an agreement property appears in the raised list |
| InvoiceSchema.ReportedFromClientEmails | invoiceless/invoicer.py:84-91 | a violation found in client_emails appears in the raised list |
| InvoiceSchema.ReportedFromLineItem | invoiceless/invoicer.py:104-122 | a violation found in line item k appears in the raised list |
| InvoiceSchema.MissingKeysContains | invoiceless/invoicer.py:47 | a missing required key is reported at the object's path |
| InvoiceSchema.MissingSectionReported | invoiceless/invoicer.py:126 | a config missing agreement_info, service_provider_info, client_info or line_items is rejected with that `required` violation |
| InvoiceSchema.MissingFieldReported | invoiceless/invoicer.py:47-100 | a config missing client_id, client name, provider name, client_emails or provider_email is rejected with that violation |
| InvoiceSchema.NetRuleReported | invoiceless/invoicer.py:79-83 | a net that is not an integer, below 1 or above 120 is rejected with the matching violation |
| InvoiceSchema.ClientEmailsRuleReported | invoiceless/invoicer.py:84-91 | client_emails that is not an array, is empty or has duplicates is rejected with the matching violation |
| InvoiceSchema.StringItemsContains | invoiceless/invoicer.py:86-88 | a non-string item is reported at its index |
| InvoiceSchema.ClientEmailItemReported | invoiceless/invoicer.py:86-88 | a non-string client email is rejected at its index |
| InvoiceSchema.LineItemListContains | invoiceless/invoicer.py:104-123 | a violation inside item k is among the per-item violations |
| InvoiceSchema.LineItemFieldReported | invoiceless/invoicer.py:122 | a line item missing name, units or unit_price is rejected |
| InvoiceSchema.UnitsReported | invoiceless/invoicer.py:113-116 | units that is not an integer ≥ 1 is rejected with the type or minimum violation |
| InvoiceSchema.UnitPriceReported | invoiceless/invoicer.py:117-120 | unit_price that is not a number ≥ 0.01 is rejected with the type or minimum violation |
| InvoiceSchema.EmptyLineItemsAccepted | invoiceless/invoicer.py:102-124 | emptying line_items of a valid config keeps it valid (there is no minItems) |
| Errors.Message | invoiceless/api_handlers.py:40 | `str(e)` is exact for the two messages the handlers raise and for a missing route key that is a string (its repr) or None ("None"); an invalid format starts with the validator's prefix |
| Errors.PyRepr | invoiceless/api_handlers.py:30-40 | `str(KeyError(key))`: "None", "True"/"False", an integer that parses back, or a string between the quote repr() chooses |
| Errors.StrRepr | invoiceless/api_handlers.py:40 | repr() of a string opens and closes with the quote it chooses |
| Errors.StrReprRoundTrip | invoiceless/api_handlers.py:40 | unescaping the text between repr()'s quotes gives the string back, so the 400 body names the missing key exactly |
| Errors.PlainRepr | invoiceless/api_handlers.py:40 | a key with no quote, backslash or control character is shown as 'key' |
| Errors.QuoteSwitch | invoiceless/api_handlers.py:40 | a key holding a single quote and no double quote is shown between double quotes: "it's" |
| Invoicer.ConformingIsReadable | invoiceless/invoicer.py:139-158 | every lookup build_invoice and build_email make succeeds on a valid config |
| Invoicer.ValidatedIsReadable | invoiceless/invoicer.py:129-133 | what validate_schema accepts, the pipelines can read |
| Invoicer.ConformingHasRecipients | invoiceless/invoicer.py:89 | a valid config has at least one client email |
| Invoicer.ClientEmails | invoiceless/invoicer.py:158 | the recipient list is client_emails, element by element |
| Invoicer.NetDays | invoiceless/invoicer.py:139 | net is 30 when absent and the given integer, between 1 and 120, when present |
| Invoicer.Stamp | invoiceless/invoicer.py:136 | `str(year) + str(month)` is a digit string of at least two characters |
| Invoicer.LiteralAccepted | invoiceless/invoicer.py:136 | `int(client_id + stamp)` succeeds iff client_id is an optional sign and digits; its value is the signed value of the digits |
| Invoicer.SignedLiteral | invoiceless/invoicer.py:136 | with a signed client_id, the literal parses iff the rest is digits, to the signed value |
| Invoicer.SignedValue | invoiceless/invoicer.py:136 | a sign followed by digits parses to the signed value of the digits |
| Invoicer.UnsignedLiteral | invoiceless/invoicer.py:136 | with an unsigned client_id, the literal parses iff client_id is digits, to the value of the concatenation |
| Invoicer.InvoiceNumber | invoiceless/invoicer.py:135-136 | get_invoice_number succeeds iff client_id is numeric, with the value of client_id ++ year ++ month; otherwise it raises the int() error |
| Invoicer.StampValue | invoiceless/invoicer.py:136 | the stamp's value is year shifted by the month's digits plus the month |
| Invoicer.InvoiceNumberValue | invoiceless/invoicer.py:135-136 | for a digit client_id the number is (client_id · 10^\|year\| + year) · 10^\|month\| + month |
| Invoicer.DigitsOnlyNumber | invoiceless/invoicer.py:135-136 | for a digit client_id the number is client_id shifted past the stamp plus the stamp |
| Invoicer.InvoiceNumberDecodes | invoiceless/invoicer.py:135-136 | month, year and client_id can be read back from the number by division |
| Invoicer.LeadingZeroCollision | invoiceless/invoicer.py:136 | client ids "07" and "7" get the same invoice number |
| Invoicer.InvoiceNumberAsWritten | invoiceless/invoicer.py:136 | the number as written: the year from one clock reading, the month from another |
| Invoicer.SplitReadingAtNewYear | invoiceless/invoicer.py:136 | readings across a new year give January of the old year's number, which matches neither reading |
| Invoicer.FileSystem.constructor | invoiceless/invoicer.py:17 | the file system starts empty |
| Invoicer.SimpleInvoice.constructor | invoiceless/invoicer.py:142 | a new document has the path and no content |
| Invoicer.SimpleInvoice.AddItem | invoiceless/invoicer.py:148 | appends one item and changes nothing else |
| Invoicer.SimpleInvoice.SetBottomTip | invoiceless/invoicer.py:150 | sets the tip and changes nothing else |
| Invoicer.SimpleInvoice.Finish | invoiceless/invoicer.py:152 | writes the rendered document at its path, leaving other files alone |
| Invoicer.LineItemsOf | invoiceless/invoicer.py:147-148 | one Item per line item, in order, with that item's fields as arguments |
| Invoicer.RenderedInvoice | invoiceless/invoicer.py:141-152 | the document build_invoice renders carries the invoice number and one item per line item |
| Invoicer.DueDate | invoiceless/invoicer.py:139-143 | invoice date is today and due date is today + net days, so 1 to 120 days later, and 30 days later when net is absent |
| Invoicer.BuildInvoice | invoiceless/invoicer.py:138-152 | on a numeric client_id writes exactly the rendered invoice to /tmp/invoice.pdf; otherwise raises before writing anything |
| Invoicer.MimeMultipart.constructor | invoiceless/invoicer.py:155 | a new message has no headers, preamble or parts |
| Invoicer.MimeMultipart.SetHeader | invoiceless/invoicer.py:156-158 | appends one header and changes nothing else |
| Invoicer.MimeMultipart.Attach | invoiceless/invoicer.py:162-166 | appends one part and changes nothing else |
| Invoicer.SubjectHeader | invoiceless/invoicer.py:156 | the Subject starts with "Invoice - " and the rest parses back to the number |
| Invoicer.FromHeader | invoiceless/invoicer.py:157 | the From header starts with the name and holds the email just before its closing '>' |
| Invoicer.JoinComma | invoiceless/invoicer.py:158 | the joined To header starts with the first address (ToHeaderSplits gives the inverse) |
| Invoicer.InvoiceEmail | invoiceless/invoicer.py:154-168 | the message build_email returns has the headers Subject, From, To in that order, a text part and then the PDF attached as invoice.pdf |
| Invoicer.InvoiceEmailHeaders | invoiceless/invoicer.py:156-158 | Subject is "Invoice - " + number, From is "name <email>" and To is the client emails joined by ", " |
| Invoicer.BuildEmail | invoiceless/invoicer.py:154-168 | a bad client_id raises first, then a missing PDF file; otherwise a fresh message with the three headers, the preamble, the text part and then the PDF as attachment invoice.pdf |
| Invoicer.SubjectCarriesNumber | invoiceless/invoicer.py:156 | the Subject starts with "Invoice - " and the rest parses back to the number |
| Invoicer.FirstIndex | invoiceless/invoicer.py:158 | the index of the first occurrence of a character |
| Invoicer.FirstIndexAt | invoiceless/invoicer.py:158 | the first occurrence is unique |
| Invoicer.ToHeaderSplits | invoiceless/invoicer.py:158 | splitting the To header at ", " gives back the recipient list, in order, when no address contains a comma |
| Invoicer.AfterLastSuffix | invoiceless/invoicer.py:157 | the text after the last '<' is what followed it |
| Invoicer.FromHeaderAddress | invoiceless/invoicer.py:157 | the address in the From header is provider_email |
| Ses.SesClient.constructor | invoiceless/aws/ses.py:8 | nothing has been sent |
| Ses.SesClient.SendRawEmail | invoiceless/aws/ses.py:11-18 | records one message with its Source, Destinations and SourceArn |
| Ses.SendEmail | invoiceless/aws/ses.py:10-18 | sends the message once, with the given envelope |
| CloudwatchEvents.RuleName | invoiceless/aws/cloudwatch_events.py:12-13 | the rule name is "invoiceless-recurring-" followed by the client id |
| CloudwatchEvents.RuleNameInjective | invoiceless/aws/cloudwatch_events.py:12-13 | different clients get different rule names |
| CloudwatchEvents.MatchingRules | invoiceless/aws/cloudwatch_events.py:16-18 | list_rules(NamePrefix) returns exactly the rules whose name starts with the prefix |
| CloudwatchEvents.EventsClient.constructor | invoiceless/aws/cloudwatch_events.py:10 | no rules and no calls |
| CloudwatchEvents.EventsClient.ListRules | invoiceless/aws/cloudwatch_events.py:16-18 | returns the matching names and changes no rule |
| CloudwatchEvents.EventsClient.PutRule | invoiceless/aws/cloudwatch_events.py:22-28 | creates or replaces one rule, keeping its targets |
| CloudwatchEvents.EventsClient.PutTargets | invoiceless/aws/cloudwatch_events.py:37-46 | adds the target to an existing rule; fails on a missing rule |
| CloudwatchEvents.EventsClient.RemoveTargets | invoiceless/aws/cloudwatch_events.py:50-53 | removes the target; fails on a missing rule or target |
| CloudwatchEvents.EventsClient.DeleteRule | invoiceless/aws/cloudwatch_events.py:57-59 | removes the rule; fails when missing or when it still has targets |
| CloudwatchEvents.PutRuleStep | invoiceless/aws/cloudwatch_events.py:15-28 | refused, with only the listing call and no change, iff some rule name starts with the client's rule name; otherwise adds exactly one ENABLED rule with the schedule and no targets |
| CloudwatchEvents.TargetInput | invoiceless/aws/cloudwatch_events.py:32-36 | the target's input is a POST to /invoices carrying the body, with no path parameters |
| CloudwatchEvents.PutTargetStep | invoiceless/aws/cloudwatch_events.py:31-46 | on an existing rule sets the target with Id = rule name to the serialised POST /invoices input; nothing else changes |
| CloudwatchEvents.DeleteTargetStep | invoiceless/aws/cloudwatch_events.py:49-53 | removes only the target with Id = rule name from that rule |
| CloudwatchEvents.DeleteRuleStep | invoiceless/aws/cloudwatch_events.py:56-59 | removes only that rule, and only once it has no targets |
| CloudwatchEvents.PrefixMatchRefusesExtendedId | invoiceless/aws/cloudwatch_events.py:16-20 | client "ab" is refused while client "abc" has a rule |
| CloudwatchEvents.RuleBeforeTargetRefused | invoiceless/aws/cloudwatch_events.py:56-59 | a rule that still has its target cannot be deleted |
| CloudwatchEvents.PutCloudwatchRule | invoiceless/aws/cloudwatch_events.py:15-28 | the scheduler's table and call log change exactly as PutRuleStep says |
| CloudwatchEvents.PutCloudwatchTarget | invoiceless/aws/cloudwatch_events.py:31-46 | the table and call log change exactly as PutTargetStep says |
| CloudwatchEvents.DeleteCloudwatchTarget | invoiceless/aws/cloudwatch_events.py:49-53 | the table and call log change exactly as DeleteTargetStep says |
| CloudwatchEvents.DeleteCloudwatchRule | invoiceless/aws/cloudwatch_events.py:56-59 | the table and call log change exactly as DeleteRuleStep says |
| ApiHandlers.RequestedClientId | invoiceless/api_handlers.py:19-20 | the client id is None unless pathParameters is truthy; a truthy non-dict raises; otherwise it is pathParameters' client_id, or None when absent |
| ApiHandlers.BodyOrEvent | invoiceless/api_handlers.py:23-24 | the handler argument is the body when the key is present, even when it is None, and the whole event otherwise |
| ApiHandlers.UnschedulePath | invoiceless/api_handlers.py:27 | the DELETE route is /invoices/scheduled/ followed by str() of the client id |
| ApiHandlers.Route | invoiceless/api_handlers.py:17-30 | POST /invoices → send(body or event), POST /invoices/scheduled → schedule(body or event), DELETE /invoices/scheduled/<id> → unschedule(id), each iff; any other pair has no entry |
| ApiHandlers.MissingMethodRefused | invoiceless/api_handlers.py:30-41 | a request without httpMethod gets status 400 with body "None" |
| ApiHandlers.Respond | invoiceless/api_handlers.py:32-41 | status is 200 or 400; 200 iff the handler returned; a body, `str(e)`, only with 400 |
| ApiHandlers.LoadConfig | invoiceless/api_handlers.py:48-60 | non-string, undecodable and invalid bodies raise their errors; a valid one is returned unchanged and is readable |
| ApiHandlers.LoadConfigValidates | invoiceless/invoicer.py:129-133 | a decoded body is accepted iff it conforms; otherwise the error lists every violation, sorted |
| ApiHandlers.ValidatedConfigReloads | invoiceless/api_handlers.py:56 | a valid config that the codec writes out and reads back unchanged loads and validates back to itself |
| ApiHandlers.SendConfig | invoiceless/api_handlers.py:61-69 | after validation: the rendered PDF and one message to client_emails from provider_email with verified_sender_arn or None, or the int() error |
| ApiHandlers.SendPlan | invoiceless/api_handlers.py:58-69 | a body that fails to load or validate yields that error and no PDF or message |
| ApiHandlers.SendValidated | invoiceless/api_handlers.py:61-69 | writes the PDF and sends the message SendConfig describes, or changes nothing |
| ApiHandlers.SendInvoice | invoiceless/api_handlers.py:58-69 | nothing is written or sent unless validation passes; then exactly the PDF and the one message of SendPlan |
| ApiHandlers.SubjectMatchesAttachedInvoice | invoiceless/invoicer.py:140-156 | with one clock reading, the Subject's number is the number on the attached invoice, and the attachment is the last part |
| ApiHandlers.ToHeaderMatchesEnvelope | invoiceless/api_handlers.py:67 | the To header splits back to the Destinations of the send |
| ApiHandlers.FromHeaderMatchesEnvelope | invoiceless/api_handlers.py:66 | the address in the From header is the Source of the send |
| ApiHandlers.ScheduleExpression | invoiceless/api_handlers.py:51 | None when absent, a string when present |
| ApiHandlers.ScheduleConfig | invoiceless/api_handlers.py:51-56 | a missing or empty schedule is refused with no scheduler call; otherwise passes iff no rule name starts with the client's; then the calls are list, put_rule, put_targets in that order and the one new rule carries the config as target body |
| ApiHandlers.ScheduleStep | invoiceless/api_handlers.py:47-56 | a body that fails to load or validate makes no scheduler call |
| ApiHandlers.ScheduleValidated | invoiceless/api_handlers.py:51-56 | the scheduler changes exactly as ScheduleConfig says |
| ApiHandlers.ScheduleRecurringInvoice | invoiceless/api_handlers.py:47-56 | the scheduler changes exactly as ScheduleStep says |
| ApiHandlers.UnscheduleStep | invoiceless/api_handlers.py:43-45 | remove_targets comes first and delete_rule only after it succeeds; passes iff the rule exists with only its own target, and then removes that rule alone; a refused remove_targets leaves the table unchanged, and a refused delete_rule leaves the rule in place without the client's own target |
| ApiHandlers.UnscheduleRecurringInvoice | invoiceless/api_handlers.py:43-45 | the scheduler changes exactly as UnscheduleStep says |
| ApiHandlers.Invoke | invoiceless/api_handlers.py:31 | calling the selected handler has exactly that pipeline's effect, and no other collaborator changes |
| ApiHandlers.ApiHandler | invoiceless/api_handlers.py:14-41 | the response is Respond(outcome); a failed lookup changes nothing; otherwise exactly the routed pipeline's effect |
| ApiHandlers.FiredTargetReachesSendPipeline | invoiceless/aws/cloudwatch_events.py:32-36 | when the codec reads the installed target back unchanged, the fired event routes to send_invoice with the serialised config as body |
| ApiHandlers.SecondScheduleRefused | invoiceless/aws/cloudwatch_events.py:16-20 | after a schedule succeeds, scheduling that client, or one whose id is a prefix of it, is refused and changes nothing |
| ApiHandlers.UnscheduleUndoesSchedule | invoiceless/api_handlers.py:43-56 | unscheduling right after scheduling restores the scheduler's table |

## Left out

- PDF rendering (pyinvoice `SimpleInvoice`) is left out: the PDF is the document value with its fields. Reading the file back gives that value.
- MIME serialisation (`as_string`, header encoding, the library's default MIME headers) is left out: the message is its header list, preamble and parts.
- pyinvoice's keyword-argument checks (`Item(**item)`, `ServiceProviderInfo(**...)`) are left out; a key the library does not accept would raise a TypeError there.
- Decimal.ParseInt: does not accept surrounding whitespace, underscores between digits or non-ASCII digits, which Python's `int()` allows, because client ids of that form are outside what the service documents.
- Json.PyStr: `str()` of floats, lists and dicts is a placeholder, because float formatting and `repr` of containers are not modelled.
- Errors.Message: only the two messages the handlers raise, the validator's prefix and a missing route key that is a string or None are exact. Errors.StrRepr escapes ASCII control characters but writes every non-ASCII character as it is, while Python escapes the non-printable ones, because Unicode's printable classes are not modelled. The jsonschema, json, boto3 and OS texts are placeholders, because those libraries' messages are not part of this model.
- The validator's per-error text (the repr of each error object) is left out; only the path order of violations is modelled.
- unit_price is a `real`; IEEE double rounding is not modelled.
- json.loads and json.dumps are an abstract codec. `bytes` arguments to json.loads are not modelled.
- Two lemmas assume the codec reads back what it wrote, each only for the one value it decodes: ApiHandlers.ValidatedConfigReloads for the config, and ApiHandlers.FiredTargetReachesSendPipeline for the target event.
- The clock, logging, `traceback`, the environment variables (`EVENT_ROLE`, `SEND_FUNCTION_ARN`, `LOG_LEVEL`) and the Lambda context argument are not modelled.
- The clock is one reading passed in; the date is a day number, so `timedelta(days=net)` is an addition.
- boto3 pagination, throttling, IAM and network errors are not modelled.
- The scheduler follows the contract this service's design assumes of it, not AWS's own: each removal fails when the resource is missing, and a rule with live targets is refused. AWS's DeleteRule succeeds on a missing rule, but no run of the model can tell, because delete_rule runs only after remove_targets has found the rule. In detail:
  - list_rules filters by name prefix;
  - put_rule creates or replaces and keeps targets;
  - put_targets needs the rule;
  - remove_targets needs the rule and the target;
  - delete_rule needs the rule and refuses while it has targets.
- Only the rule name and schedule of put_rule, and the rule and Id of put_targets and remove_targets, are recorded in the call log.
- The mail service records what it is given. The schema leaves verified_sender_arn optional, so send_invoice can pass `SourceArn=None` (api_handlers.py:68). Whether the AWS client library refuses None for that parameter is not modelled, because the library is not part of this model.
- InvoiceSchema.SameValue follows the equality of jsonschema 4, where booleans never equal numbers even inside lists; jsonschema 3 told them apart only at the top level. Only client_emails uses uniqueItems, and there it matters only for items that fail the string check anyway.
- aws/ses.py is modelled only as the recording service above.
- The mutable `doc`/`msg` objects of pyinvoice and the email library are classes of their own; aliasing between them and other objects is not modelled.

## Findings

| source | as written | input that shows it | evidently intended | confidence | as-written member | corrected member |
|---|---|---|---|---|---|---|
| invoiceless/invoicer.py:136 | the year and the month come from two separate `datetime.now()` calls | client "7", year read at 2024-12-31 23:59:59.999 and month read at 2025-01-01 00:00:00: the number is 720241, January 2024's number, instead of 7202412 or 720251 | one clock reading supplies both year and month | not executed | Invoicer.InvoiceNumberAsWritten, Invoicer.SplitReadingAtNewYear | Invoicer.InvoiceNumber |
