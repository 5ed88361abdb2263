/** The request handler: routes a request to one of three pipelines and
    turns whatever they raise into a 400 response. */
module ApiHandlers {
  import opened Wrappers
  import opened Json
  import opened Decimal
  import opened InvoiceSchema
  import opened Errors
  import opened Invoicer
  import opened Ses
  import opened CloudwatchEvents

  /** The three handler functions of the routing table. */
  datatype Handler = SendInvoiceHandler | ScheduleHandler | UnscheduleHandler

  /** The handler the table selects and the argument it is called with. */
  datatype Dispatch = Dispatch(handler: Handler, arg: Json)

  /** The dict api_handler returns: statusCode, and body only on failure. */
  datatype Response = Response(statusCode: int, body: Option<string>)

  const InvoicesPath := "/invoices"
  const ScheduledPath := "/invoices/scheduled"

  /** '/invoices/scheduled/{}'.format(client_id). */
  function UnschedulePath(clientId: Json): (r: string)
    ensures ScheduledPath + "/" <= r
    ensures clientId.Str? ==> r[|ScheduledPath| + 1..] == clientId.s
  {
    ScheduledPath + "/" + PyStr(clientId)
  }

  /** pathParameters.get('client_id') when pathParameters is truthy, else None. */
  function RequestedClientId(fields: map<string, Json>): (r: Result<Json, Error>)
    ensures r.Err? <==> Truthy(Get(fields, "pathParameters")) && !Get(fields, "pathParameters").Object?
    ensures r.Ok? && r.value != Null ==>
      && "pathParameters" in fields && fields["pathParameters"].Object?
      && "client_id" in fields["pathParameters"].fields
      && r.value == fields["pathParameters"].fields["client_id"]
  {
    var params := Get(fields, "pathParameters");
    if !Truthy(params) then Ok(Null)
    else if params.Object? then Ok(Get(params.fields, "client_id"))
    else Err(NotAMapping)
  }

  /** event.get('body', event): the body when the key is present, even as
      None; the whole event otherwise. */
  function BodyOrEvent(event: Json): (r: Json)
    requires event.Object?
    ensures "body" !in event.fields ==> r == event
    ensures "body" in event.fields && event.fields["body"] == Null ==> r == Null
    ensures "body" in event.fields ==> r == event.fields["body"]
  {
    if "body" in event.fields then event.fields["body"] else event
  }

  predicate Hashable(key: Json)
  {
    !key.Array? && !key.Object?
  }

  /** router[request_type][request_path], after reading the event. */
  function Route(event: Json): (r: Result<Dispatch, Error>)
    ensures !event.Object? ==> r == Err(NotAMapping)
    ensures event.Object? && RequestedClientId(event.fields).Err? ==> r == Err(NotAMapping)
    ensures event.Object? && RequestedClientId(event.fields).Ok? ==>
      var verb, path := Get(event.fields, "httpMethod"), Get(event.fields, "path");
      var clientId := RequestedClientId(event.fields).value;
      && ((r == Ok(Dispatch(SendInvoiceHandler, BodyOrEvent(event))))
            <==> verb == Str("POST") && path == Str(InvoicesPath))
      && ((r == Ok(Dispatch(ScheduleHandler, BodyOrEvent(event))))
            <==> verb == Str("POST") && path == Str(ScheduledPath))
      && ((r == Ok(Dispatch(UnscheduleHandler, clientId)))
            <==> verb == Str("DELETE") && path == Str(UnschedulePath(clientId)))
      && (r.Ok? <==>
            || (verb == Str("POST") && (path == Str(InvoicesPath) || path == Str(ScheduledPath)))
            || (verb == Str("DELETE") && path == Str(UnschedulePath(clientId))))
  {
    if !event.Object? then Err(NotAMapping)
    else
      var path := Get(event.fields, "path");
      var verb := Get(event.fields, "httpMethod");
      var clientId :- RequestedClientId(event.fields);
      var arg := BodyOrEvent(event);
      if !Hashable(verb) then Err(Unhashable)
      else if verb == Str("POST") then
        if !Hashable(path) then Err(Unhashable)
        else if path == Str(InvoicesPath) then Ok(Dispatch(SendInvoiceHandler, arg))
        else if path == Str(ScheduledPath) then Ok(Dispatch(ScheduleHandler, arg))
        else Err(NoRoute(path))
      else if verb == Str("DELETE") then
        if !Hashable(path) then Err(Unhashable)
        else if path == Str(UnschedulePath(clientId)) then Ok(Dispatch(UnscheduleHandler, clientId))
        else Err(NoRoute(path))
      else Err(NoRoute(verb))
  }

  /** A request without a method has no entry: KeyError(None). */
  lemma MissingMethodRefused(event: Json)
    requires event.Object? && "httpMethod" !in event.fields
    requires RequestedClientId(event.fields).Ok?
    ensures Route(event) == Err(NoRoute(Null))
    ensures Respond(Fail(Route(event).error)) == Response(400, Some("None"))
  {
  }

  /** The response for a handler that returned or raised. */
  function Respond(o: Outcome<Error>): (r: Response)
    ensures r.statusCode == 200 || r.statusCode == 400
    ensures r.statusCode == 200 <==> o.Pass?
    ensures r.body.Some? <==> r.statusCode == 400
    ensures o.Fail? ==> r.body == Some(Message(o.error))
  {
    match o
    case Pass => Response(200, None)
    case Fail(e) => Response(400, Some(Message(e)))
  }

  // ---------------------------------------------------------------------
  // Reading the request body
  // ---------------------------------------------------------------------

  /** json.loads(arg) followed by validate_schema. */
  function LoadConfig(codec: Codec, arg: Json): (r: Result<Json, Error>)
    ensures !arg.Str? ==> r == Err(NotAString)
    ensures arg.Str? && codec.loads(arg.s).None? ==> r == Err(JsonDecodeError)
    ensures arg.Str? && codec.loads(arg.s).Some? ==>
      var config := codec.loads(arg.s).value;
      && (ValidateSchema(config).Pass? ==> r == Ok(config))
      && (ValidateSchema(config).Fail? ==> r == Err(InvalidFormat(ValidateSchema(config).error)))
    ensures r.Ok? ==> Readable(r.value)
  {
    if !arg.Str? then Err(NotAString)
    else if codec.loads(arg.s).None? then Err(JsonDecodeError)
    else
      var config := codec.loads(arg.s).value;
      var checked := ValidateSchema(config);
      if checked.Fail? then Err(InvalidFormat(checked.error))
      else
        ValidatedIsReadable(config);
        Ok(config)
  }

  /** A decoded body is accepted exactly when it conforms to the schema;
      otherwise the error lists every violation, sorted by path. */
  lemma LoadConfigValidates(codec: Codec, arg: Json)
    requires arg.Str? && codec.loads(arg.s).Some?
    ensures var config := codec.loads(arg.s).value;
      && (LoadConfig(codec, arg).Ok? <==> Conforms(config))
      && (LoadConfig(codec, arg).Err? ==>
            var vs := LoadConfig(codec, arg).error.violations;
            vs != [] && SortedByPath(vs) && multiset(vs) == multiset(Violations(config)))
  {
  }

  /** A validated configuration, written out by the codec, loads and
      validates back to itself. */
  lemma ValidatedConfigReloads(codec: Codec, config: Json)
    requires RoundTrips(codec, config) && Conforms(config)
    ensures LoadConfig(codec, Str(codec.dumps(config))) == Ok(config)
  {
    LoadConfigValidates(codec, Str(codec.dumps(config)));
  }

  // ---------------------------------------------------------------------
  // send_invoice
  // ---------------------------------------------------------------------

  /** What send_invoice does once the configuration has validated: the PDF
      it writes and the message it sends, or the int() error raised before
      either. */
  function SendConfig(config: Json, now: Clock): (r: Result<(Pdf, SentEmail), Error>)
    requires Readable(config)
    ensures var number := InvoiceNumber(ClientId(config), now);
      && (r.Ok? <==> number.Ok?)
      && (number.Err? ==> r == Err(number.error))
      && (r.Ok? ==>
            var (pdf, sent) := r.value;
            && pdf == RenderedInvoice(config, number.value, now)
            && sent == SentEmail(InvoiceEmail(config, number.value, pdf), ProviderEmail(config),
                                 ClientEmails(config), VerifiedSenderArn(config)))
  {
    var number :- InvoiceNumber(ClientId(config), now);
    var pdf := RenderedInvoice(config, number, now);
    Ok((pdf, SentEmail(InvoiceEmail(config, number, pdf), ProviderEmail(config), ClientEmails(config),
                       VerifiedSenderArn(config))))
  }

  /** send_invoice from its argument: a body that is not a string, not JSON
      or not a valid invoice stops the pipeline before anything happens. */
  function SendPlan(codec: Codec, arg: Json, now: Clock): (r: Result<(Pdf, SentEmail), Error>)
    ensures LoadConfig(codec, arg).Err? ==> r == Err(LoadConfig(codec, arg).error)
    ensures LoadConfig(codec, arg).Ok? ==> r == SendConfig(LoadConfig(codec, arg).value, now)
  {
    var config :- LoadConfig(codec, arg);
    SendConfig(config, now)
  }

  /** The steps of send_invoice after validation: write the PDF, build the
      message around it, send it. */
  method SendValidated(config: Json, now: Clock, fs: FileSystem, ses: SesClient) returns (o: Outcome<Error>)
    requires Readable(config)
    modifies fs, ses
    ensures var plan := SendConfig(config, now);
      && (plan.Err? ==> o == Fail(plan.error) && fs.files == old(fs.files) && ses.sent == old(ses.sent))
      && (plan.Ok? ==>
            && o == Pass
            && fs.files == old(fs.files)[PdfPath := plan.value.0]
            && ses.sent == old(ses.sent) + [plan.value.1])
  {
    var built := BuildInvoice(config, now, fs);
    if built.Fail? {
      return built;
    }
    var message := BuildEmail(config, now, fs);
    assert message.Ok?;
    SendEmail(ses, message.value, ProviderEmail(config), ClientEmails(config), VerifiedSenderArn(config));
    return Pass;
  }

  /** send_invoice: nothing is written or sent unless the body parses and
      validates. */
  method SendInvoice(codec: Codec, arg: Json, now: Clock, fs: FileSystem, ses: SesClient)
    returns (o: Outcome<Error>)
    modifies fs, ses
    ensures var plan := SendPlan(codec, arg, now);
      && (plan.Err? ==> o == Fail(plan.error) && fs.files == old(fs.files) && ses.sent == old(ses.sent))
      && (plan.Ok? ==>
            && o == Pass
            && fs.files == old(fs.files)[PdfPath := plan.value.0]
            && ses.sent == old(ses.sent) + [plan.value.1])
  {
    var loaded := LoadConfig(codec, arg);
    if loaded.Err? {
      return Fail(loaded.error);
    }
    o := SendValidated(loaded.value, now, fs, ses);
  }

  /** Both call sites of get_invoice_number see the same reading, so the
      Subject carries the number printed on the attached invoice. */
  lemma SubjectMatchesAttachedInvoice(config: Json, now: Clock)
    requires Readable(config) && SendConfig(config, now).Ok?
    ensures var (pdf, sent) := SendConfig(config, now).value;
      && HeaderValue(sent.raw.headers, "Subject").Some?
      && (var subject := HeaderValue(sent.raw.headers, "Subject").value;
          && SubjectPrefix <= subject
          && pdf.info.Some?
          && ParseInt(subject[|SubjectPrefix|..]) == Some(pdf.info.value.number))
      && sent.raw.parts[|sent.raw.parts| - 1] == Attachment(pdf, "attachment", AttachmentName)
  {
    var number := InvoiceNumber(ClientId(config), now).value;
    InvoiceEmailHeaders(config, number, RenderedInvoice(config, number, now));
    SubjectCarriesNumber(number);
  }

  /** The To header lists the recipients of the send, in order, when no
      address contains a comma (ConformingHasRecipients: validation
      guarantees there is at least one). */
  lemma ToHeaderMatchesEnvelope(config: Json, now: Clock)
    requires Readable(config) && SendConfig(config, now).Ok?
    requires |ClientEmails(config)| >= 1
    requires forall e :: e in ClientEmails(config) ==> ',' !in e
    ensures var sent := SendConfig(config, now).value.1;
      && HeaderValue(sent.raw.headers, "To").Some?
      && SplitComma(HeaderValue(sent.raw.headers, "To").value) == sent.destinations
  {
    var number := InvoiceNumber(ClientId(config), now).value;
    InvoiceEmailHeaders(config, number, RenderedInvoice(config, number, now));
    ToHeaderSplits(ClientEmails(config));
  }

  /** The From header carries the Source address of the send. */
  lemma FromHeaderMatchesEnvelope(config: Json, now: Clock)
    requires Readable(config) && SendConfig(config, now).Ok?
    requires '<' !in ProviderEmail(config)
    ensures var sent := SendConfig(config, now).value.1;
      && HeaderValue(sent.raw.headers, "From").Some?
      && AddressOf(HeaderValue(sent.raw.headers, "From").value) == sent.source
  {
    var number := InvoiceNumber(ClientId(config), now).value;
    InvoiceEmailHeaders(config, number, RenderedInvoice(config, number, now));
    FromHeaderAddress(ProviderName(config), ProviderEmail(config));
  }

  // ---------------------------------------------------------------------
  // schedule_recurring_invoice
  // ---------------------------------------------------------------------

  /** invoice_config.get('schedule_expression'): a string when present. */
  function ScheduleExpression(config: Json): (r: Json)
    requires Readable(config)
    ensures r.Null? || r.Str?
    ensures r.Null? <==> "schedule_expression" !in config.fields
  {
    Get(config.fields, "schedule_expression")
  }

  /** What schedule_recurring_invoice does once the configuration has
      validated: a missing or empty schedule is refused before the
      scheduler is called; otherwise the rule is created, unless the
      client already has one, and the target that posts the configuration
      back to /invoices is attached to it. */
  function ScheduleConfig(codec: Codec, config: Json, rules: Rules): (s: Step)
    requires Readable(config)
    ensures !Truthy(ScheduleExpression(config)) ==> s == Step(Fail(MissingScheduleExpression), rules, [])
    ensures Truthy(ScheduleExpression(config)) ==>
      (s.outcome.Pass? <==> !HasRuleWithPrefix(rules, RuleName(ClientId(config))))
    ensures s.outcome.Fail? ==> s.rules == rules
    ensures s.outcome.Pass? ==>
      var name := RuleName(ClientId(config));
      var schedule := ScheduleExpression(config).s;
      && name !in rules
      && s.calls == [ListRules(name), PutRule(name, schedule), PutTargets(name, name)]
      && s.rules == rules[name := Rule(schedule, EnabledState, RuleDescription,
                                       map[name := codec.dumps(TargetInput(codec.dumps(config)))])]
  {
    var schedule := ScheduleExpression(config);
    if !Truthy(schedule) then Step(Fail(MissingScheduleExpression), rules, [])
    else
      var clientId := ClientId(config);
      var first := PutRuleStep(rules, clientId, schedule.s);
      if first.outcome.Fail? then first
      else
        var name := RuleName(clientId);
        var second := PutTargetStep(first.rules, codec, clientId, codec.dumps(config));
        assert second.rules == rules[name := second.rules[name]];
        Step(second.outcome, second.rules, first.calls + second.calls)
  }

  /** schedule_recurring_invoice from its argument: an argument that does
      not load and validate reaches no scheduler call. */
  function ScheduleStep(codec: Codec, arg: Json, rules: Rules): (s: Step)
    ensures LoadConfig(codec, arg).Err? ==> s == Step(Fail(LoadConfig(codec, arg).error), rules, [])
    ensures LoadConfig(codec, arg).Ok? ==> s == ScheduleConfig(codec, LoadConfig(codec, arg).value, rules)
  {
    match LoadConfig(codec, arg)
    case Err(e) => Step(Fail(e), rules, [])
    case Ok(config) => ScheduleConfig(codec, config, rules)
  }

  /** The steps of schedule_recurring_invoice after validation. */
  method ScheduleValidated(codec: Codec, config: Json, events: EventsClient) returns (o: Outcome<Error>)
    requires Readable(config)
    modifies events
    ensures var s := ScheduleConfig(codec, config, old(events.rules));
      o == s.outcome && events.rules == s.rules && events.calls == old(events.calls) + s.calls
  {
    var clientId := ClientId(config);
    var schedule := ScheduleExpression(config);
    if !Truthy(schedule) {
      return Fail(MissingScheduleExpression);
    }
    o := PutCloudwatchRule(events, clientId, schedule.s);
    if o.Fail? {
      return;
    }
    o := PutCloudwatchTarget(events, codec, clientId, codec.dumps(config));
  }

  method ScheduleRecurringInvoice(codec: Codec, arg: Json, events: EventsClient) returns (o: Outcome<Error>)
    modifies events
    ensures var s := ScheduleStep(codec, arg, old(events.rules));
      o == s.outcome && events.rules == s.rules && events.calls == old(events.calls) + s.calls
  {
    var loaded := LoadConfig(codec, arg);
    if loaded.Err? {
      return Fail(loaded.error);
    }
    o := ScheduleValidated(codec, loaded.value, events);
  }

  // ---------------------------------------------------------------------
  // unschedule_recurring_invoice
  // ---------------------------------------------------------------------

  /** What unschedule_recurring_invoice does: the target first, then the
      rule; it succeeds exactly when the client's rule exists and carries
      only the client's own target, and then removes that rule alone. */
  function UnscheduleStep(rules: Rules, clientId: Json): (s: Step)
    ensures var name := RuleName(PyStr(clientId));
      && (s.calls == [RemoveTargets(name, name)] || s.calls == [RemoveTargets(name, name), DeleteRule(name)])
      && (s.calls == [RemoveTargets(name, name)] <==> !(name in rules && name in rules[name].targets))
      && (s.outcome.Pass? <==> name in rules && rules[name].targets.Keys == {name})
      && (s.outcome.Fail? ==> s.outcome.error.Aws?)
      && (s.outcome.Pass? ==> s.rules == rules - {name})
      && (s.outcome.Fail? && |s.calls| == 1 ==> s.rules == rules)
      && (s.outcome.Fail? && |s.calls| == 2 ==>
            name in rules && s.rules == rules[name := rules[name].(targets := rules[name].targets - {name})])
  {
    var name := PyStr(clientId);
    var ruleName := RuleName(name);
    var first := DeleteTargetStep(rules, name);
    if first.outcome.Fail? then first
    else
      var second := DeleteRuleStep(first.rules, name);
      var left := first.rules[ruleName].targets;
      assert left == map[] <==> rules[ruleName].targets.Keys == {ruleName} by {
        assert left.Keys == rules[ruleName].targets.Keys - {ruleName};
        if left == map[] {
          assert rules[ruleName].targets.Keys == {ruleName};
        }
        if rules[ruleName].targets.Keys == {ruleName} {
          assert left.Keys == {};
        }
      }
      assert second.outcome.Pass? ==> second.rules == rules - {ruleName};
      Step(second.outcome, second.rules, first.calls + second.calls)
  }

  method UnscheduleRecurringInvoice(clientId: Json, events: EventsClient) returns (o: Outcome<Error>)
    modifies events
    ensures var s := UnscheduleStep(old(events.rules), clientId);
      o == s.outcome && events.rules == s.rules && events.calls == old(events.calls) + s.calls
  {
    o := DeleteCloudwatchTarget(events, PyStr(clientId));
    if o.Fail? {
      return;
    }
    o := DeleteCloudwatchRule(events, PyStr(clientId));
  }

  // ---------------------------------------------------------------------
  // api_handler
  // ---------------------------------------------------------------------

  /** handler(argument) for the entry the table selected. */
  method Invoke(d: Dispatch, codec: Codec, now: Clock, fs: FileSystem, ses: SesClient, events: EventsClient)
    returns (outcome: Outcome<Error>)
    modifies fs, ses, events
    ensures d.handler == SendInvoiceHandler ==>
      var plan := SendPlan(codec, d.arg, now);
      && events.rules == old(events.rules) && events.calls == old(events.calls)
      && (plan.Err? ==> outcome == Fail(plan.error) && fs.files == old(fs.files) && ses.sent == old(ses.sent))
      && (plan.Ok? ==>
            && outcome == Pass
            && fs.files == old(fs.files)[PdfPath := plan.value.0]
            && ses.sent == old(ses.sent) + [plan.value.1])
    ensures d.handler == ScheduleHandler ==>
      var s := ScheduleStep(codec, d.arg, old(events.rules));
      && outcome == s.outcome && events.rules == s.rules && events.calls == old(events.calls) + s.calls
      && fs.files == old(fs.files) && ses.sent == old(ses.sent)
    ensures d.handler == UnscheduleHandler ==>
      var s := UnscheduleStep(old(events.rules), d.arg);
      && outcome == s.outcome && events.rules == s.rules && events.calls == old(events.calls) + s.calls
      && fs.files == old(fs.files) && ses.sent == old(ses.sent)
  {
    match d.handler
    case SendInvoiceHandler =>
      outcome := SendInvoice(codec, d.arg, now, fs, ses);
    case ScheduleHandler =>
      outcome := ScheduleRecurringInvoice(codec, d.arg, events);
    case UnscheduleHandler =>
      outcome := UnscheduleRecurringInvoice(d.arg, events);
  }

  /** api_handler: every failure, from routing or from the handler, becomes
      a 400 response carrying str(e); a failed lookup calls no handler. */
  method ApiHandler(event: Json, codec: Codec, now: Clock, fs: FileSystem, ses: SesClient, events: EventsClient)
    returns (response: Response, outcome: Outcome<Error>)
    modifies fs, ses, events
    ensures response == Respond(outcome)
    ensures Route(event).Err? ==>
      && outcome == Fail(Route(event).error)
      && fs.files == old(fs.files) && ses.sent == old(ses.sent)
      && events.rules == old(events.rules) && events.calls == old(events.calls)
    ensures Route(event).Ok? && Route(event).value.handler == SendInvoiceHandler ==>
      var plan := SendPlan(codec, Route(event).value.arg, now);
      && events.rules == old(events.rules) && events.calls == old(events.calls)
      && (plan.Err? ==> outcome == Fail(plan.error) && fs.files == old(fs.files) && ses.sent == old(ses.sent))
      && (plan.Ok? ==>
            && outcome == Pass
            && fs.files == old(fs.files)[PdfPath := plan.value.0]
            && ses.sent == old(ses.sent) + [plan.value.1])
    ensures Route(event).Ok? && Route(event).value.handler == ScheduleHandler ==>
      var s := ScheduleStep(codec, Route(event).value.arg, old(events.rules));
      && outcome == s.outcome && events.rules == s.rules && events.calls == old(events.calls) + s.calls
      && fs.files == old(fs.files) && ses.sent == old(ses.sent)
    ensures Route(event).Ok? && Route(event).value.handler == UnscheduleHandler ==>
      var s := UnscheduleStep(old(events.rules), Route(event).value.arg);
      && outcome == s.outcome && events.rules == s.rules && events.calls == old(events.calls) + s.calls
      && fs.files == old(fs.files) && ses.sent == old(ses.sent)
  {
    var route := Route(event);
    if route.Err? {
      outcome := Fail(route.error);
    } else {
      outcome := Invoke(route.value, codec, now, fs, ses, events);
    }
    response := Respond(outcome);
  }

  // ---------------------------------------------------------------------
  // The pipelines together
  // ---------------------------------------------------------------------

  /** The target a schedule installs, once fired and decoded, is a POST to
      /invoices whose body is the validated configuration as the codec
      wrote it; ValidatedConfigReloads then takes it back to that same
      configuration in send_invoice. */
  lemma FiredTargetReachesSendPipeline(codec: Codec, config: Json, rules: Rules)
    requires RoundTrips(codec, TargetInput(codec.dumps(config)))
    requires Readable(config)
    requires ScheduleConfig(codec, config, rules).outcome.Pass?
    ensures var name := RuleName(ClientId(config));
      var target := ScheduleConfig(codec, config, rules).rules[name].targets[name];
      && codec.loads(target).Some?
      && Route(codec.loads(target).value) == Ok(Dispatch(SendInvoiceHandler, Str(codec.dumps(config))))
  {
    var body := codec.dumps(config);
    var event := TargetInput(body);
    assert Get(event.fields, "pathParameters") == Null;
    assert BodyOrEvent(event) == Str(body);
  }

  /** Once a client is scheduled, scheduling that client again, or any
      client whose id is a prefix of its id, is refused and changes nothing. */
  lemma SecondScheduleRefused(codec: Codec, config: Json, config2: Json, rules: Rules)
    requires Readable(config) && Readable(config2)
    requires ScheduleConfig(codec, config, rules).outcome.Pass?
    requires Truthy(ScheduleExpression(config2))
    requires ClientId(config2) <= ClientId(config)
    ensures var after := ScheduleConfig(codec, config, rules).rules;
      ScheduleConfig(codec, config2, after) == Step(Fail(DuplicateSchedule), after, [ListRules(RuleName(ClientId(config2)))])
  {
    var id, id2 := ClientId(config), ClientId(config2);
    var after := ScheduleConfig(codec, config, rules).rules;
    assert RuleName(id) in after;
    assert id2 + id[|id2|..] == id;
    PrefixMatchRefusesExtendedId(after, id2, id[|id2|..], ScheduleExpression(config2).s);
  }

  /** Unscheduling a client right after scheduling it restores the
      scheduler's table. */
  lemma UnscheduleUndoesSchedule(codec: Codec, config: Json, rules: Rules)
    requires Readable(config)
    requires ScheduleConfig(codec, config, rules).outcome.Pass?
    ensures var undo := UnscheduleStep(ScheduleConfig(codec, config, rules).rules, Str(ClientId(config)));
      undo.outcome == Pass && undo.rules == rules
  {
    var name := RuleName(ClientId(config));
    var after := ScheduleConfig(codec, config, rules).rules;
    assert after[name].targets.Keys == {name};
    assert after - {name} == rules;
  }
}
