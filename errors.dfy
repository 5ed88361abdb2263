/** The exceptions the handlers can raise, as values, and the text that
    str(e) gives for each. */
module Errors {
  import opened Wrappers
  import opened Json
  import Decimal
  import InvoiceSchema

  /** Failures of the scheduler's own operations. */
  datatype AwsError =
    | ResourceNotFound(resource: string)
    | RuleHasTargets(rule: string)

  datatype Error =
    /** AttributeError: .get on something that is not a dict. */
    | NotAMapping
    /** KeyError from the router lookup. */
    | NoRoute(key: Json)
    /** TypeError from the router lookup: a list or dict is not hashable. */
    | Unhashable
    /** TypeError from json.loads: the argument is not a string. */
    | NotAString
    /** json.JSONDecodeError. */
    | JsonDecodeError
    /** validate_schema's "Invalid invoice format" exception. */
    | InvalidFormat(violations: seq<InvoiceSchema.Violation>)
    /** ValueError from int() in get_invoice_number. */
    | InvalidIntLiteral(literal: string)
    | MissingScheduleExpression
    | DuplicateSchedule
    /** open() of a file that does not exist. */
    | FileNotFound(path: string)
    | Aws(aws: AwsError)

  const MissingScheduleMessage := "Please provide a schedule expression for this recurring invoice"

  const DuplicateScheduleMessage :=
    "There is already a recurring invoice scheduled for this client! Please unschedule the existing invoice before creating a new one."

  const InvalidFormatPrefix := "Invalid invoice format: "

  /** The lower-case hexadecimal digit of n. */
  function HexDigit(n: nat): char
    requires n < 16
  {
    if n < 10 then ('0' as int + n) as char else ('a' as int + n - 10) as char
  }

  function HexValue(c: char): (n: nat)
    ensures n < 16
  {
    if '0' <= c <= '9' then c as int - '0' as int
    else if 'a' <= c <= 'f' then c as int - 'a' as int + 10
    else 0
  }

  predicate IsHexDigit(c: char)
  {
    '0' <= c <= '9' || 'a' <= c <= 'f'
  }

  /** The ASCII control characters, which repr() writes as escapes. */
  predicate IsControl(c: char)
  {
    c < ' ' || c == '\U{7F}'
  }

  /** The quote repr() puts around a string: a double quote when the string
      holds a single quote and no double quote, a single quote otherwise. */
  function ReprQuote(s: string): char
  {
    if '\'' in s && '"' !in s then '"' else '\''
  }

  /** How repr() writes one character inside the quote q. */
  function ReprChar(c: char, q: char): string
  {
    if c == q || c == '\\' then ['\\', c]
    else if c == '\t' then "\\t"
    else if c == '\n' then "\\n"
    else if c == '\r' then "\\r"
    else if IsControl(c) then ['\\', 'x', HexDigit(c as int / 16), HexDigit(c as int % 16)]
    else [c]
  }

  function ReprBody(s: string, q: char): string
  {
    if s == [] then [] else ReprChar(s[0], q) + ReprBody(s[1..], q)
  }

  /** repr() of a string: the escaped text between the chosen quotes. */
  function StrRepr(s: string): (r: string)
    ensures |r| >= 2 && r[0] == r[|r| - 1] == ReprQuote(s)
  {
    [ReprQuote(s)] + ReprBody(s, ReprQuote(s)) + [ReprQuote(s)]
  }

  /** Reads the escapes of a repr() body back; None on a dangling or
      unknown escape. */
  function Unescape(t: string): Option<string>
  {
    if t == [] then Some([])
    else
      var (c, n) :=
        if t[0] != '\\' then (Some(t[0]), 1)
        else if |t| >= 2 && t[1] in "\\'\"" then (Some(t[1]), 2)
        else if |t| >= 2 && t[1] == 't' then (Some('\t'), 2)
        else if |t| >= 2 && t[1] == 'n' then (Some('\n'), 2)
        else if |t| >= 2 && t[1] == 'r' then (Some('\r'), 2)
        else if |t| >= 4 && t[1] == 'x' && IsHexDigit(t[2]) && IsHexDigit(t[3]) && HexValue(t[2]) < 8
        then (Some((HexValue(t[2]) * 16 + HexValue(t[3])) as char), 4)
        else (None, 1);
      match (c, Unescape(t[n..]))
      case (Some(c), Some(rest)) => Some([c] + rest)
      case _ => None
  }

  lemma HexRoundTrip(n: nat)
    requires n < 16
    ensures IsHexDigit(HexDigit(n)) && HexValue(HexDigit(n)) == n
  {
  }

  /** Unescaping undoes the escape of one character. */
  lemma UnescapeChar(c: char, q: char, rest: string)
    requires q == '\'' || q == '"'
    ensures Unescape(ReprChar(c, q) + rest) ==
      match Unescape(rest)
      case Some(r) => Some([c] + r)
      case None => None
  {
    var t := ReprChar(c, q) + rest;
    if c == q || c == '\\' || c == '\t' || c == '\n' || c == '\r' {
      assert t[2..] == rest;
    } else if IsControl(c) {
      HexRoundTrip(c as int / 16);
      HexRoundTrip(c as int % 16);
      assert t[4..] == rest;
    } else {
      assert t[1..] == rest;
    }
  }

  /** repr() loses nothing: unescaping the text between the quotes gives
      the string back. */
  lemma {:induction false} StrReprRoundTrip(s: string)
    ensures var r := StrRepr(s);
      Unescape(r[1..|r| - 1]) == Some(s)
  {
    var q := ReprQuote(s);
    var r := StrRepr(s);
    assert r[1..|r| - 1] == ReprBody(s, q);
    BodyRoundTrip(s, q);
  }

  lemma {:induction false} BodyRoundTrip(s: string, q: char)
    requires q == '\'' || q == '"'
    ensures Unescape(ReprBody(s, q)) == Some(s)
  {
    if s != [] {
      BodyRoundTrip(s[1..], q);
      UnescapeChar(s[0], q, ReprBody(s[1..], q));
      assert [s[0]] + s[1..] == s;
    }
  }

  /** A string with no quote, backslash or control character is shown
      between single quotes as it is. */
  lemma {:induction false} PlainRepr(s: string)
    requires forall k :: 0 <= k < |s| ==> s[k] !in "'\"\\" && !IsControl(s[k])
    ensures StrRepr(s) == "'" + s + "'"
  {
    PlainBody(s);
  }

  lemma {:induction false} PlainBody(s: string)
    requires forall k :: 0 <= k < |s| ==> s[k] !in "'\"\\" && !IsControl(s[k])
    ensures ReprBody(s, '\'') == s
  {
    if s != [] {
      PlainBody(s[1..]);
      assert [s[0]] + s[1..] == s;
    }
  }

  /** A single quote inside the string makes repr() switch to double quotes. */
  lemma QuoteSwitch()
    ensures StrRepr("it's") == "\"it's\""
  {
    assert ReprQuote("it's") == '"';
    assert ReprBody("it's", '"') == "it's";
  }

  /** repr() of a dict key, as str(KeyError(key)) shows it. */
  function PyRepr(v: Json): (r: string)
    ensures v.Null? ==> r == "None"
    ensures v.Bool? ==> r == (if v.b then "True" else "False")
    ensures v.Int? ==> Decimal.ParseInt(r) == Some(v.i)
    ensures v.Str? ==> |r| >= 2 && r[0] == r[|r| - 1] == ReprQuote(v.s)
  {
    match v
    case Str(s) => StrRepr(s)
    case Int(i) => Decimal.ParseIntOfIntToString(i); PyStr(v)
    case _ => PyStr(v)
  }

  /** str(e). Only the two messages the handlers write themselves and the
      KeyError text of a string or None key are exact; the library messages
      are stand-ins. */
  function Message(e: Error): (m: string)
    ensures e == MissingScheduleExpression ==> m == MissingScheduleMessage
    ensures e == DuplicateSchedule ==> m == DuplicateScheduleMessage
    ensures e.InvalidFormat? ==> InvalidFormatPrefix <= m
    ensures e.NoRoute? && e.key.Str? ==> m == StrRepr(e.key.s)
    ensures e.NoRoute? && e.key.Null? ==> m == "None"
  {
    match e
    case NotAMapping => "object has no attribute 'get'"
    case NoRoute(key) => PyRepr(key)
    case Unhashable => "unhashable type"
    case NotAString => "the JSON object must be str, bytes or bytearray"
    case JsonDecodeError => "Expecting value"
    case InvalidFormat(_) => InvalidFormatPrefix + "[...]"
    case InvalidIntLiteral(literal) => "invalid literal for int() with base 10: '" + literal + "'"
    case MissingScheduleExpression => MissingScheduleMessage
    case DuplicateSchedule => DuplicateScheduleMessage
    case FileNotFound(path) => "No such file or directory: '" + path + "'"
    case Aws(ResourceNotFound(r)) => "ResourceNotFoundException: " + r
    case Aws(RuleHasTargets(r)) => "ValidationException: Rule can't be deleted since it has targets: " + r
  }
}
