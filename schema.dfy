/** The invoice schema of invoicer.py and the draft-04 checks it uses
    (required, minimum, maximum, minItems, uniqueItems, type), written for
    this one schema. Violations are produced in the order in which a
    draft-04 validator visits the schema (its keywords in the order they are
    written, properties only when present), then sorted by path. */
module InvoiceSchema {
  import opened Wrappers
  import opened Json

  // ---------------------------------------------------------------------
  // Violations
  // ---------------------------------------------------------------------

  /** One step of the path from the document root to the offending value. */
  datatype PathElem = Key(name: string) | Index(index: nat)

  type Path = seq<PathElem>

  /** The primitive types of the draft-04 validation specification (section 5.5.2
      of draft-fge-json-schema-validation-00) that this schema names. */
  datatype JsonType = ObjectType | ArrayType | StringType | IntegerType | NumberType

  datatype Keyword =
    | WrongType(expected: JsonType)
    | Required(property: string)
    | Minimum(limit: real)
    | Maximum(limit: real)
    | MinItems(count: nat)
    | UniqueItems

  datatype Violation = Violation(path: Path, keyword: Keyword)

  /** Draft-04 type test: "integer" is an int only, "number" an int or a float
      (booleans are neither). */
  predicate HasType(v: Json, t: JsonType)
  {
    match t
    case ObjectType => v.Object?
    case ArrayType => v.Array?
    case StringType => v.Str?
    case IntegerType => v.Int?
    case NumberType => v.Int? || v.Float?
  }

  function NumberValue(v: Json): real
    requires v.Int? || v.Float?
  {
    if v.Int? then v.i as real else v.r
  }

  /** The equality uniqueItems uses: Python's ==, under which 1 == 1.0,
      except that booleans never equal numbers; lists compare item by item
      and dicts key by key. */
  predicate SameValue(a: Json, b: Json)
  {
    match a
    case Null => b.Null?
    case Bool(x) => b.Bool? && b.b == x
    case Int(_) => (b.Int? || b.Float?) && NumberValue(a) == NumberValue(b)
    case Float(_) => (b.Int? || b.Float?) && NumberValue(a) == NumberValue(b)
    case Str(x) => b.Str? && b.s == x
    case Array(xs) =>
      && b.Array? && |xs| == |b.items|
      && forall k :: 0 <= k < |xs| ==> SameValue(xs[k], b.items[k])
    case Object(fs) =>
      && b.Object? && fs.Keys == b.fields.Keys
      && forall key :: key in fs ==> SameValue(fs[key], b.fields[key])
  }

  /** No two items of the list are equal (uniqueItems, section 5.3.4 of the
      draft-04 validation specification). */
  predicate Distinct(items: seq<Json>)
  {
    forall i, j :: 0 <= i < j < |items| ==> !SameValue(items[i], items[j])
  }

  /** On strings, the equality of uniqueItems is string equality. */
  lemma SameStringValue(a: Json, b: Json)
    requires a.Str?
    ensures SameValue(a, b) <==> a == b
  {
  }

  /** An int and a float of the same value are duplicates, although they
      are different JSON values. */
  lemma IntFloatDuplicate()
    ensures Int(1) != Float(1.0)
    ensures !Distinct([Int(1), Float(1.0)])
  {
    var items := [Int(1), Float(1.0)];
    assert SameValue(items[0], items[1]);
  }

  // ---------------------------------------------------------------------
  // The keywords
  // ---------------------------------------------------------------------

  function TypeCheck(v: Json, t: JsonType, p: Path): seq<Violation>
  {
    if HasType(v, t) then [] else [Violation(p, WrongType(t))]
  }

  /** minimum (5.1.3) applies to numbers only; the bound itself is allowed. */
  function MinimumCheck(v: Json, limit: real, p: Path): seq<Violation>
  {
    if HasType(v, NumberType) && NumberValue(v) < limit then [Violation(p, Minimum(limit))] else []
  }

  /** maximum (5.1.2) applies to numbers only; the bound itself is allowed. */
  function MaximumCheck(v: Json, limit: real, p: Path): seq<Violation>
  {
    if HasType(v, NumberType) && NumberValue(v) > limit then [Violation(p, Maximum(limit))] else []
  }

  /** required (5.4.3) applies to objects only; one violation per missing key, in order. */
  function RequiredCheck(v: Json, keys: seq<string>, p: Path): seq<Violation>
  {
    if v.Object? then MissingKeys(v.fields, keys, p) else []
  }

  function MissingKeys(fields: map<string, Json>, keys: seq<string>, p: Path): seq<Violation>
  {
    if keys == [] then []
    else (if keys[0] in fields then [] else [Violation(p, Required(keys[0]))]) + MissingKeys(fields, keys[1..], p)
  }

  /** The properties among keys that are present must be strings. */
  function StringProperties(fields: map<string, Json>, keys: seq<string>, p: Path): seq<Violation>
  {
    if keys == [] then []
    else
      (if keys[0] in fields then TypeCheck(fields[keys[0]], StringType, p + [Key(keys[0])]) else [])
      + StringProperties(fields, keys[1..], p)
  }

  // ---------------------------------------------------------------------
  // The schema, subschema by subschema
  // ---------------------------------------------------------------------

  const ProviderKeys: seq<string> := ["name", "street", "city", "state", "country", "post_code"]
  const ClientKeys: seq<string> := ["client_id", "name", "street", "city", "state", "country", "post_code"]
  const ProviderRequired: seq<string> := ["name"]
  const ClientRequired: seq<string> := ["client_id", "name"]
  const AgreementRequired: seq<string> := ["client_emails", "provider_email"]
  const LineItemRequired: seq<string> := ["name", "units", "unit_price"]
  const TopRequired: seq<string> := ["agreement_info", "service_provider_info", "client_info", "line_items"]

  /** Every violation of the invoice schema, in validation order. */
  function Violations(v: Json): (r: seq<Violation>)
    ensures !v.Object? ==> r == [Violation([], WrongType(ObjectType))]
  {
    TypeCheck(v, ObjectType, [])
    + (if v.Object? then TopProperties(v.fields) else [])
    + RequiredCheck(v, TopRequired, [])
  }

  function TopProperties(f: map<string, Json>): seq<Violation>
  {
    (if "schedule_expression" in f then TypeCheck(f["schedule_expression"], StringType, [Key("schedule_expression")]) else [])
    + (if "service_provider_info" in f then PartyViolations(f["service_provider_info"], [Key("service_provider_info")], ProviderKeys, ProviderRequired) else [])
    + (if "client_info" in f then PartyViolations(f["client_info"], [Key("client_info")], ClientKeys, ClientRequired) else [])
    + (if "agreement_info" in f then AgreementViolations(f["agreement_info"], [Key("agreement_info")]) else [])
    + (if "line_items" in f then LineItemsViolations(f["line_items"], [Key("line_items")]) else [])
  }

  /** service_provider_info and client_info: an object of string properties. */
  function PartyViolations(v: Json, p: Path, keys: seq<string>, required: seq<string>): seq<Violation>
  {
    TypeCheck(v, ObjectType, p)
    + (if v.Object? then StringProperties(v.fields, keys, p) else [])
    + RequiredCheck(v, required, p)
  }

  function AgreementViolations(v: Json, p: Path): seq<Violation>
  {
    TypeCheck(v, ObjectType, p)
    + (if v.Object? then AgreementProperties(v.fields, p) else [])
    + RequiredCheck(v, AgreementRequired, p)
  }

  function AgreementProperties(f: map<string, Json>, p: Path): seq<Violation>
  {
    (if "net" in f then NetViolations(f["net"], p + [Key("net")]) else [])
    + (if "client_emails" in f then ClientEmailsViolations(f["client_emails"], p + [Key("client_emails")]) else [])
    + StringProperties(f, ["provider_email", "verified_sender_arn"], p)
  }

  function NetViolations(v: Json, p: Path): seq<Violation>
  {
    TypeCheck(v, IntegerType, p) + MinimumCheck(v, 1.0, p) + MaximumCheck(v, 120.0, p)
  }

  function ClientEmailsViolations(v: Json, p: Path): seq<Violation>
  {
    TypeCheck(v, ArrayType, p)
    + (if v.Array? then StringItems(v.items, p, 0) else [])
    + (if v.Array? && |v.items| < 1 then [Violation(p, MinItems(1))] else [])
    + (if v.Array? && !Distinct(v.items) then [Violation(p, UniqueItems)] else [])
  }

  /** items: {"type": "string"}, from index i on. */
  function StringItems(items: seq<Json>, p: Path, i: nat): seq<Violation>
    decreases |items| - i
  {
    if i >= |items| then []
    else TypeCheck(items[i], StringType, p + [Index(i)]) + StringItems(items, p, i + 1)
  }

  function LineItemsViolations(v: Json, p: Path): seq<Violation>
  {
    TypeCheck(v, ArrayType, p) + (if v.Array? then LineItemList(v.items, p, 0) else [])
  }

  function LineItemList(items: seq<Json>, p: Path, i: nat): seq<Violation>
    decreases |items| - i
  {
    if i >= |items| then []
    else LineItemViolations(items[i], p + [Index(i)]) + LineItemList(items, p, i + 1)
  }

  function LineItemViolations(v: Json, p: Path): seq<Violation>
  {
    TypeCheck(v, ObjectType, p)
    + (if v.Object? then LineItemProperties(v.fields, p) else [])
    + RequiredCheck(v, LineItemRequired, p)
  }

  function LineItemProperties(f: map<string, Json>, p: Path): seq<Violation>
  {
    StringProperties(f, ["name", "description"], p)
    + (if "units" in f then UnitsViolations(f["units"], p + [Key("units")]) else [])
    + (if "unit_price" in f then UnitPriceViolations(f["unit_price"], p + [Key("unit_price")]) else [])
  }

  function UnitsViolations(v: Json, p: Path): seq<Violation>
  {
    TypeCheck(v, IntegerType, p) + MinimumCheck(v, 1.0, p)
  }

  function UnitPriceViolations(v: Json, p: Path): seq<Violation>
  {
    TypeCheck(v, NumberType, p) + MinimumCheck(v, 0.01, p)
  }

  // ---------------------------------------------------------------------
  // What a conforming invoice is, stated directly
  // ---------------------------------------------------------------------

  ghost predicate StringValued(f: map<string, Json>, keys: seq<string>)
  {
    forall k :: k in keys && k in f ==> f[k].Str?
  }

  ghost predicate HasKeys(f: map<string, Json>, keys: seq<string>)
  {
    forall k :: k in keys ==> k in f
  }

  ghost predicate PartyValid(v: Json, keys: seq<string>, required: seq<string>)
  {
    v.Object? && StringValued(v.fields, keys) && HasKeys(v.fields, required)
  }

  ghost predicate NetValid(v: Json)
  {
    v.Int? && 1 <= v.i <= 120
  }

  ghost predicate ClientEmailsValid(v: Json)
  {
    && v.Array?
    && |v.items| >= 1
    && (forall i :: 0 <= i < |v.items| ==> v.items[i].Str?)
    && Distinct(v.items)
  }

  ghost predicate AgreementValid(v: Json)
  {
    && v.Object?
    && HasKeys(v.fields, AgreementRequired)
    && ("net" in v.fields ==> NetValid(v.fields["net"]))
    && ClientEmailsValid(v.fields["client_emails"])
    && StringValued(v.fields, ["provider_email", "verified_sender_arn"])
  }

  ghost predicate LineItemValid(v: Json)
  {
    && v.Object?
    && HasKeys(v.fields, LineItemRequired)
    && StringValued(v.fields, ["name", "description"])
    && v.fields["units"].Int? && v.fields["units"].i >= 1
    && HasType(v.fields["unit_price"], NumberType) && NumberValue(v.fields["unit_price"]) >= 0.01
  }

  ghost predicate LineItemsValid(v: Json)
  {
    v.Array? && forall i :: 0 <= i < |v.items| ==> LineItemValid(v.items[i])
  }

  /** The invoice configuration satisfies every rule of the schema. */
  ghost predicate Conforms(v: Json)
  {
    && v.Object?
    && HasKeys(v.fields, TopRequired)
    && StringValued(v.fields, ["schedule_expression"])
    && PartyValid(v.fields["service_provider_info"], ProviderKeys, ProviderRequired)
    && PartyValid(v.fields["client_info"], ClientKeys, ClientRequired)
    && AgreementValid(v.fields["agreement_info"])
    && LineItemsValid(v.fields["line_items"])
  }

  // ---------------------------------------------------------------------
  // No violation exactly when the invoice conforms
  // ---------------------------------------------------------------------

  lemma ConcatEmpty<T>(a: seq<T>, b: seq<T>)
    ensures a + b == [] <==> a == [] && b == []
  {
  }

  lemma {:induction false} MissingKeysEmpty(f: map<string, Json>, keys: seq<string>, p: Path)
    ensures MissingKeys(f, keys, p) == [] <==> HasKeys(f, keys)
  {
    if keys != [] {
      MissingKeysEmpty(f, keys[1..], p);
      assert forall k :: k in keys ==> k == keys[0] || k in keys[1..];
    }
  }

  lemma {:induction false} StringPropertiesEmpty(f: map<string, Json>, keys: seq<string>, p: Path)
    ensures StringProperties(f, keys, p) == [] <==> StringValued(f, keys)
  {
    if keys != [] {
      StringPropertiesEmpty(f, keys[1..], p);
      assert forall k :: k in keys ==> k == keys[0] || k in keys[1..];
    }
  }

  lemma {:induction false} StringItemsEmpty(items: seq<Json>, p: Path, i: nat)
    ensures StringItems(items, p, i) == [] <==> forall k :: i <= k < |items| ==> items[k].Str?
    decreases |items| - i
  {
    if i < |items| {
      StringItemsEmpty(items, p, i + 1);
    }
  }

  lemma {:induction false} LineItemListEmpty(items: seq<Json>, p: Path, i: nat)
    ensures LineItemList(items, p, i) == [] <==> forall k :: i <= k < |items| ==> LineItemValid(items[k])
    decreases |items| - i
  {
    if i < |items| {
      var head := LineItemViolations(items[i], p + [Index(i)]);
      var tail := LineItemList(items, p, i + 1);
      LineItemListEmpty(items, p, i + 1);
      LineItemEmpty(items[i], p + [Index(i)]);
      ConcatEmpty(head, tail);
      if head == [] && tail == [] {
        forall k | i <= k < |items| ensures LineItemValid(items[k]) {
          if k == i {
            assert LineItemValid(items[i]);
          } else {
            assert i + 1 <= k < |items|;
          }
        }
      }
    }
  }

  lemma LineItemEmpty(v: Json, p: Path)
    ensures LineItemViolations(v, p) == [] <==> LineItemValid(v)
  {
    if v.Object? {
      var f := v.fields;
      StringPropertiesEmpty(f, ["name", "description"], p);
      MissingKeysEmpty(f, LineItemRequired, p);
    }
  }

  lemma PartyEmpty(v: Json, p: Path, keys: seq<string>, required: seq<string>)
    ensures PartyViolations(v, p, keys, required) == [] <==> PartyValid(v, keys, required)
  {
    if v.Object? {
      StringPropertiesEmpty(v.fields, keys, p);
      MissingKeysEmpty(v.fields, required, p);
    }
  }

  lemma ClientEmailsEmpty(v: Json, p: Path)
    ensures ClientEmailsViolations(v, p) == [] <==> ClientEmailsValid(v)
  {
    if v.Array? {
      StringItemsEmpty(v.items, p, 0);
    }
  }

  lemma AgreementEmpty(v: Json, p: Path)
    ensures AgreementViolations(v, p) == [] <==> AgreementValid(v)
  {
    if v.Object? {
      var f := v.fields;
      MissingKeysEmpty(f, AgreementRequired, p);
      StringPropertiesEmpty(f, ["provider_email", "verified_sender_arn"], p);
      if "client_emails" in f {
        ClientEmailsEmpty(f["client_emails"], p + [Key("client_emails")]);
      }
    }
  }

  lemma LineItemsEmpty(v: Json, p: Path)
    ensures LineItemsViolations(v, p) == [] <==> LineItemsValid(v)
  {
    if v.Array? {
      LineItemListEmpty(v.items, p, 0);
    }
  }

  lemma TopPropertiesEmpty(f: map<string, Json>)
    requires HasKeys(f, TopRequired)
    ensures TopProperties(f) == [] <==>
      && StringValued(f, ["schedule_expression"])
      && PartyValid(f["service_provider_info"], ProviderKeys, ProviderRequired)
      && PartyValid(f["client_info"], ClientKeys, ClientRequired)
      && AgreementValid(f["agreement_info"])
      && LineItemsValid(f["line_items"])
  {
    assert "service_provider_info" in TopRequired && "client_info" in TopRequired;
    assert "agreement_info" in TopRequired && "line_items" in TopRequired;
    var schedule := if "schedule_expression" in f then TypeCheck(f["schedule_expression"], StringType, [Key("schedule_expression")]) else [];
    var provider := PartyViolations(f["service_provider_info"], [Key("service_provider_info")], ProviderKeys, ProviderRequired);
    var client := PartyViolations(f["client_info"], [Key("client_info")], ClientKeys, ClientRequired);
    var agreement := AgreementViolations(f["agreement_info"], [Key("agreement_info")]);
    var items := LineItemsViolations(f["line_items"], [Key("line_items")]);
    assert TopProperties(f) == schedule + provider + client + agreement + items;
    ConcatEmpty(schedule + provider + client + agreement, items);
    ConcatEmpty(schedule + provider + client, agreement);
    ConcatEmpty(schedule + provider, client);
    ConcatEmpty(schedule, provider);
    PartyEmpty(f["service_provider_info"], [Key("service_provider_info")], ProviderKeys, ProviderRequired);
    PartyEmpty(f["client_info"], [Key("client_info")], ClientKeys, ClientRequired);
    AgreementEmpty(f["agreement_info"], [Key("agreement_info")]);
    LineItemsEmpty(f["line_items"], [Key("line_items")]);
    assert schedule == [] <==> StringValued(f, ["schedule_expression"]);
  }

  /** The validator and the stated rules agree on every JSON value. */
  lemma ViolationsEmptyIffConforms(v: Json)
    ensures Violations(v) == [] <==> Conforms(v)
  {
    if v.Object? {
      MissingKeysEmpty(v.fields, TopRequired, []);
      if HasKeys(v.fields, TopRequired) {
        TopPropertiesEmpty(v.fields);
      }
    }
  }

  // ---------------------------------------------------------------------
  // Ordering violations by path
  // ---------------------------------------------------------------------

  /** Python's str < str: code point by code point, a proper prefix first. */
  predicate StringLess(a: string, b: string)
  {
    if a == [] then b != []
    else if b == [] then false
    else if a[0] != b[0] then a[0] < b[0]
    else StringLess(a[1..], b[1..])
  }

  /** Keys compare as strings and indices as integers. Python cannot compare a
      key with an index; this schema's paths never need to (see
      NoMixedComparison), and indices are put first only to make the order total. */
  predicate ElemLess(a: PathElem, b: PathElem)
  {
    match (a, b)
    case (Key(x), Key(y)) => StringLess(x, y)
    case (Index(x), Index(y)) => x < y
    case (Index(_), Key(_)) => true
    case (Key(_), Index(_)) => false
  }

  /** Lexicographic order on paths, as Python orders the deques of path elements. */
  predicate PathLess(p: Path, q: Path)
  {
    if p == [] then q != []
    else if q == [] then false
    else if p[0] != q[0] then ElemLess(p[0], q[0])
    else PathLess(p[1..], q[1..])
  }

  lemma {:induction false} StringLessTotal(a: string, b: string)
    ensures !StringLess(a, a)
    ensures a != b ==> StringLess(a, b) || StringLess(b, a)
    ensures !(StringLess(a, b) && StringLess(b, a))
  {
    if a != [] && b != [] {
      StringLessTotal(a[1..], b[1..]);
      StringLessTotal(a[1..], a[1..]);
      if a[0] == b[0] && a != b {
        assert a == [a[0]] + a[1..] && b == [b[0]] + b[1..];
      }
    } else if a != [] {
      StringLessTotal(a[1..], a[1..]);
    }
  }

  lemma {:induction false} StringLessTransitive(a: string, b: string, c: string)
    requires StringLess(a, b) && StringLess(b, c)
    ensures StringLess(a, c)
  {
    if a != [] && a[0] == b[0] && b[0] == c[0] {
      StringLessTransitive(a[1..], b[1..], c[1..]);
    }
  }

  lemma ElemLessTotal(a: PathElem, b: PathElem)
    ensures !ElemLess(a, a)
    ensures a != b ==> ElemLess(a, b) || ElemLess(b, a)
    ensures !(ElemLess(a, b) && ElemLess(b, a))
  {
    if a.Key? && b.Key? {
      StringLessTotal(a.name, b.name);
    } else if a.Key? {
      StringLessTotal(a.name, a.name);
    }
  }

  lemma ElemLessTransitive(a: PathElem, b: PathElem, c: PathElem)
    requires ElemLess(a, b) && ElemLess(b, c)
    ensures ElemLess(a, c)
  {
    if a.Key? && b.Key? && c.Key? {
      StringLessTransitive(a.name, b.name, c.name);
    }
  }

  lemma {:induction false} PathLessTotal(p: Path, q: Path)
    ensures !PathLess(p, p)
    ensures p != q ==> PathLess(p, q) || PathLess(q, p)
    ensures !(PathLess(p, q) && PathLess(q, p))
  {
    if p != [] && q != [] {
      PathLessTotal(p[1..], q[1..]);
      PathLessTotal(p[1..], p[1..]);
      ElemLessTotal(p[0], q[0]);
      if p[0] == q[0] && p != q {
        assert p == [p[0]] + p[1..] && q == [q[0]] + q[1..];
      }
    } else if p != [] {
      PathLessTotal(p[1..], p[1..]);
    }
  }

  lemma {:induction false} PathLessTransitive(p: Path, q: Path, r: Path)
    requires PathLess(p, q) && PathLess(q, r)
    ensures PathLess(p, r)
  {
    if p != [] && q != [] && r != [] {
      if p[0] == q[0] && q[0] == r[0] {
        PathLessTransitive(p[1..], q[1..], r[1..]);
      } else if p[0] == q[0] {
        assert ElemLess(q[0], r[0]);
      } else if q[0] == r[0] {
        assert ElemLess(p[0], q[0]);
      } else {
        ElemLessTransitive(p[0], q[0], r[0]);
        ElemLessTotal(p[0], r[0]);
      }
    }
  }

  /** v does not come after w in path order. */
  predicate NotAfter(v: Violation, w: Violation)
  {
    !PathLess(w.path, v.path)
  }

  lemma NotAfterTransitive(u: Violation, v: Violation, w: Violation)
    requires NotAfter(u, v) && NotAfter(v, w)
    ensures NotAfter(u, w)
  {
    PathLessTotal(u.path, v.path);
    PathLessTotal(v.path, w.path);
    PathLessTotal(u.path, w.path);
    if PathLess(w.path, u.path) {
      if u.path == v.path {
      } else if v.path == w.path {
      } else {
        PathLessTransitive(u.path, v.path, w.path);
      }
    }
  }

  ghost predicate SortedByPath(vs: seq<Violation>)
  {
    forall i, j :: 0 <= i < j < |vs| ==> NotAfter(vs[i], vs[j])
  }

  /** The violations whose path is exactly p, in their order in vs. */
  function OnPath(vs: seq<Violation>, p: Path): seq<Violation>
  {
    if vs == [] then []
    else (if vs[0].path == p then [vs[0]] else []) + OnPath(vs[1..], p)
  }

  /** A sorted list stays sorted under a head that comes after none of it. */
  lemma ConsSorted(v: Violation, vs: seq<Violation>)
    requires SortedByPath(vs)
    requires forall w :: w in vs ==> NotAfter(v, w)
    ensures SortedByPath([v] + vs)
  {
    var r := [v] + vs;
    forall i, j | 0 <= i < j < |r| ensures NotAfter(r[i], r[j]) {
      assert r[j] == vs[j - 1];
      if i > 0 {
        assert r[i] == vs[i - 1];
      }
    }
  }

  /** Puts v before the first element whose path is not smaller. */
  function Insert(v: Violation, vs: seq<Violation>): (r: seq<Violation>)
    ensures multiset(r) == multiset(vs) + multiset{v}
  {
    if vs == [] || !PathLess(vs[0].path, v.path) then [v] + vs
    else
      assert vs == [vs[0]] + vs[1..];
      [vs[0]] + Insert(v, vs[1..])
  }

  lemma {:induction false} InsertSorted(v: Violation, vs: seq<Violation>)
    requires SortedByPath(vs)
    ensures SortedByPath(Insert(v, vs))
  {
    if vs == [] || !PathLess(vs[0].path, v.path) {
      forall w | w in vs ensures NotAfter(v, w) {
        var k :| 0 <= k < |vs| && vs[k] == w;
        if k > 0 { NotAfterTransitive(v, vs[0], w); }
      }
      ConsSorted(v, vs);
    } else {
      var rest := Insert(v, vs[1..]);
      assert SortedByPath(vs[1..]);
      InsertSorted(v, vs[1..]);
      forall w | w in rest ensures NotAfter(vs[0], w) {
        assert w in multiset(rest);
        if w == v {
          PathLessTotal(vs[0].path, v.path);
        } else {
          assert w in multiset(vs[1..]);
          var k :| 0 <= k < |vs[1..]| && vs[1..][k] == w;
          assert vs[k + 1] == w;
        }
      }
      ConsSorted(vs[0], rest);
    }
  }

  /** A stable sort by path, as Python's sorted(errors, key=path). */
  function SortByPath(vs: seq<Violation>): (r: seq<Violation>)
    ensures SortedByPath(r)
    ensures multiset(r) == multiset(vs)
  {
    if vs == [] then []
    else
      assert vs == [vs[0]] + vs[1..];
      var rest := SortByPath(vs[1..]);
      InsertSorted(vs[0], rest);
      Insert(vs[0], rest)
  }

  lemma {:induction false} InsertStable(v: Violation, vs: seq<Violation>, p: Path)
    requires SortedByPath(vs)
    ensures OnPath(Insert(v, vs), p) == (if v.path == p then [v] else []) + OnPath(vs, p)
  {
    if vs == [] || !PathLess(vs[0].path, v.path) {
      assert ([v] + vs)[1..] == vs;
    } else {
      var rest := Insert(v, vs[1..]);
      InsertStable(v, vs[1..], p);
      assert ([vs[0]] + rest)[1..] == rest;
      PathLessTotal(vs[0].path, vs[0].path);
      if v.path == p {
        assert vs[0].path != p;
      }
    }
  }

  /** Sorting keeps the relative order of violations that share a path. */
  lemma {:induction false} SortByPathStable(vs: seq<Violation>, p: Path)
    ensures OnPath(SortByPath(vs), p) == OnPath(vs, p)
  {
    if vs != [] {
      SortByPathStable(vs[1..], p);
      InsertStable(vs[0], SortByPath(vs[1..]), p);
    }
  }

  // ---------------------------------------------------------------------
  // Sorting never compares a key with an index
  // ---------------------------------------------------------------------

  /** In this schema an array index follows exactly these two paths. */
  predicate IndexFollows(prefix: Path)
  {
    prefix == [Key("line_items")] || prefix == [Key("agreement_info"), Key("client_emails")]
  }

  /** Whether each step of p is an index is decided by the steps before it. */
  ghost predicate WellShaped(p: Path)
  {
    forall i :: 0 <= i < |p| ==> (p[i].Index? <==> IndexFollows(p[..i]))
  }

  ghost predicate AllWellShaped(vs: seq<Violation>)
  {
    forall w :: w in vs ==> WellShaped(w.path)
  }

  ghost predicate AllAt(vs: seq<Violation>, p: Path)
  {
    forall w :: w in vs ==> w.path == p
  }

  lemma ExtendShaped(p: Path, e: PathElem)
    requires WellShaped(p) && (e.Index? <==> IndexFollows(p))
    ensures WellShaped(p + [e])
  {
    var q := p + [e];
    forall i | 0 <= i < |q| ensures q[i].Index? <==> IndexFollows(q[..i]) {
      if i < |p| {
        assert q[..i] == p[..i];
      } else {
        assert q[..i] == p;
      }
    }
  }

  lemma {:induction false} MissingKeysAt(f: map<string, Json>, keys: seq<string>, p: Path)
    ensures AllAt(MissingKeys(f, keys, p), p)
  {
    if keys != [] {
      MissingKeysAt(f, keys[1..], p);
    }
  }

  /** The checks that report at the path of the value itself. */
  lemma ChecksAt(v: Json, p: Path, keys: seq<string>)
    ensures AllAt(RequiredCheck(v, keys, p), p)
    ensures AllAt(NetViolations(v, p), p)
    ensures AllAt(UnitsViolations(v, p), p)
    ensures AllAt(UnitPriceViolations(v, p), p)
    ensures forall t :: AllAt(TypeCheck(v, t, p), p)
  {
    if v.Object? {
      MissingKeysAt(v.fields, keys, p);
    }
  }

  lemma {:induction false} StringPropertiesShaped(f: map<string, Json>, keys: seq<string>, p: Path)
    requires WellShaped(p) && !IndexFollows(p)
    ensures AllWellShaped(StringProperties(f, keys, p))
  {
    if keys != [] {
      ExtendShaped(p, Key(keys[0]));
      StringPropertiesShaped(f, keys[1..], p);
    }
  }

  lemma {:induction false} StringItemsShaped(items: seq<Json>, p: Path, i: nat)
    requires WellShaped(p) && IndexFollows(p)
    ensures AllWellShaped(StringItems(items, p, i))
    decreases |items| - i
  {
    if i < |items| {
      ExtendShaped(p, Index(i));
      StringItemsShaped(items, p, i + 1);
    }
  }

  lemma ConcatShaped(a: seq<Violation>, b: seq<Violation>)
    requires AllWellShaped(a) && AllWellShaped(b)
    ensures AllWellShaped(a + b)
  {
  }

  lemma AtShaped(vs: seq<Violation>, p: Path)
    requires AllAt(vs, p) && WellShaped(p)
    ensures AllWellShaped(vs)
  {
  }

  /** The first step of every path is a key. */
  lemma TopKeyShaped(k: string)
    ensures WellShaped([Key(k)])
    ensures IndexFollows([Key(k)]) <==> k == "line_items"
  {
    ExtendShaped([], Key(k));
    assert [] + [Key(k)] == [Key(k)];
  }

  lemma PartyShaped(v: Json, k: string, keys: seq<string>, required: seq<string>)
    requires k != "line_items"
    ensures AllWellShaped(PartyViolations(v, [Key(k)], keys, required))
  {
    var p := [Key(k)];
    TopKeyShaped(k);
    ChecksAt(v, p, required);
    var props := if v.Object? then StringProperties(v.fields, keys, p) else [];
    if v.Object? {
      StringPropertiesShaped(v.fields, keys, p);
    }
    AtShaped(TypeCheck(v, ObjectType, p), p);
    AtShaped(RequiredCheck(v, required, p), p);
    ConcatShaped(TypeCheck(v, ObjectType, p), props);
    ConcatShaped(TypeCheck(v, ObjectType, p) + props, RequiredCheck(v, required, p));
  }

  lemma ClientEmailsShaped(v: Json)
    ensures AllWellShaped(ClientEmailsViolations(v, [Key("agreement_info"), Key("client_emails")]))
  {
    var p := [Key("agreement_info"), Key("client_emails")];
    TopKeyShaped("agreement_info");
    ExtendShaped([Key("agreement_info")], Key("client_emails"));
    assert [Key("agreement_info")] + [Key("client_emails")] == p;
    ChecksAt(v, p, []);
    var typed := TypeCheck(v, ArrayType, p);
    var items := if v.Array? then StringItems(v.items, p, 0) else [];
    var minItems: seq<Violation> := if v.Array? && |v.items| < 1 then [Violation(p, MinItems(1))] else [];
    var unique: seq<Violation> := if v.Array? && !Distinct(v.items) then [Violation(p, UniqueItems)] else [];
    AtShaped(typed, p);
    if v.Array? {
      StringItemsShaped(v.items, p, 0);
    }
    AtShaped(minItems, p);
    AtShaped(unique, p);
    ConcatShaped(typed, items);
    ConcatShaped(typed + items, minItems);
    ConcatShaped(typed + items + minItems, unique);
  }

  lemma AgreementPropertiesShaped(f: map<string, Json>)
    ensures AllWellShaped(AgreementProperties(f, [Key("agreement_info")]))
  {
    var p := [Key("agreement_info")];
    TopKeyShaped("agreement_info");
    ExtendShaped(p, Key("net"));
    var net := if "net" in f then NetViolations(f["net"], p + [Key("net")]) else [];
    if "net" in f {
      ChecksAt(f["net"], p + [Key("net")], []);
      AtShaped(net, p + [Key("net")]);
    }
    var emails := if "client_emails" in f then ClientEmailsViolations(f["client_emails"], p + [Key("client_emails")]) else [];
    if "client_emails" in f {
      assert p + [Key("client_emails")] == [Key("agreement_info"), Key("client_emails")];
      ClientEmailsShaped(f["client_emails"]);
    }
    StringPropertiesShaped(f, ["provider_email", "verified_sender_arn"], p);
    ConcatShaped(net, emails);
    ConcatShaped(net + emails, StringProperties(f, ["provider_email", "verified_sender_arn"], p));
  }

  lemma AgreementShaped(v: Json)
    ensures AllWellShaped(AgreementViolations(v, [Key("agreement_info")]))
  {
    var p := [Key("agreement_info")];
    TopKeyShaped("agreement_info");
    ChecksAt(v, p, AgreementRequired);
    AtShaped(TypeCheck(v, ObjectType, p), p);
    AtShaped(RequiredCheck(v, AgreementRequired, p), p);
    if v.Object? {
      AgreementPropertiesShaped(v.fields);
    }
  }

  lemma LineItemPropertiesShaped(f: map<string, Json>, p: Path)
    requires WellShaped(p) && |p| == 2 && p[0] == Key("line_items")
    ensures AllWellShaped(LineItemProperties(f, p))
  {
    StringPropertiesShaped(f, ["name", "description"], p);
    ExtendShaped(p, Key("units"));
    ExtendShaped(p, Key("unit_price"));
    if "units" in f {
      ChecksAt(f["units"], p + [Key("units")], []);
      AtShaped(UnitsViolations(f["units"], p + [Key("units")]), p + [Key("units")]);
    }
    if "unit_price" in f {
      ChecksAt(f["unit_price"], p + [Key("unit_price")], []);
      AtShaped(UnitPriceViolations(f["unit_price"], p + [Key("unit_price")]), p + [Key("unit_price")]);
    }
  }

  lemma LineItemShaped(v: Json, p: Path)
    requires WellShaped(p) && |p| == 2 && p[0] == Key("line_items")
    ensures AllWellShaped(LineItemViolations(v, p))
  {
    ChecksAt(v, p, LineItemRequired);
    AtShaped(TypeCheck(v, ObjectType, p), p);
    AtShaped(RequiredCheck(v, LineItemRequired, p), p);
    if v.Object? {
      LineItemPropertiesShaped(v.fields, p);
    }
  }

  lemma {:induction false} LineItemListShaped(items: seq<Json>, i: nat)
    ensures AllWellShaped(LineItemList(items, [Key("line_items")], i))
    decreases |items| - i
  {
    if i < |items| {
      TopKeyShaped("line_items");
      ExtendShaped([Key("line_items")], Index(i));
      LineItemShaped(items[i], [Key("line_items")] + [Index(i)]);
      LineItemListShaped(items, i + 1);
    }
  }

  lemma LineItemsShaped(v: Json)
    ensures AllWellShaped(LineItemsViolations(v, [Key("line_items")]))
  {
    TopKeyShaped("line_items");
    ChecksAt(v, [Key("line_items")], []);
    AtShaped(TypeCheck(v, ArrayType, [Key("line_items")]), [Key("line_items")]);
    if v.Array? {
      LineItemListShaped(v.items, 0);
    }
  }

  lemma TopPropertiesShaped(f: map<string, Json>)
    ensures AllWellShaped(TopProperties(f))
  {
    var schedule := if "schedule_expression" in f then TypeCheck(f["schedule_expression"], StringType, [Key("schedule_expression")]) else [];
    var provider := if "service_provider_info" in f then PartyViolations(f["service_provider_info"], [Key("service_provider_info")], ProviderKeys, ProviderRequired) else [];
    var client := if "client_info" in f then PartyViolations(f["client_info"], [Key("client_info")], ClientKeys, ClientRequired) else [];
    var agreement := if "agreement_info" in f then AgreementViolations(f["agreement_info"], [Key("agreement_info")]) else [];
    var items := if "line_items" in f then LineItemsViolations(f["line_items"], [Key("line_items")]) else [];
    assert TopProperties(f) == schedule + provider + client + agreement + items;
    if "schedule_expression" in f {
      TopKeyShaped("schedule_expression");
      ChecksAt(f["schedule_expression"], [Key("schedule_expression")], []);
      AtShaped(schedule, [Key("schedule_expression")]);
    }
    if "service_provider_info" in f {
      PartyShaped(f["service_provider_info"], "service_provider_info", ProviderKeys, ProviderRequired);
    }
    if "client_info" in f {
      PartyShaped(f["client_info"], "client_info", ClientKeys, ClientRequired);
    }
    if "agreement_info" in f {
      AgreementShaped(f["agreement_info"]);
    }
    if "line_items" in f {
      LineItemsShaped(f["line_items"]);
    }
    ConcatShaped(schedule, provider);
    ConcatShaped(schedule + provider, client);
    ConcatShaped(schedule + provider + client, agreement);
    ConcatShaped(schedule + provider + client + agreement, items);
  }

  lemma AllViolationsShaped(v: Json)
    ensures AllWellShaped(Violations(v))
  {
    ChecksAt(v, [], TopRequired);
    AtShaped(TypeCheck(v, ObjectType, []), []);
    AtShaped(RequiredCheck(v, TopRequired, []), []);
    if v.Object? {
      TopPropertiesShaped(v.fields);
    }
  }

  /** When sorting compares two violation paths that agree on their first i
      steps, their next steps are both keys or both indices: the comparison of
      a string with an integer, which Python refuses, never happens. */
  lemma NoMixedComparison(v: Json, w1: Violation, w2: Violation, i: nat)
    requires w1 in Violations(v) && w2 in Violations(v)
    requires i < |w1.path| && i < |w2.path| && w1.path[..i] == w2.path[..i]
    ensures w1.path[i].Index? <==> w2.path[i].Index?
  {
    AllViolationsShaped(v);
  }

  // ---------------------------------------------------------------------
  // validate_schema
  // ---------------------------------------------------------------------

  /** Passes when there is no violation; otherwise fails with every violation,
      ordered by path. */
  function ValidateSchema(invoice: Json): (r: Outcome<seq<Violation>>)
    ensures r.Pass? <==> Violations(invoice) == []
    ensures r.Pass? <==> Conforms(invoice)
    ensures r.Fail? ==> r.error != [] && SortedByPath(r.error)
    ensures r.Fail? ==> multiset(r.error) == multiset(Violations(invoice))
  {
    ViolationsEmptyIffConforms(invoice);
    var errors := SortByPath(Violations(invoice));
    if errors != [] then Fail(errors) else Pass
  }

  /** A violation found anywhere is in the error that validate_schema raises. */
  lemma Reported(invoice: Json, w: Violation)
    requires w in Violations(invoice)
    ensures ValidateSchema(invoice).Fail? && w in ValidateSchema(invoice).error
  {
    assert w in multiset(Violations(invoice));
  }

  lemma ReportedFromSection(invoice: Json, section: string, w: Violation)
    requires invoice.Object? && section in invoice.fields
    requires var v := invoice.fields[section];
      || (section == "service_provider_info" && w in PartyViolations(v, [Key(section)], ProviderKeys, ProviderRequired))
      || (section == "client_info" && w in PartyViolations(v, [Key(section)], ClientKeys, ClientRequired))
      || (section == "agreement_info" && w in AgreementViolations(v, [Key(section)]))
      || (section == "line_items" && w in LineItemsViolations(v, [Key(section)]))
    ensures ValidateSchema(invoice).Fail? && w in ValidateSchema(invoice).error
  {
    var f := invoice.fields;
    var schedule := if "schedule_expression" in f then TypeCheck(f["schedule_expression"], StringType, [Key("schedule_expression")]) else [];
    var provider := if "service_provider_info" in f then PartyViolations(f["service_provider_info"], [Key("service_provider_info")], ProviderKeys, ProviderRequired) else [];
    var client := if "client_info" in f then PartyViolations(f["client_info"], [Key("client_info")], ClientKeys, ClientRequired) else [];
    var agreement := if "agreement_info" in f then AgreementViolations(f["agreement_info"], [Key("agreement_info")]) else [];
    var items := if "line_items" in f then LineItemsViolations(f["line_items"], [Key("line_items")]) else [];
    assert TopProperties(f) == schedule + provider + client + agreement + items;
    assert w in TopProperties(f);
    assert w in Violations(invoice);
    Reported(invoice, w);
  }

  lemma {:induction false} MissingKeysContains(f: map<string, Json>, keys: seq<string>, p: Path, k: string)
    requires k in keys && k !in f
    ensures Violation(p, Required(k)) in MissingKeys(f, keys, p)
  {
    if keys[0] != k {
      MissingKeysContains(f, keys[1..], p, k);
    }
  }

  /** A configuration without one of the four sections is rejected, naming it. */
  lemma MissingSectionReported(invoice: Json, k: string)
    requires invoice.Object? && k in TopRequired && k !in invoice.fields
    ensures ValidateSchema(invoice).Fail?
    ensures Violation([], Required(k)) in ValidateSchema(invoice).error
  {
    MissingKeysContains(invoice.fields, TopRequired, [], k);
    Reported(invoice, Violation([], Required(k)));
  }

  /** The fields that the sections require. */
  const SectionRequired: seq<(string, string)> := [
    ("service_provider_info", "name"),
    ("client_info", "client_id"), ("client_info", "name"),
    ("agreement_info", "client_emails"), ("agreement_info", "provider_email")]

  /** A section without one of its required fields is rejected, naming the field. */
  lemma MissingFieldReported(invoice: Json, section: string, k: string)
    requires (section, k) in SectionRequired
    requires invoice.Object? && section in invoice.fields
    requires invoice.fields[section].Object? && k !in invoice.fields[section].fields
    ensures ValidateSchema(invoice).Fail?
    ensures Violation([Key(section)], Required(k)) in ValidateSchema(invoice).error
  {
    var v := invoice.fields[section];
    var p := [Key(section)];
    var w := Violation(p, Required(k));
    if section == "service_provider_info" {
      MissingKeysContains(v.fields, ProviderRequired, p, k);
      assert w in PartyViolations(v, p, ProviderKeys, ProviderRequired);
    } else if section == "client_info" {
      MissingKeysContains(v.fields, ClientRequired, p, k);
      assert w in PartyViolations(v, p, ClientKeys, ClientRequired);
    } else {
      MissingKeysContains(v.fields, AgreementRequired, p, k);
      assert w in AgreementViolations(v, p);
    }
    ReportedFromSection(invoice, section, w);
  }

  lemma ReportedFromAgreementProperty(invoice: Json, w: Violation)
    requires invoice.Object? && "agreement_info" in invoice.fields && invoice.fields["agreement_info"].Object?
    requires w in AgreementProperties(invoice.fields["agreement_info"].fields, [Key("agreement_info")])
    ensures ValidateSchema(invoice).Fail? && w in ValidateSchema(invoice).error
  {
    var a := invoice.fields["agreement_info"];
    assert w in AgreementViolations(a, [Key("agreement_info")]);
    ReportedFromSection(invoice, "agreement_info", w);
  }

  /** net, when given, must be an integer from 1 to 120. */
  lemma NetRuleReported(invoice: Json)
    requires invoice.Object? && "agreement_info" in invoice.fields
    requires invoice.fields["agreement_info"].Object? && "net" in invoice.fields["agreement_info"].fields
    ensures var net := invoice.fields["agreement_info"].fields["net"];
      var p := [Key("agreement_info"), Key("net")];
      && (!net.Int? ==> ValidateSchema(invoice).Fail? && Violation(p, WrongType(IntegerType)) in ValidateSchema(invoice).error)
      && (net.Int? && net.i < 1 ==> ValidateSchema(invoice).Fail? && Violation(p, Minimum(1.0)) in ValidateSchema(invoice).error)
      && (net.Int? && net.i > 120 ==> ValidateSchema(invoice).Fail? && Violation(p, Maximum(120.0)) in ValidateSchema(invoice).error)
  {
    var f := invoice.fields["agreement_info"].fields;
    var net := f["net"];
    var q := [Key("agreement_info")];
    var p := [Key("agreement_info"), Key("net")];
    assert q + [Key("net")] == p;
    var ws := NetViolations(net, p);
    var emails := if "client_emails" in f then ClientEmailsViolations(f["client_emails"], q + [Key("client_emails")]) else [];
    assert AgreementProperties(f, q) == ws + emails + StringProperties(f, ["provider_email", "verified_sender_arn"], q);
    if !net.Int? {
      ReportedFromAgreementProperty(invoice, Violation(p, WrongType(IntegerType)));
    } else if net.i < 1 {
      ReportedFromAgreementProperty(invoice, Violation(p, Minimum(1.0)));
    } else if net.i > 120 {
      ReportedFromAgreementProperty(invoice, Violation(p, Maximum(120.0)));
    }
  }

  lemma {:induction false} StringItemsContains(items: seq<Json>, p: Path, i: nat, k: nat)
    requires i <= k < |items| && !items[k].Str?
    ensures Violation(p + [Index(k)], WrongType(StringType)) in StringItems(items, p, i)
    decreases k - i
  {
    if i < k {
      StringItemsContains(items, p, i + 1, k);
    }
  }

  lemma ReportedFromClientEmails(invoice: Json, w: Violation)
    requires invoice.Object? && "agreement_info" in invoice.fields
    requires invoice.fields["agreement_info"].Object? && "client_emails" in invoice.fields["agreement_info"].fields
    requires w in ClientEmailsViolations(invoice.fields["agreement_info"].fields["client_emails"], [Key("agreement_info"), Key("client_emails")])
    ensures ValidateSchema(invoice).Fail? && w in ValidateSchema(invoice).error
  {
    var f := invoice.fields["agreement_info"].fields;
    var p := [Key("agreement_info")];
    assert p + [Key("client_emails")] == [Key("agreement_info"), Key("client_emails")];
    var net := if "net" in f then NetViolations(f["net"], p + [Key("net")]) else [];
    var emails := ClientEmailsViolations(f["client_emails"], p + [Key("client_emails")]);
    assert AgreementProperties(f, p) == net + emails + StringProperties(f, ["provider_email", "verified_sender_arn"], p);
    ReportedFromAgreementProperty(invoice, w);
  }

  /** client_emails must be a non-empty list of distinct strings. */
  lemma ClientEmailsRuleReported(invoice: Json)
    requires invoice.Object? && "agreement_info" in invoice.fields
    requires invoice.fields["agreement_info"].Object? && "client_emails" in invoice.fields["agreement_info"].fields
    ensures var e := invoice.fields["agreement_info"].fields["client_emails"];
      var p := [Key("agreement_info"), Key("client_emails")];
      && (!e.Array? ==> ValidateSchema(invoice).Fail? && Violation(p, WrongType(ArrayType)) in ValidateSchema(invoice).error)
      && (e.Array? && e.items == [] ==> ValidateSchema(invoice).Fail? && Violation(p, MinItems(1)) in ValidateSchema(invoice).error)
      && (e.Array? && !Distinct(e.items) ==> ValidateSchema(invoice).Fail? && Violation(p, UniqueItems) in ValidateSchema(invoice).error)
  {
    var e := invoice.fields["agreement_info"].fields["client_emails"];
    var p := [Key("agreement_info"), Key("client_emails")];
    if !e.Array? {
      ReportedFromClientEmails(invoice, Violation(p, WrongType(ArrayType)));
    } else {
      if e.items == [] {
        ReportedFromClientEmails(invoice, Violation(p, MinItems(1)));
      }
      if !Distinct(e.items) {
        ReportedFromClientEmails(invoice, Violation(p, UniqueItems));
      }
    }
  }

  /** Every client email must be a string; the offending index is named. */
  lemma ClientEmailItemReported(invoice: Json, k: nat)
    requires invoice.Object? && "agreement_info" in invoice.fields
    requires invoice.fields["agreement_info"].Object? && "client_emails" in invoice.fields["agreement_info"].fields
    requires var e := invoice.fields["agreement_info"].fields["client_emails"];
      e.Array? && k < |e.items| && !e.items[k].Str?
    ensures ValidateSchema(invoice).Fail?
    ensures Violation([Key("agreement_info"), Key("client_emails"), Index(k)], WrongType(StringType)) in ValidateSchema(invoice).error
  {
    var e := invoice.fields["agreement_info"].fields["client_emails"];
    var p := [Key("agreement_info"), Key("client_emails")];
    assert p + [Index(k)] == [Key("agreement_info"), Key("client_emails"), Index(k)];
    StringItemsContains(e.items, p, 0, k);
    ReportedFromClientEmails(invoice, Violation(p + [Index(k)], WrongType(StringType)));
  }

  lemma {:induction false} LineItemListContains(items: seq<Json>, p: Path, i: nat, k: nat, w: Violation)
    requires i <= k < |items| && w in LineItemViolations(items[k], p + [Index(k)])
    ensures w in LineItemList(items, p, i)
    decreases k - i
  {
    if i < k {
      LineItemListContains(items, p, i + 1, k, w);
    }
  }

  lemma ReportedFromLineItem(invoice: Json, k: nat, w: Violation)
    requires invoice.Object? && "line_items" in invoice.fields
    requires invoice.fields["line_items"].Array? && k < |invoice.fields["line_items"].items|
    requires w in LineItemViolations(invoice.fields["line_items"].items[k], [Key("line_items"), Index(k)])
    ensures ValidateSchema(invoice).Fail? && w in ValidateSchema(invoice).error
  {
    var li := invoice.fields["line_items"];
    assert [Key("line_items")] + [Index(k)] == [Key("line_items"), Index(k)];
    LineItemListContains(li.items, [Key("line_items")], 0, k, w);
    assert w in LineItemsViolations(li, [Key("line_items")]);
    ReportedFromSection(invoice, "line_items", w);
  }

  /** Every line item needs name, units and unit_price; the missing one is named. */
  lemma LineItemFieldReported(invoice: Json, k: nat, r: string)
    requires invoice.Object? && "line_items" in invoice.fields
    requires invoice.fields["line_items"].Array? && k < |invoice.fields["line_items"].items|
    requires invoice.fields["line_items"].items[k].Object?
    requires r in LineItemRequired && r !in invoice.fields["line_items"].items[k].fields
    ensures ValidateSchema(invoice).Fail?
    ensures Violation([Key("line_items"), Index(k)], Required(r)) in ValidateSchema(invoice).error
  {
    var v := invoice.fields["line_items"].items[k];
    var p := [Key("line_items"), Index(k)];
    MissingKeysContains(v.fields, LineItemRequired, p, r);
    ReportedFromLineItem(invoice, k, Violation(p, Required(r)));
  }

  /** units must be an integer no smaller than 1. */
  lemma UnitsReported(invoice: Json, k: nat)
    requires invoice.Object? && "line_items" in invoice.fields
    requires invoice.fields["line_items"].Array? && k < |invoice.fields["line_items"].items|
    requires invoice.fields["line_items"].items[k].Object?
    requires "units" in invoice.fields["line_items"].items[k].fields
    ensures var u := invoice.fields["line_items"].items[k].fields["units"];
      var w := if u.Int? then Violation([Key("line_items"), Index(k), Key("units")], Minimum(1.0))
               else Violation([Key("line_items"), Index(k), Key("units")], WrongType(IntegerType));
      !(u.Int? && u.i >= 1) ==> ValidateSchema(invoice).Fail? && w in ValidateSchema(invoice).error
  {
    var f := invoice.fields["line_items"].items[k].fields;
    var p := [Key("line_items"), Index(k)];
    var u := f["units"];
    var units := UnitsViolations(u, p + [Key("units")]);
    var price := if "unit_price" in f then UnitPriceViolations(f["unit_price"], p + [Key("unit_price")]) else [];
    assert LineItemProperties(f, p) == StringProperties(f, ["name", "description"], p) + units + price;
    assert p + [Key("units")] == [Key("line_items"), Index(k), Key("units")];
    if !u.Int? {
      ReportedFromLineItem(invoice, k, Violation(p + [Key("units")], WrongType(IntegerType)));
    } else if u.i < 1 {
      ReportedFromLineItem(invoice, k, Violation(p + [Key("units")], Minimum(1.0)));
    }
  }

  /** unit_price must be a number no smaller than 0.01. */
  lemma UnitPriceReported(invoice: Json, k: nat)
    requires invoice.Object? && "line_items" in invoice.fields
    requires invoice.fields["line_items"].Array? && k < |invoice.fields["line_items"].items|
    requires invoice.fields["line_items"].items[k].Object?
    requires "unit_price" in invoice.fields["line_items"].items[k].fields
    ensures var u := invoice.fields["line_items"].items[k].fields["unit_price"];
      var w := if HasType(u, NumberType) then Violation([Key("line_items"), Index(k), Key("unit_price")], Minimum(0.01))
               else Violation([Key("line_items"), Index(k), Key("unit_price")], WrongType(NumberType));
      !(HasType(u, NumberType) && NumberValue(u) >= 0.01) ==> ValidateSchema(invoice).Fail? && w in ValidateSchema(invoice).error
  {
    var f := invoice.fields["line_items"].items[k].fields;
    var p := [Key("line_items"), Index(k)];
    var u := f["unit_price"];
    var units := if "units" in f then UnitsViolations(f["units"], p + [Key("units")]) else [];
    var price := UnitPriceViolations(u, p + [Key("unit_price")]);
    assert LineItemProperties(f, p) == StringProperties(f, ["name", "description"], p) + units + price;
    assert p + [Key("unit_price")] == [Key("line_items"), Index(k), Key("unit_price")];
    if !HasType(u, NumberType) {
      ReportedFromLineItem(invoice, k, Violation(p + [Key("unit_price")], WrongType(NumberType)));
    } else if NumberValue(u) < 0.01 {
      ReportedFromLineItem(invoice, k, Violation(p + [Key("unit_price")], Minimum(0.01)));
    }
  }

  /** There is no minItems on line_items: a conforming invoice still conforms
      with an empty list of line items. */
  lemma EmptyLineItemsAccepted(invoice: Json)
    requires Conforms(invoice)
    ensures Conforms(Object(invoice.fields["line_items" := Array([])]))
  {
    var f := invoice.fields;
    var g := f["line_items" := Array([])];
    assert HasKeys(g, TopRequired);
    assert StringValued(g, ["schedule_expression"]) by {
      assert StringValued(f, ["schedule_expression"]);
    }
    assert g["service_provider_info"] == f["service_provider_info"];
    assert g["client_info"] == f["client_info"];
    assert g["agreement_info"] == f["agreement_info"];
  }
}
