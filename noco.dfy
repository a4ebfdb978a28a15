/**
 * Record normalisation and pagination of the NocoDB client (services/noco.ts):
 * the defensive field extractors, the keyword classifiers that map free-text
 * statuses and channels onto the enums, the per-record mappers and the bounded
 * page loop against the proxy.
 */
module Noco {
  import opened Common
  import opened Types
  import opened Grouping

  // ---------------------------------------------------------------------------
  // Raw JSON values as the proxy returns them
  // ---------------------------------------------------------------------------

  /** A decoded JSON value; numbers are integers and object keys are distinct. */
  datatype Json =
    | JUndefined
    | JNull
    | JBool(b: bool)
    | JNum(n: int)
    | JStr(s: string)
    | JArr(items: seq<Json>)
    | JObj(props: seq<(string, Json)>)

  /** JavaScript truthiness: `undefined`, `null`, `false`, `0` and `""` are falsy. */
  predicate Truthy(j: Json) {
    match j
    case JUndefined => false
    case JNull => false
    case JBool(b) => b
    case JNum(n) => n != 0
    case JStr(s) => s != ""
    case _ => true
  }

  /** `a || b`. */
  function Or(a: Json, b: Json): (r: Json)
    ensures Truthy(a) ==> r == a
    ensures !Truthy(a) ==> r == b
  {
    if Truthy(a) then a else b
  }

  function Lookup(props: seq<(string, Json)>, key: string): Json {
    if props == [] then JUndefined
    else if props[0].0 == key then props[0].1
    else Lookup(props[1..], key)
  }

  /** `o[key]`: the property of an object, `undefined` for a missing key or a non-object. */
  function Get(o: Json, key: string): Json {
    if o.JObj? then Lookup(o.props, key) else JUndefined
  }

  /** `String(j)`. */
  function ToStr(j: Json): string
    decreases j, 1, 0
  {
    match j
    case JUndefined => "undefined"
    case JNull => "null"
    case JBool(b) => if b then "true" else "false"
    case JNum(n) => IntToString(n)
    case JStr(s) => s
    case JArr(items) => JoinItems(j, 0)
    case JObj(_) => "[object Object]"
  }

  /** `String` of an array from index `i`: items joined by ',', null and undefined as empty. */
  function JoinItems(j: Json, i: nat): string
    requires j.JArr? && i <= |j.items|
    decreases j, 0, |j.items| - i
  {
    if i == |j.items| then ""
    else
      var x := j.items[i];
      var piece := if x.JUndefined? || x.JNull? then "" else ToStr(x);
      if i + 1 == |j.items| then piece else piece + "," + JoinItems(j, i + 1)
  }

  // ---------------------------------------------------------------------------
  // Extractors
  // ---------------------------------------------------------------------------

  /** `Id ?? id` of an object. */
  function IdProp(o: Json): Json {
    var id := Get(o, "Id");
    if id.JUndefined? || id.JNull? then Get(o, "id") else id
  }

  /**
   * The id of a linked-record field: '' for null/undefined, the id of the first
   * element of an array ('' when empty), `String(Id ?? id)` of an object ('' when
   * both are missing), and `String(field)` for anything else.
   */
  function ExtractId(field: Json): (r: string)
    ensures field.JUndefined? || field.JNull? ==> r == ""
    ensures field.JArr? && field.items == [] ==> r == ""
    ensures field.JArr? && field.items != [] ==> r == ExtractId(field.items[0])
    ensures field.JStr? ==> r == field.s
    ensures field.JNum? ==> r == IntToString(field.n)
    ensures field.JObj? && (IdProp(field).JUndefined? || IdProp(field).JNull?) ==> r == ""
    ensures field.JObj? && !(IdProp(field).JUndefined? || IdProp(field).JNull?) ==> r == ToStr(IdProp(field))
    ensures field.JBool? ==> r == (if field.b then "true" else "false")
    decreases field
  {
    match field
    case JUndefined => ""
    case JNull => ""
    case JArr(items) => if |items| > 0 then ExtractId(items[0]) else ""
    case JObj(_) =>
      var id := IdProp(field);
      if id.JUndefined? || id.JNull? then "" else ToStr(id)
    case _ => ToStr(field)
  }

  /** `x` wrapped in `n` single-element arrays, as NocoDB nests linked records. */
  function Wrap(x: Json, n: nat): Json {
    if n == 0 then x else JArr([Wrap(x, n - 1)])
  }

  /** Any depth of single-element array nesting is looked through. */
  lemma {:induction false} ExtractIdUnwraps(x: Json, n: nat)
    ensures ExtractId(Wrap(x, n)) == ExtractId(x)
  {
    if n > 0 {
      ExtractIdUnwraps(x, n - 1);
    }
  }

  /** The keys of an object's properties, in the order they were inserted. */
  function PropKeys(props: seq<(string, Json)>): (ks: seq<string>)
    ensures |ks| == |props| && forall i :: 0 <= i < |props| ==> ks[i] == props[i].0
  {
    seq(|props|, i requires 0 <= i < |props| => props[i].0)
  }

  /**
   * `Object.entries` of an object: its properties in property-key order (array
   * indices ascending, then the other keys as inserted).
   */
  function ObjectEntries(props: seq<(string, Json)>): (es: seq<(string, Json)>)
    ensures |es| == |props|
    ensures forall i :: 0 <= i < |es| ==> es[i].0 == RecordKeys(PropKeys(props))[i] && es[i].1 == Lookup(props, es[i].0)
  {
    var ks := RecordKeys(PropKeys(props));
    seq(|ks|, i requires 0 <= i < |ks| => (ks[i], Lookup(props, ks[i])))
  }

  /** `Object.entries` of a string: one entry per character, keyed by its decimal index. */
  function StringEntries(s: string): (es: seq<(string, Json)>)
    ensures |es| == |s| && forall i :: 0 <= i < |es| ==> es[i] == (NatToString(i), JStr([s[i]]))
  {
    seq(|s|, i requires 0 <= i < |s| => (NatToString(i), JStr([s[i]])))
  }

  /** `Object.entries` of an array: one entry per item, keyed by its decimal index. */
  function ArrayEntries(items: seq<Json>): (es: seq<(string, Json)>)
    ensures |es| == |items| && forall i :: 0 <= i < |es| ==> es[i] == (NatToString(i), items[i])
  {
    seq(|items|, i requires 0 <= i < |items| => (NatToString(i), items[i]))
  }

  /** `Object.entries(v)`: numbers, booleans, null and undefined have no own properties. */
  function Entries(v: Json): (es: seq<(string, Json)>)
    ensures !(v.JObj? || v.JStr? || v.JArr?) ==> es == []
  {
    match v
    case JObj(props) => ObjectEntries(props)
    case JStr(s) => StringEntries(s)
    case JArr(items) => ArrayEntries(items)
    case _ => []
  }

  predicate IsIdKey(k: string) {
    Lower(k) == "id"
  }

  /** The position of the first entry whose key does not lower-case to "id" (`|es|` when none). */
  function FirstNonId(es: seq<(string, Json)>): (k: nat)
    ensures k <= |es|
    ensures forall j :: 0 <= j < k ==> IsIdKey(es[j].0)
    ensures k < |es| ==> !IsIdKey(es[k].0)
  {
    if es == [] || !IsIdKey(es[0].0) then 0 else 1 + FirstNonId(es[1..])
  }

  /**
   * `fields[keys[0]] || ''` over the entries `es` of `fields`, taking for
   * `keys[0]` the first key that is not an id: '' when that value is falsy or
   * every key is an id (a falsy `fields` has no entries).
   */
  function EntriesName(es: seq<(string, Json)>): (r: string)
    ensures (forall j :: 0 <= j < |es| ==> IsIdKey(es[j].0)) ==> r == ""
    ensures forall k :: 0 <= k < |es| && !IsIdKey(es[k].0) && (forall j :: 0 <= j < k ==> IsIdKey(es[j].0)) ==>
      r == (if Truthy(es[k].1) then ToStr(es[k].1) else "")
  {
    var k := FirstNonId(es);
    if k < |es| && Truthy(es[k].1) then ToStr(es[k].1) else ""
  }

  /**
   * The display name of a linked record: '' for a falsy field, a string as it
   * is, the first element of a non-empty array, and for an object the name its
   * `fields` property gives.
   */
  function ExtractLinkedName(field: Json): (r: string)
    ensures !Truthy(field) ==> r == ""
    ensures field.JStr? ==> r == field.s
    ensures field.JArr? && field.items != [] ==> r == ExtractLinkedName(field.items[0])
    ensures field.JBool? || field.JNum? || (field.JArr? && field.items == []) ==> r == ""
    ensures field.JObj? ==> r == EntriesName(Entries(Get(field, "fields")))
    decreases field
  {
    if !Truthy(field) then ""
    else
      match field
      case JStr(s) => s
      case JArr(items) => if |items| > 0 then ExtractLinkedName(items[0]) else ""
      case JObj(_) => EntriesName(Entries(Get(field, "fields")))
      case _ => ""
  }

  /**
   * With `fields` an object whose keys in property order are `ks`, the name is
   * the value under the first key `ks[k]` that is not an id.
   */
  lemma LinkedNameOfObjectFields(props: seq<(string, Json)>, ks: seq<string>, k: nat)
    requires RecordKeys(PropKeys(props)) == ks
    requires k < |ks| && !IsIdKey(ks[k]) && forall j :: 0 <= j < k ==> IsIdKey(ks[j])
    ensures var v := Lookup(props, ks[k]);
      ExtractLinkedName(JObj([("fields", JObj(props))])) == (if Truthy(v) then ToStr(v) else "")
  {
    var field := JObj([("fields", JObj(props))]);
    assert Get(field, "fields") == JObj(props);
    var es := Entries(JObj(props));
    assert forall j :: 0 <= j < |es| ==> es[j].0 == ks[j];
  }

  /** A NocoDB link cell: the id column is skipped and the title column wins. */
  lemma LinkedNameSkipsId()
    ensures ExtractLinkedName(JArr([JObj([("fields", JObj([("Id", JNum(7)), ("Title", JStr("Curso VIP"))]))])]))
         == "Curso VIP"
  {
    var props := [("Id", JNum(7)), ("Title", JStr("Curso VIP"))];
    IdTitleCell(props);
    assert Truthy(JArr([JObj([("fields", JObj(props))])]));
  }

  lemma IdTitleCell(props: seq<(string, Json)>)
    requires props == [("Id", JNum(7)), ("Title", JStr("Curso VIP"))]
    ensures ExtractLinkedName(JObj([("fields", JObj(props))])) == "Curso VIP"
  {
    IdTitleKeys(props);
    IdTitleIdKeys();
    LinkedNameOfObjectFields(props, ["Id", "Title"], 1);
    assert Lookup(props, "Title") == JStr("Curso VIP");
  }

  lemma IdTitleKeys(props: seq<(string, Json)>)
    requires props == [("Id", JNum(7)), ("Title", JStr("Curso VIP"))]
    ensures RecordKeys(PropKeys(props)) == ["Id", "Title"]
  {
    PropKeysOfPair(props);
    IdTitlePlain(["Id", "Title"]);
  }

  lemma IdTitleIdKeys()
    ensures IsIdKey("Id") && !IsIdKey("Title")
  {
    assert Lower("Title")[0] == 't';
  }

  lemma PropKeysOfPair(props: seq<(string, Json)>)
    requires |props| == 2
    ensures PropKeys(props) == [props[0].0, props[1].0]
  {
  }

  lemma IdTitlePlain(ks: seq<string>)
    requires ks == ["Id", "Title"]
    ensures RecordKeys(ks) == ks
  {
    assert !IsDigit(ks[0][0]) && !IsDigit(ks[1][0]);
    RecordKeysPlain(ks);
  }

  /** A string `fields` is read as its characters: the first one names the record. */
  lemma LinkedNameOfStringFields(s: string)
    requires s != ""
    ensures ExtractLinkedName(JObj([("fields", JStr(s))])) == [s[0]]
  {
    var es := Entries(JStr(s));
    assert es[0].0 == "0";
    assert Lower("0")[0] == '0';
  }

  /** An array `fields` names the record by its first item, '' when that item is falsy. */
  lemma LinkedNameOfArrayFields(items: seq<Json>)
    requires items != []
    ensures ExtractLinkedName(JObj([("fields", JArr(items))])) == (if Truthy(items[0]) then ToStr(items[0]) else "")
  {
    var es := Entries(JArr(items));
    assert es[0].0 == "0";
    assert Lower("0")[0] == '0';
  }

  /** An array-index key of `fields` comes before an earlier-inserted name key. */
  lemma LinkedNameIndexKeyFirst()
    ensures ExtractLinkedName(JObj([("fields", JObj([("Precio alto", JStr("x")), ("2", JStr("y"))]))])) == "y"
  {
    var props := [("Precio alto", JStr("x")), ("2", JStr("y"))];
    PrecioKeys(props);
    LinkedNameOfObjectFields(props, ["2", "Precio alto"], 0);
  }

  lemma PrecioKeys(props: seq<(string, Json)>)
    requires props == [("Precio alto", JStr("x")), ("2", JStr("y"))]
    ensures RecordKeys(PropKeys(props)) == ["2", "Precio alto"]
    ensures !IsIdKey("2") && Lookup(props, "2") == JStr("y")
  {
    PropKeysOfPair(props);
    RecordKeysExample();
    assert Lower("2")[0] == '2';
  }

  /**
   * `normalizeDate`: the instant the (abstract) date parser finds, the epoch
   * for a falsy or unparseable value; it never fails.
   */
  function NormalizeDate(raw: Json, parse: Json -> Option<int>): (r: Stamp)
    ensures r.At?
    ensures !Truthy(raw) || parse(raw).None? ==> r == At(0)
    ensures Truthy(raw) && parse(raw).Some? ==> r == At(parse(raw).value)
  {
    if !Truthy(raw) then At(0)
    else match parse(raw)
      case None => At(0)
      case Some(ms) => At(ms)
  }

  // ---------------------------------------------------------------------------
  // Amounts
  // ---------------------------------------------------------------------------

  predicate IsAmountChar(c: char) {
    IsDigit(c) || c == '.' || c == '-'
  }

  /** `replace(/[^0-9.-]+/g, '')`. */
  function Clean(s: string): (r: string)
    ensures |r| <= |s|
    ensures forall i :: 0 <= i < |r| ==> IsAmountChar(r[i])
  {
    if s == [] then []
    else if IsAmountChar(s[0]) then [s[0]] + Clean(s[1..])
    else Clean(s[1..])
  }

  /** The longest prefix made of decimal digits. */
  function LeadingDigits(s: string): (r: string)
    ensures |r| <= |s| && r == s[..|r|]
    ensures forall i :: 0 <= i < |r| ==> IsDigit(r[i])
  {
    if s != [] && IsDigit(s[0]) then [s[0]] + LeadingDigits(s[1..]) else []
  }

  /**
   * `parseFloat(c) || 0` on a cleaned string, truncated to its integer part:
   * an optional '-', then the digits before the first non-digit.
   */
  function ParseCleaned(c: string): int
    requires forall i :: 0 <= i < |c| ==> IsAmountChar(c[i])
  {
    if |c| > 0 && c[0] == '-' then -(DigitsValue(LeadingDigits(c[1..])) as int)
    else DigitsValue(LeadingDigits(c))
  }

  /**
   * `parseAmount`: numbers pass through, falsy values and non-strings give 0,
   * strings are stripped to digits, '.' and '-' and parsed.
   */
  function ParseAmount(v: Json): (r: int)
    ensures v.JNum? ==> r == v.n
    ensures !v.JNum? && !v.JStr? ==> r == 0
    ensures v == JStr("") ==> r == 0
    ensures v.JStr? ==> r == ParseCleaned(Clean(v.s))
  {
    match v
    case JNum(n) => n
    case JStr(s) => if s == "" then 0 else ParseCleaned(Clean(s))
    case _ => 0
  }

  lemma {:induction false} CleanKeeps(s: string)
    requires forall i :: 0 <= i < |s| ==> IsAmountChar(s[i])
    ensures Clean(s) == s
  {
    if s != [] {
      CleanKeeps(s[1..]);
    }
  }

  lemma {:induction false} LeadingDigitsAll(s: string)
    requires forall i :: 0 <= i < |s| ==> IsDigit(s[i])
    ensures LeadingDigits(s) == s
  {
    if s != [] {
      LeadingDigitsAll(s[1..]);
    }
  }

  /** Reading back the numeral `String(n)` writes gives `n`. */
  lemma {:induction false} DigitsValueOfNat(n: nat)
    ensures DigitsValue(NatToString(n)) == n
  {
    var d := NatToString(n);
    if n >= 10 {
      DigitsValueOfNat(n / 10);
      assert d[..|d| - 1] == NatToString(n / 10);
    } else {
      assert d[..|d| - 1] == [];
    }
  }

  /** `parseAmount(String(n)) == n`: an amount printed as text parses back. */
  lemma ParseAmountOfText(n: int)
    ensures ParseAmount(JStr(IntToString(n))) == n
  {
    var m: nat := if n < 0 then -n else n;
    var digits := NatToString(m);
    var s := IntToString(n);
    forall i | 0 <= i < |s| ensures IsAmountChar(s[i]) {
      if n < 0 && i > 0 {
        assert s[i] == digits[i - 1];
      }
    }
    CleanKeeps(s);
    LeadingDigitsAll(digits);
    DigitsValueOfNat(m);
    if n < 0 {
      assert s[1..] == digits;
    } else {
      assert digits[0] != '-';
    }
  }

  lemma CleanedPrice()
    ensures Clean("$1,500") == "1500"
  {
  }

  lemma PriceDigits()
    ensures DigitsValue("1500") == 1500
  {
    DigitsValueOfNat(1500);
    assert NatToString(1500) == "1500";
  }

  /** Currency symbols and thousands separators are dropped before parsing. */
  lemma ParseAmountStripsSymbols(v: string)
    requires v == "$1,500"
    ensures ParseAmount(JStr(v)) == 1500
  {
    CleanedPrice();
    PriceDigits();
    LeadingDigitsAll("1500");
  }

  // ---------------------------------------------------------------------------
  // Keyword classifiers
  // ---------------------------------------------------------------------------

  // The keyword rules of the status chain, on the lower-cased text.

  predicate NewWords(s: string) { Contains(s, "nuevo") && !Contains(s, "seguimiento") }
  predicate WonWords(s: string) { Contains(s, "ganada") }
  predicate LostWords(s: string) {
    Contains(s, "perdida") || Contains(s, "leads perdidos") || Contains(s, "no contactar")
  }
  predicate InterestedWords(s: string) { Contains(s, "agendada") || Contains(s, "potencial venta") }
  predicate ContactedWords(s: string) {
    Contains(s, "seguimiento") || Contains(s, "contactar") || Contains(s, "nutrición") || Contains(s, "no se presentó")
  }

  /**
   * The lead status of a free-text CRM status: the first rule that matches
   * decides, NEW when none does.
   */
  function ContactStatusOf(raw: string): (r: LeadStatus)
    ensures var s := Lower(raw);
      (r == New <==> NewWords(s) || !(WonWords(s) || LostWords(s) || InterestedWords(s) || ContactedWords(s)))
      && (r == ClosedWon <==> !NewWords(s) && WonWords(s))
      && (r == ClosedLost <==> !NewWords(s) && !WonWords(s) && LostWords(s))
      && (r == Interested <==> !NewWords(s) && !WonWords(s) && !LostWords(s) && InterestedWords(s))
      && (r == Contacted <==> !NewWords(s) && !WonWords(s) && !LostWords(s) && !InterestedWords(s) && ContactedWords(s))
  {
    var s := Lower(raw);
    if NewWords(s) then New
    else if WonWords(s) then ClosedWon
    else if LostWords(s) then ClosedLost
    else if InterestedWords(s) then Interested
    else if ContactedWords(s) then Contacted
    else New
  }

  // The examples below fix the lower-cased text first (`LowerIs`) and settle
  // each keyword test in a separate lemma, by an occurrence at a known position
  // or by a character the text lacks.

  lemma LeadNuevoFacts(s: string)
    requires s == "lead nuevo"
    ensures Contains(s, "nuevo") && !Contains(s, "seguimiento")
  {
    ContainsAt(s, 5, "nuevo");
    Lacks(s, "seguimiento", 's');
  }

  lemma ContactStatusLeadNuevo(raw: string)
    requires raw == "Lead Nuevo"
    ensures ContactStatusOf(raw) == New
  {
    var s := "lead nuevo";
    LowerIs(raw, s);
    LeadNuevoFacts(s);
  }

  lemma VentaGanadaFacts(s: string)
    requires s == "venta ganada"
    ensures !Contains(s, "nuevo") && Contains(s, "ganada")
  {
    Lacks(s, "nuevo", 'o');
    ContainsAt(s, 6, "ganada");
  }

  lemma ContactStatusVentaGanada(raw: string)
    requires raw == "Venta Ganada"
    ensures ContactStatusOf(raw) == ClosedWon
  {
    var s := "venta ganada";
    LowerIs(raw, s);
    VentaGanadaFacts(s);
  }

  lemma VentaPerdidaFacts(s: string)
    requires s == "venta perdida"
    ensures !Contains(s, "nuevo") && !Contains(s, "ganada") && Contains(s, "perdida")
  {
    Lacks(s, "nuevo", 'o');
    Lacks(s, "ganada", 'g');
    PerdidaAt(s);
  }

  lemma PerdidaAt(s: string)
    requires s == "venta perdida"
    ensures Contains(s, "perdida")
  {
    ContainsAt(s, 6, "perdida");
  }

  lemma ContactStatusVentaPerdida(raw: string)
    requires raw == "Venta Perdida"
    ensures ContactStatusOf(raw) == ClosedLost
  {
    var s := "venta perdida";
    LowerIs(raw, s);
    VentaPerdidaFacts(s);
  }

  lemma NoContactarFacts(s: string)
    requires s == "no contactar"
    ensures !Contains(s, "nuevo") && !Contains(s, "ganada") && Contains(s, "no contactar")
  {
    Lacks(s, "nuevo", 'u');
    Lacks(s, "ganada", 'g');
    ContainsSelf(s);
  }

  /** "No contactar" closes the lead as lost, although it mentions contacting. */
  lemma ContactStatusNoContactar(raw: string)
    requires raw == "No contactar"
    ensures ContactStatusOf(raw) == ClosedLost
  {
    var s := "no contactar";
    LowerIs(raw, s);
    NoContactarFacts(s);
  }

  lemma LlamadaAgendadaGanada(s: string)
    requires s == "llamada agendada"
    ensures !Contains(s, "ganada")
  {
    LacksPair(s, "ganada", 0);
  }

  lemma LlamadaAgendadaFacts(s: string)
    requires s == "llamada agendada"
    ensures !Contains(s, "nuevo") && !Contains(s, "perdida") && !Contains(s, "leads perdidos")
  {
    Lacks(s, "nuevo", 'u');
    Lacks(s, "perdida", 'p');
    Lacks(s, "leads perdidos", 'p');
  }

  lemma LlamadaAgendadaMoreFacts(s: string)
    requires s == "llamada agendada"
    ensures !Contains(s, "no contactar") && Contains(s, "agendada")
  {
    Lacks(s, "no contactar", 'o');
    ContainsAt(s, 8, "agendada");
  }

  /** "Llamada Agendada" holds every letter of "ganada" but not the word. */
  lemma ContactStatusLlamadaAgendada(raw: string)
    requires raw == "Llamada Agendada"
    ensures ContactStatusOf(raw) == Interested
  {
    var s := "llamada agendada";
    LowerIs(raw, s);
    LlamadaAgendadaFacts(s);
    LlamadaAgendadaGanada(s);
    LlamadaAgendadaMoreFacts(s);
  }

  lemma SeguimientoNuevoFacts(s: string)
    requires s == "seguimiento cliente nuevo"
    ensures Contains(s, "nuevo") && Contains(s, "seguimiento")
    ensures !Contains(s, "ganada") && !Contains(s, "perdida") && !Contains(s, "leads perdidos")
            && !Contains(s, "no contactar") && !Contains(s, "agendada") && !Contains(s, "potencial venta")
  {
    ContainsAt(s, 20, "nuevo");
    ContainsAt(s, 0, "seguimiento");
    var ts := ["ganada", "perdida", "leads perdidos", "no contactar", "agendada", "potencial venta"];
    LacksAll(s, ts, 'a');
    assert !Contains(s, ts[0]) && !Contains(s, ts[1]) && !Contains(s, ts[2]);
    assert !Contains(s, ts[3]) && !Contains(s, ts[4]) && !Contains(s, ts[5]);
  }

  /** "Seguimiento Cliente Nuevo" mentions "nuevo" but the follow-up rule wins. */
  lemma ContactStatusSeguimientoNuevo(raw: string)
    requires raw == "Seguimiento Cliente Nuevo"
    ensures ContactStatusOf(raw) == Contacted
  {
    var s := "seguimiento cliente nuevo";
    LowerIs(raw, s);
    SeguimientoNuevoFacts(s);
  }

  /**
   * The lost reason of a free-text reason: the first rule that matches
   * decides, `undefined` when none does; a budget mention counts as too
   * expensive, but only after the other rules.
   */
  function LostReasonOf(raw: string): (r: Option<LostReason>)
    ensures var s := Lower(raw);
      var price := Contains(s, "precio") || Contains(s, "caro");
      var uninterested := Contains(s, "interesado");
      var rival := Contains(s, "oferta") || Contains(s, "competencia");
      var budget := Contains(s, "presupuesto");
      (r == Some(Expensive) <==> price || (!uninterested && !rival && budget))
      && (r == Some(NotInterested) <==> !price && uninterested)
      && (r == Some(Competition) <==> !price && !uninterested && rival)
      && (r.None? <==> !(price || uninterested || rival || budget))
  {
    var s := Lower(raw);
    if Contains(s, "precio") || Contains(s, "caro") then Some(Expensive)
    else if Contains(s, "interesado") then Some(NotInterested)
    else if Contains(s, "oferta") || Contains(s, "competencia") then Some(Competition)
    else if Contains(s, "presupuesto") then Some(Expensive)
    else None
  }

  /** The channel of a free-text medium: the first keyword that matches decides, WhatsApp by default. */
  function InteractionTypeOf(raw: string): (r: InteractionType)
    ensures var s := Lower(raw);
      var call := Contains(s, "llamada");
      var email := Contains(s, "email");
      var sysio := Contains(s, "system.io");
      var form := Contains(s, "formulario");
      var manychat := Contains(s, "manychat");
      var other := Contains(s, "sistema");
      (r == Call <==> call)
      && (r == Email <==> !call && email)
      && (r == SystemIo <==> !call && !email && sysio)
      && (r == Form <==> !call && !email && !sysio && form)
      && (r == ManyChat <==> !call && !email && !sysio && !form && manychat)
      && (r == OtherChannel <==> !call && !email && !sysio && !form && !manychat && other)
      && (r == WhatsApp <==> !(call || email || sysio || form || manychat || other))
  {
    var s := Lower(raw);
    if Contains(s, "llamada") then Call
    else if Contains(s, "email") then Email
    else if Contains(s, "system.io") then SystemIo
    else if Contains(s, "formulario") then Form
    else if Contains(s, "manychat") then ManyChat
    else if Contains(s, "sistema") then OtherChannel
    else WhatsApp
  }

  /** "Llamada por Email" is a call: the earlier keyword wins. */
  lemma InteractionTypeFirstMatch(raw: string)
    requires raw == "Llamada por Email"
    ensures InteractionTypeOf(raw) == Call
  {
    var s := "llamada por email";
    LowerIs(raw, s);
    ContainsAt(s, 0, "llamada");
  }

  /**
   * The status of a purchase attempt. Recovered or approved is SUCCESSFUL, but
   * the closed/cancelled test runs afterwards on its own and overrides it.
   */
  function AttemptStatusOf(raw: string): (r: AttemptStatus)
    ensures var s := Lower(raw);
      (r == Failed <==> Contains(s, "cerrado") || Contains(s, "cancelado"))
      && (r == Successful <==> !(Contains(s, "cerrado") || Contains(s, "cancelado"))
                               && (Contains(s, "recuperado") || Contains(s, "aprobado")))
  {
    var s := Lower(raw);
    var status := if Contains(s, "recuperado") || Contains(s, "aprobado") then Successful else Abandoned;
    if Contains(s, "cerrado") || Contains(s, "cancelado") then Failed else status
  }

  /** "Recuperado - Cancelado" ends up FAILED although it says recovered. */
  lemma AttemptCancelledOverridesRecovered(raw: string)
    requires raw == "Recuperado - Cancelado"
    ensures AttemptStatusOf(raw) == Failed
  {
    var s := "recuperado - cancelado";
    LowerIs(raw, s);
    RecuperadoCanceladoFacts(s);
  }

  lemma RecuperadoCanceladoFacts(s: string)
    requires s == "recuperado - cancelado"
    ensures Contains(s, "cancelado")
  {
    ContainsAt(s, 13, "cancelado");
  }

  // ---------------------------------------------------------------------------
  // Record mappers
  // ---------------------------------------------------------------------------

  const TypeError: string := "TypeError"

  /** `String(item.Id || item.id)`: "undefined" when neither is set. */
  function RecordId(item: Json): string {
    ToStr(Or(Get(item, "Id"), Get(item, "id")))
  }

  function MapSeller(item: Json): (r: Seller)
    ensures r.id == RecordId(item)
    ensures Truthy(Get(item, "Nombre de la Vendedora")) ==> r.name == ToStr(Get(item, "Nombre de la Vendedora"))
    ensures !Truthy(Get(item, "Nombre de la Vendedora")) && Truthy(Get(item, "Name")) ==> r.name == ToStr(Get(item, "Name"))
    ensures !Truthy(Get(item, "Nombre de la Vendedora")) && !Truthy(Get(item, "Name")) && Truthy(Get(item, "Nombre"))
            ==> r.name == ToStr(Get(item, "Nombre"))
    ensures (!Truthy(Get(item, "Nombre de la Vendedora")) && !Truthy(Get(item, "Name"))
             && !Truthy(Get(item, "Nombre"))) ==> r.name == "Sin Nombre"
  {
    Seller(RecordId(item),
      ToStr(Or(Or(Or(Get(item, "Nombre de la Vendedora"), Get(item, "Name")), Get(item, "Nombre")), JStr("Sin Nombre"))))
  }

  /**
   * A contact row. The status and reason chains end in '' and are lower-cased,
   * so a truthy non-string in either makes the whole mapping throw.
   */
  function MapContact(item: Json, parse: Json -> Option<int>): (r: Result<Contact, string>)
    ensures var rawStatus := Or(Or(Or(Get(item, "Estado Actual"), Get(item, "Status")), Get(item, "Estado")), JStr(""));
      var rawReason := Or(Or(Or(Get(item, "Motivo Venta Perdida"), Get(item, "LostReason")), Get(item, "Motivo")), JStr(""));
      (r.Ok? <==> rawStatus.JStr? && rawReason.JStr?)
      && (r.Ok? ==> r.value.status == ContactStatusOf(rawStatus.s)
                    && r.value.lostReason == LostReasonOf(rawReason.s)
                    && r.value.createdAt.At?
                    && r.value.nextContactDate == Missing)
    ensures r.Ok? ==> (r.value.id == RecordId(item)
      && r.value.name == ToStr(Or(Or(Get(item, "Nombre"), Get(item, "Name")), JStr("Lead Sin Nombre")))
      && r.value.country == ToStr(Or(Or(Or(Get(item, "País"), Get(item, "Country")), Get(item, "Pais")), JStr("Desconocido")))
      && r.value.createdAt == NormalizeDate(Or(Or(Get(item, "Fecha y hora de creación"), Get(item, "CreatedAt")), Get(item, "created_at")), parse)
      && r.value.assignedSellerId == ExtractId(Or(Or(Get(item, "Vendedora Asignada"), Get(item, "AssignedSeller")), Get(item, "Seller"))))
  {
    var rawStatus := Or(Or(Or(Get(item, "Estado Actual"), Get(item, "Status")), Get(item, "Estado")), JStr(""));
    var rawReason := Or(Or(Or(Get(item, "Motivo Venta Perdida"), Get(item, "LostReason")), Get(item, "Motivo")), JStr(""));
    if !rawStatus.JStr? || !rawReason.JStr? then Err(TypeError)
    else
      Ok(Contact(
        id := RecordId(item),
        name := ToStr(Or(Or(Get(item, "Nombre"), Get(item, "Name")), JStr("Lead Sin Nombre"))),
        country := ToStr(Or(Or(Or(Get(item, "País"), Get(item, "Country")), Get(item, "Pais")), JStr("Desconocido"))),
        createdAt := NormalizeDate(Or(Or(Get(item, "Fecha y hora de creación"), Get(item, "CreatedAt")), Get(item, "created_at")), parse),
        status := ContactStatusOf(rawStatus.s),
        lostReason := LostReasonOf(rawReason.s),
        assignedSellerId := ExtractId(Or(Or(Get(item, "Vendedora Asignada"), Get(item, "AssignedSeller")), Get(item, "Seller"))),
        estimatedValue := 0,
        nextContactDate := Missing,
        leadSource := "",
        lostReasonDetail := ""))
  }

  function MapInteraction(item: Json, parse: Json -> Option<int>): (r: Result<Interaction, string>)
    ensures var rawType := Or(Or(Or(Get(item, "Medio/Canal"), Get(item, "Type")), Get(item, "Tipo")), JStr(""));
      (r.Ok? <==> rawType.JStr?)
      && (r.Ok? ==> r.value.kind == InteractionTypeOf(rawType.s) && r.value.date.At?)
    ensures r.Ok? ==> (r.value.id == RecordId(item)
      && r.value.contactId == ExtractId(Or(Or(Get(item, "Contacto Involucrado"), Get(item, "Contact")), Get(item, "Contacto")))
      && r.value.sellerId == ExtractId(Or(Or(Get(item, "Realizada Por"), Get(item, "Seller")), Get(item, "Vendedora")))
      && r.value.date == NormalizeDate(Or(Or(Get(item, "Fecha"), Get(item, "Date")), Get(item, "created_at")), parse)
      && r.value.result == ToStr(Or(Or(Or(Get(item, "Resultado"), Get(item, "Result")), Get(item, "Notas")), JStr(""))))
  {
    var rawType := Or(Or(Or(Get(item, "Medio/Canal"), Get(item, "Type")), Get(item, "Tipo")), JStr(""));
    if !rawType.JStr? then Err(TypeError)
    else
      Ok(Interaction(
        id := RecordId(item),
        contactId := ExtractId(Or(Or(Get(item, "Contacto Involucrado"), Get(item, "Contact")), Get(item, "Contacto"))),
        sellerId := ExtractId(Or(Or(Get(item, "Realizada Por"), Get(item, "Seller")), Get(item, "Vendedora"))),
        kind := InteractionTypeOf(rawType.s),
        date := NormalizeDate(Or(Or(Get(item, "Fecha"), Get(item, "Date")), Get(item, "created_at")), parse),
        result := ToStr(Or(Or(Or(Get(item, "Resultado"), Get(item, "Result")), Get(item, "Notas")), JStr("")))))
  }

  /**
   * `Number(s)` of a text, with NaN read as 0: surrounding white space is
   * ignored, the empty text is 0, and otherwise an optional sign must be
   * followed by nothing but decimal digits.
   */
  function NumeralValue(s: string): int {
    var t := Trim(s);
    if |t| > 1 && (t[0] == '-' || t[0] == '+') && LeadingDigits(t[1..]) == t[1..] then
      var m := DigitsValue(t[1..]) as int;
      if t[0] == '-' then -m else m
    else if LeadingDigits(t) == t then DigitsValue(t)
    else 0
  }

  /**
   * `Number(v)` of a truthy cell, with NaN read as 0 (every reader tests it for
   * truthiness): numbers as they are, booleans as 1 and 0, null, undefined and
   * plain objects as 0, texts and arrays through their `String` form.
   */
  function NumberOf(v: Json): (r: int)
    ensures v.JNum? ==> r == v.n
    ensures v.JBool? ==> r == (if v.b then 1 else 0)
    ensures v.JUndefined? || v.JNull? || v.JObj? ==> r == 0
    ensures v.JStr? ==> r == NumeralValue(v.s)
    ensures v.JArr? ==> r == NumeralValue(ToStr(v))
  {
    match v
    case JNum(n) => n
    case JBool(b) => if b then 1 else 0
    case JUndefined => 0
    case JNull => 0
    case JObj(_) => 0
    case _ => NumeralValue(ToStr(v))
  }

  /** A text that trims to decimal digits reads as their value. */
  lemma NumeralOfDigits(s: string, t: string)
    requires Trim(s) == t && forall i :: 0 <= i < |t| ==> IsDigit(t[i])
    ensures NumeralValue(s) == DigitsValue(t)
  {
    LeadingDigitsAll(t);
  }

  /** A text that trims to a sign and decimal digits reads as their signed value. */
  lemma NumeralOfSigned(s: string, t: string)
    requires Trim(s) == t && |t| > 1 && (t[0] == '-' || t[0] == '+')
    requires forall i :: 1 <= i < |t| ==> IsDigit(t[i])
    ensures NumeralValue(s) == if t[0] == '-' then -(DigitsValue(t[1..]) as int) else DigitsValue(t[1..])
  {
    LeadingDigitsAll(t[1..]);
  }

  /** A whole number written out by `String(n)` reads back as `n`. */
  lemma NumberOfText(n: int)
    ensures NumberOf(JStr(IntToString(n))) == n
  {
    if n < 0 {
      NumeralOfNegative(n);
    } else {
      NumeralOfNatural(n);
    }
  }

  lemma NumeralOfNatural(n: nat)
    ensures NumeralValue(NatToString(n)) == n
  {
    var s := NatToString(n);
    assert IsDigit(s[0]) && IsDigit(s[|s| - 1]);
    TrimUnpadded(s);
    DigitsValueOfNat(n);
    NumeralOfDigits(s, s);
  }

  lemma NumeralOfNegative(n: int)
    requires n < 0
    ensures NumeralValue(IntToString(n)) == n
  {
    DigitsValueOfNat(-n);
    NumeralOfMinus(NatToString(-n));
  }

  /** A minus sign followed by decimal digits reads as their negated value. */
  lemma NumeralOfMinus(d: string)
    requires |d| >= 1 && forall i :: 0 <= i < |d| ==> IsDigit(d[i])
    ensures NumeralValue("-" + d) == -(DigitsValue(d) as int)
  {
    var s := "-" + d;
    assert s[1..] == d;
    assert s[|s| - 1] == d[|d| - 1];
    TrimUnpadded(s);
    forall i | 1 <= i < |s|
      ensures IsDigit(s[i])
    {
      assert s[i] == d[i - 1];
    }
    NumeralOfSigned(s, s);
  }

  /** A leading '+' and surrounding blanks are accepted. */
  lemma NumberOfSignedText()
    ensures NumberOf(JStr(" +4 ")) == 4
  {
    TrimPlusFour(" +4 ");
    FourDigits("4");
    NumeralOfSigned(" +4 ", "+4");
  }

  lemma TrimPlusFour(s: string)
    requires s == " +4 "
    ensures Trim(s) == "+4"
  {
    assert IsSpace(s[0]) && !IsSpace(s[1]) && !IsSpace(s[2]) && IsSpace(s[3]);
    assert SkipSpaces(s, 0) == 1;
    assert BackSpaces(s, 1, 4) == 3;
    assert s[1..3] == "+4";
  }

  lemma FourDigits(d: string)
    requires d == "4"
    ensures DigitsValue(d) == 4
  {
    DigitsValueOfNat(4);
    assert NatToString(4) == d;
  }

  function MapSale(item: Json, parse: Json -> Option<int>): (r: Sale)
    ensures r.productName != ""
    ensures var name := ExtractLinkedName(Get(item, "Producto Vendido"));
      r.productName == if name != "" then name else "Servicio General"
    ensures r.id == RecordId(item)
    ensures r.contactId == ExtractId(Or(Or(Get(item, "Contacto que Compró"), Get(item, "Contact")), Get(item, "Lead")))
    ensures r.sellerId == ExtractId(Or(Or(Get(item, "Quién Vendió"), Get(item, "Seller")), Get(item, "Vendedora")))
    ensures r.date == NormalizeDate(Or(Or(Get(item, "Fecha"), Get(item, "Date")), Get(item, "created_at")), parse)
    ensures r.amount == ParseAmount(Or(Or(Get(item, "Monto Final"), Get(item, "Amount")), Get(item, "Monto")))
    ensures r.date.At?
    ensures !Truthy(Get(item, "Sales_Cycle_Days")) ==> r.salesCycleDays == 0
    ensures Truthy(Get(item, "Sales_Cycle_Days")) ==> r.salesCycleDays == NumberOf(Get(item, "Sales_Cycle_Days"))
  {
    var name := ExtractLinkedName(Get(item, "Producto Vendido"));
    Sale(
      id := RecordId(item),
      contactId := ExtractId(Or(Or(Get(item, "Contacto que Compró"), Get(item, "Contact")), Get(item, "Lead"))),
      sellerId := ExtractId(Or(Or(Get(item, "Quién Vendió"), Get(item, "Seller")), Get(item, "Vendedora"))),
      productName := if name != "" then name else "Servicio General",
      amount := ParseAmount(Or(Or(Get(item, "Monto Final"), Get(item, "Amount")), Get(item, "Monto"))),
      date := NormalizeDate(Or(Or(Get(item, "Fecha"), Get(item, "Date")), Get(item, "created_at")), parse),
      salesCycleDays := if Truthy(Get(item, "Sales_Cycle_Days")) then NumberOf(Get(item, "Sales_Cycle_Days")) else 0,
      discountApplied := 0)
  }

  function MapAttempt(item: Json, parse: Json -> Option<int>): (r: Result<PurchaseAttempt, string>)
    ensures var rawStatus := Or(Or(Get(item, "Estado"), Get(item, "Status")), JStr(""));
      (r.Ok? <==> rawStatus.JStr?)
      && (r.Ok? ==> r.value.status == AttemptStatusOf(rawStatus.s) && r.value.date.At?)
      && (r.Ok? && !Truthy(Get(item, "Monto")) && !Truthy(Get(item, "Amount")) ==> r.value.amount == 5000)
    ensures r.Ok? ==> r.value.amount == ParseAmount(Or(Or(Get(item, "Monto"), Get(item, "Amount")), JNum(5000)))
    ensures r.Ok? && Truthy(Get(item, "Monto")) ==> r.value.amount == ParseAmount(Get(item, "Monto"))
    ensures r.Ok? ==> (r.value.id == RecordId(item)
      && r.value.contactId == ExtractId(Or(Or(Get(item, "Quién Intentó Comprar"), Get(item, "Contact")), Get(item, "Lead")))
      && r.value.date == NormalizeDate(Or(Or(Get(item, "Fecha del Intento"), Get(item, "Date")), Get(item, "Fecha")), parse)
      && r.value.recoverySellerId
         == ExtractId(Or(Or(Get(item, "Vendedora de Recuperación"), Get(item, "RecoverySeller")), Get(item, "Seller"))))
  {
    var rawStatus := Or(Or(Get(item, "Estado"), Get(item, "Status")), JStr(""));
    if !rawStatus.JStr? then Err(TypeError)
    else
      Ok(PurchaseAttempt(
        id := RecordId(item),
        contactId := ExtractId(Or(Or(Get(item, "Quién Intentó Comprar"), Get(item, "Contact")), Get(item, "Lead"))),
        amount := ParseAmount(Or(Or(Get(item, "Monto"), Get(item, "Amount")), JNum(5000))),
        status := AttemptStatusOf(rawStatus.s),
        date := NormalizeDate(Or(Or(Get(item, "Fecha del Intento"), Get(item, "Date")), Get(item, "Fecha")), parse),
        recoverySellerId := ExtractId(Or(Or(Get(item, "Vendedora de Recuperación"), Get(item, "RecoverySeller")), Get(item, "Seller")))))
  }

  /** `rows.map(f)` where `f` may throw: the first failure aborts the whole mapping. */
  function MapAll<T(==)>(rows: seq<Json>, f: Json -> Result<T, string>): (r: Result<seq<T>, string>)
    ensures r.Ok? <==> forall i :: 0 <= i < |rows| ==> f(rows[i]).Ok?
    ensures r.Ok? ==> |r.value| == |rows| && forall i :: 0 <= i < |rows| ==> f(rows[i]).value == r.value[i]
    ensures r.Err? ==> exists i :: 0 <= i < |rows| && f(rows[i]) == Err(r.error)
  {
    if rows == [] then Ok([])
    else
      match f(rows[0])
      case Err(e) => Err(e)
      case Ok(x) =>
        match MapAll(rows[1..], f)
        case Err(e) =>
          assert forall i :: 1 <= i < |rows| ==> rows[i] == rows[1..][i - 1];
          Err(e)
        case Ok(xs) =>
          assert forall i :: 1 <= i < |rows| ==> rows[i] == rows[1..][i - 1];
          Ok([x] + xs)
  }

  function GetRealSellers(rows: seq<Json>): (r: seq<Seller>)
    ensures |r| == |rows| && forall i :: 0 <= i < |rows| ==> r[i] == MapSeller(rows[i])
  {
    seq(|rows|, i requires 0 <= i < |rows| => MapSeller(rows[i]))
  }

  function GetRealContacts(rows: seq<Json>, parse: Json -> Option<int>): (r: Result<seq<Contact>, string>)
    ensures r.Ok? <==> forall i :: 0 <= i < |rows| ==> MapContact(rows[i], parse).Ok?
    ensures r.Ok? ==> |r.value| == |rows| && forall i :: 0 <= i < |rows| ==> r.value[i] == MapContact(rows[i], parse).value
    ensures r.Err? ==> r.error == TypeError
  {
    MapAll(rows, item => MapContact(item, parse))
  }

  function GetRealInteractions(rows: seq<Json>, parse: Json -> Option<int>): (r: Result<seq<Interaction>, string>)
    ensures r.Ok? <==> forall i :: 0 <= i < |rows| ==> MapInteraction(rows[i], parse).Ok?
    ensures r.Ok? ==> |r.value| == |rows| && forall i :: 0 <= i < |rows| ==> r.value[i] == MapInteraction(rows[i], parse).value
    ensures r.Err? ==> r.error == TypeError
  {
    MapAll(rows, item => MapInteraction(item, parse))
  }

  function GetRealSales(rows: seq<Json>, parse: Json -> Option<int>): (r: seq<Sale>)
    ensures |r| == |rows| && forall i :: 0 <= i < |rows| ==> r[i] == MapSale(rows[i], parse)
  {
    seq(|rows|, i requires 0 <= i < |rows| => MapSale(rows[i], parse))
  }

  function GetRealAttempts(rows: seq<Json>, parse: Json -> Option<int>): (r: Result<seq<PurchaseAttempt>, string>)
    ensures r.Ok? <==> forall i :: 0 <= i < |rows| ==> MapAttempt(rows[i], parse).Ok?
    ensures r.Ok? ==> |r.value| == |rows| && forall i :: 0 <= i < |rows| ==> r.value[i] == MapAttempt(rows[i], parse).value
    ensures r.Err? ==> r.error == TypeError
  {
    MapAll(rows, item => MapAttempt(item, parse))
  }

  // ---------------------------------------------------------------------------
  // Pagination
  // ---------------------------------------------------------------------------

  /** The `list` member of a page body. */
  datatype ListField = NoList | NotArray | Rows(rows: seq<Json>)

  /** What one request to the proxy yields: an exception, a non-ok status, or a decoded body. */
  datatype PageReply = Thrown | NotOk(status: int) | Body(list: ListField, isLastPage: bool)

  const PageLimit: nat := 1000
  const MaxPages: nat := 10

  function Offset(page: nat): nat
    requires page >= 1
  {
    (page - 1) * PageLimit
  }

  /** Whether the loop goes on to the next page after receiving `reply` on `page`. */
  predicate Continues(reply: PageReply, page: nat) {
    reply.Body? && reply.list.Rows? && !reply.isLastPage && |reply.list.rows| >= PageLimit && page < MaxPages
  }

  /**
   * The records the loop collects from `page` on, having `acc` so far; `None`
   * when a request throws, which the caller turns into [].
   */
  function Pages(gateway: nat -> PageReply, page: nat, acc: seq<Json>): Option<seq<Json>>
    requires 1 <= page <= MaxPages
    decreases MaxPages - page
  {
    var reply := gateway(Offset(page));
    match reply
    case Thrown => None
    case NotOk(_) => Some(acc)
    case Body(list, _) =>
      if !list.Rows? then Some(acc)
      else if Continues(reply, page) then Pages(gateway, page + 1, acc + list.rows)
      else Some(acc + list.rows)
  }

  /** The offsets the loop requests from `page` on. */
  function Requested(gateway: nat -> PageReply, page: nat): seq<nat>
    requires 1 <= page <= MaxPages
    decreases MaxPages - page
  {
    if Continues(gateway(Offset(page)), page) then [Offset(page)] + Requested(gateway, page + 1)
    else [Offset(page)]
  }

  function FetchResult(gateway: nat -> PageReply): seq<Json> {
    match Pages(gateway, 1, [])
    case None => []
    case Some(records) => records
  }

  /** One turn of the loop, as `Pages` and `Requested` see it. */
  lemma PagesStep(gateway: nat -> PageReply, page: nat, acc: seq<Json>)
    requires 1 <= page <= MaxPages
    ensures var reply := gateway(Offset(page));
      (reply.Thrown? ==> Pages(gateway, page, acc).None? && Requested(gateway, page) == [Offset(page)])
      && (reply.NotOk? || (reply.Body? && !reply.list.Rows?) ==>
            Pages(gateway, page, acc) == Some(acc) && Requested(gateway, page) == [Offset(page)])
      && (reply.Body? && reply.list.Rows? && Continues(reply, page) ==>
            Pages(gateway, page, acc) == Pages(gateway, page + 1, acc + reply.list.rows)
            && Requested(gateway, page) == [Offset(page)] + Requested(gateway, page + 1))
      && (reply.Body? && reply.list.Rows? && !Continues(reply, page) ==>
            Pages(gateway, page, acc) == Some(acc + reply.list.rows) && Requested(gateway, page) == [Offset(page)])
  {
  }

  /** One turn of the loop, stated against the whole run from the first page. */
  lemma LoopTurn(gateway: nat -> PageReply, page: nat, all: seq<Json>, done: seq<nat>)
    requires 1 <= page <= MaxPages
    requires Pages(gateway, 1, []) == Pages(gateway, page, all)
    requires Requested(gateway, 1) == done + Requested(gateway, page)
    ensures var reply := gateway(Offset(page)); var sent := done + [Offset(page)];
      (reply.Thrown? ==> FetchResult(gateway) == [] && Requested(gateway, 1) == sent)
      && (reply.NotOk? || (reply.Body? && !reply.list.Rows?) ==>
            Pages(gateway, 1, []) == Some(all) && Requested(gateway, 1) == sent)
      && (reply.Body? && reply.list.Rows? && Continues(reply, page) ==>
            Pages(gateway, 1, []) == Pages(gateway, page + 1, all + reply.list.rows)
            && Requested(gateway, 1) == sent + Requested(gateway, page + 1))
      && (reply.Body? && reply.list.Rows? && !Continues(reply, page) ==>
            Pages(gateway, 1, []) == Some(all + reply.list.rows) && Requested(gateway, 1) == sent)
  {
    PagesStep(gateway, page, all);
    var reply := gateway(Offset(page));
    if Continues(reply, page) {
      assert done + Requested(gateway, page) == done + [Offset(page)] + Requested(gateway, page + 1);
    }
  }

  /**
   * `fetchFromProxy`: requests pages of 1000 until a non-ok reply, a body without
   * an array, the last page, a short page or the tenth page, concatenating the
   * rows; an exception anywhere discards everything and yields [].
   */
  method FetchFromProxy(gateway: nat -> PageReply) returns (records: seq<Json>, offsets: seq<nat>)
    ensures records == FetchResult(gateway)
    ensures offsets == Requested(gateway, 1)
  {
    var page: nat := 1;
    var isLastPage := false;
    var all: seq<Json> := [];
    offsets := [];
    while !isLastPage
      invariant 1 <= page <= MaxPages
      invariant !isLastPage ==> Pages(gateway, 1, []) == Pages(gateway, page, all)
                                && Requested(gateway, 1) == offsets + Requested(gateway, page)
      invariant isLastPage ==> Pages(gateway, 1, []) == Some(all) && Requested(gateway, 1) == offsets
      decreases !isLastPage, MaxPages - page
    {
      LoopTurn(gateway, page, all, offsets);
      var reply := gateway(Offset(page));
      offsets := offsets + [Offset(page)];
      if reply.Thrown? {
        return [], offsets;
      }
      if reply.NotOk? || !reply.list.Rows? {
        break;
      }
      all := all + reply.list.rows;
      if reply.isLastPage || |reply.list.rows| < PageLimit {
        isLastPage := true;
      } else if page == MaxPages {
        break;
      } else {
        page := page + 1;
      }
    }
    records := all;
  }

  /** The loop issues between one and ten requests, at offsets 0, 1000, 2000, ... */
  lemma {:induction false} RequestedShape(gateway: nat -> PageReply, page: nat)
    requires 1 <= page <= MaxPages
    ensures 1 <= |Requested(gateway, page)| <= MaxPages - page + 1
    ensures forall k :: 0 <= k < |Requested(gateway, page)| ==>
              Requested(gateway, page)[k] == (page - 1 + k) * PageLimit
    decreases MaxPages - page
  {
    if Continues(gateway(Offset(page)), page) {
      RequestedShape(gateway, page + 1);
      var rest := Requested(gateway, page + 1);
      forall k | 0 <= k < |Requested(gateway, page)|
        ensures Requested(gateway, page)[k] == (page - 1 + k) * PageLimit
      {
        if k > 0 {
          assert Requested(gateway, page)[k] == rest[k - 1];
        }
      }
    }
  }

  /** A short first page is the whole result, after a single request. */
  lemma ShortFirstPage(gateway: nat -> PageReply, rows: seq<Json>, last: bool)
    requires gateway(0) == Body(Rows(rows), last) && |rows| < PageLimit
    ensures FetchResult(gateway) == rows
    ensures Requested(gateway, 1) == [0]
  {
    assert Offset(1) == 0;
  }

  /** The loop yields nothing exactly when one of the requests it issues throws. */
  lemma {:induction false} PagesThrow(gateway: nat -> PageReply, page: nat, acc: seq<Json>)
    requires 1 <= page <= MaxPages
    ensures Pages(gateway, page, acc).None? <==>
      exists k :: 0 <= k < |Requested(gateway, page)| && gateway(Requested(gateway, page)[k]).Thrown?
    decreases MaxPages - page
  {
    var reply := gateway(Offset(page));
    var req := Requested(gateway, page);
    PagesStep(gateway, page, acc);
    if Continues(reply, page) {
      PagesThrow(gateway, page + 1, acc + reply.list.rows);
      var rest := Requested(gateway, page + 1);
      assert req == [Offset(page)] + rest;
      if Pages(gateway, page, acc).None? {
        var k :| 0 <= k < |rest| && gateway(rest[k]).Thrown?;
        assert req[k + 1] == rest[k];
      }
      if exists k :: 0 <= k < |req| && gateway(req[k]).Thrown? {
        var k :| 0 <= k < |req| && gateway(req[k]).Thrown?;
        assert k != 0;
        assert req[k] == rest[k - 1];
      }
    } else {
      assert req == [Offset(page)];
      if reply.Thrown? {
        assert gateway(req[0]).Thrown?;
      }
    }
  }

  /** A request that throws, on whichever page, throws away the rows of every earlier page. */
  lemma ThrowDiscardsEarlierPages(gateway: nat -> PageReply, k: nat)
    requires k < |Requested(gateway, 1)| && gateway(Requested(gateway, 1)[k]).Thrown?
    ensures FetchResult(gateway) == []
  {
    PagesThrow(gateway, 1, []);
  }

  /** A non-ok reply keeps the pages already received. */
  lemma NotOkKeepsEarlierPages(gateway: nat -> PageReply, rows: seq<Json>, status: int)
    requires gateway(0) == Body(Rows(rows), false) && |rows| == PageLimit
    requires gateway(1000) == NotOk(status)
    ensures FetchResult(gateway) == rows
    ensures Requested(gateway, 1) == [0, 1000]
  {
    assert Offset(1) == 0 && Offset(2) == 1000;
    assert [] + rows == rows;
  }
}
