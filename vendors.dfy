/**
 * The per-vendor rankings of services/metricsCalculator.ts. Each seeds a map
 * with one zeroed row per seller id, walks the records once incrementing the
 * row of the record's seller (records of unknown sellers are skipped), then
 * lists the rows in the map's key order and sorts them.
 */
module Vendors {
  import opened Common
  import opened Types
  import opened Grouping
  import opened Metrics

  // ---------------------------------------------------------------------------
  // The vendor map
  // ---------------------------------------------------------------------------

  function SellerKey(s: Seller): Option<string> {
    Some(s.id)
  }

  /** The vendor ids in the map's key order: seller ids by first appearance. */
  function VendorIds(sellers: seq<Seller>): seq<string> {
    KeysOf(sellers, SellerKey)
  }

  /** A seller id is a vendor id exactly when some seller carries it; none repeats. */
  lemma VendorIdsAre(sellers: seq<Seller>, v: string)
    ensures v in VendorIds(sellers) <==> exists j :: 0 <= j < |sellers| && sellers[j].id == v
    ensures Distinct(VendorIds(sellers))
  {
    KeysOfMember(sellers, SellerKey, v);
    KeysOfDistinct(sellers, SellerKey);
    if v in VendorIds(sellers) {
      SellerWithId(sellers, v);
    } else {
      forall j | 0 <= j < |sellers| ensures sellers[j].id != v {
        CountForPositive(sellers, SellerKey, j);
      }
    }
  }

  lemma {:induction false} SellerWithId(sellers: seq<Seller>, v: string)
    requires CountFor(sellers, SellerKey, v) > 0
    ensures exists j :: 0 <= j < |sellers| && sellers[j].id == v
  {
    var init := sellers[..|sellers| - 1];
    if CountFor(init, SellerKey, v) > 0 {
      SellerWithId(init, v);
      var j :| 0 <= j < |init| && init[j].id == v;
      assert sellers[j] == init[j];
    }
  }

  /** The name a vendor id ends with: the last seller listed under it, as `set` overwrites. */
  function VendorName(sellers: seq<Seller>, v: string): string {
    if sellers == [] then ""
    else if sellers[|sellers| - 1].id == v then sellers[|sellers| - 1].name
    else VendorName(sellers[..|sellers| - 1], v)
  }

  /**
   * `sellers.forEach(seller => vendorMap.set(seller.id, zero(seller)))`: one
   * zeroed row per vendor id, carrying the name of the last seller with that id.
   */
  method SeedVendors<R>(sellers: seq<Seller>, zero: (string, string) -> R) returns (ids: seq<string>, m: map<string, R>)
    ensures ids == VendorIds(sellers)
    ensures forall v :: v in m <==> v in ids
    ensures forall v :: v in m ==> m[v] == zero(v, VendorName(sellers, v))
  {
    ids, m := [], map[];
    var i := 0;
    while i < |sellers|
      invariant 0 <= i <= |sellers|
      invariant ids == VendorIds(sellers[..i])
      invariant forall v :: v in m <==> v in ids
      invariant forall v :: v in m ==> m[v] == zero(v, VendorName(sellers[..i], v))
    {
      var s := sellers[i];
      assert sellers[..i + 1][..i] == sellers[..i];
      if s.id !in m {
        ids := ids + [s.id];
      }
      m := m[s.id := zero(s.id, s.name)];
      i := i + 1;
    }
    assert sellers[..|sellers|] == sellers;
  }

  /**
   * Rows listed in the order of the vendor ids and then reordered: one row per
   * vendor id, each keeping what held of it.
   */
  lemma VendorRows<R>(ids: seq<string>, rows: seq<R>, r: seq<R>, id: R -> string, ok: R -> bool)
    requires Distinct(ids) && |rows| == |ids|
    requires forall k :: 0 <= k < |rows| ==> id(rows[k]) == ids[k] && ok(rows[k])
    requires multiset(r) == multiset(rows)
    ensures |r| == |ids|
    ensures forall i, j :: 0 <= i < j < |r| ==> id(r[i]) != id(r[j])
    ensures forall i :: 0 <= i < |r| ==> id(r[i]) in ids && ok(r[i])
    ensures forall v :: v in ids ==> exists i :: 0 <= i < |r| && id(r[i]) == v
  {
    assert |r| == |multiset(r)| == |multiset(rows)| == |rows|;
    DistinctByName(rows, r, id);
    forall i | 0 <= i < |r| ensures id(r[i]) in ids && ok(r[i]) {
      assert r[i] in multiset(rows);
    }
    forall v | v in ids ensures exists i :: 0 <= i < |r| && id(r[i]) == v {
      var k :| 0 <= k < |ids| && ids[k] == v;
      assert rows[k] in multiset(r);
    }
  }

  /** The step condition of ForEachRecord: handling record `i` keeps `ok` for the row of `v`. */
  predicate StepKeeps<T, R>(xs: seq<T>, i: nat, v: string, row: R, sellerOf: T -> Option<string>, bump: (R, T) -> R,
                            ok: (seq<T>, string, R) -> bool)
  {
    i < |xs| && ok(xs[..i], v, row) ==> ok(xs[..i + 1], v, if sellerOf(xs[i]) == Some(v) then bump(row, xs[i]) else row)
  }

  /**
   * `xs.forEach(x => { const vendor = vendorMap.get(sellerOf(x)); if (vendor) bump(vendor, x) })`:
   * one pass over the records, each updating the row of its seller when that
   * seller is in the map; a record `sellerOf` maps to None is skipped. `ok`
   * says what a row holds after a prefix of the records, and each step must
   * keep it.
   */
  method ForEachRecord<T, R>(xs: seq<T>, m0: map<string, R>, sellerOf: T -> Option<string>, bump: (R, T) -> R,
                             ok: (seq<T>, string, R) -> bool) returns (m: map<string, R>)
    requires forall v :: v in m0 ==> ok([], v, m0[v])
    requires forall i: nat, v, row :: StepKeeps(xs, i, v, row, sellerOf, bump, ok)
    ensures forall v :: v in m <==> v in m0
    ensures forall v :: v in m ==> ok(xs, v, m[v])
  {
    m := m0;
    var i := 0;
    assert xs[..0] == [];
    while i < |xs|
      invariant 0 <= i <= |xs|
      invariant forall v :: v in m <==> v in m0
      invariant forall v :: v in m ==> ok(xs[..i], v, m[v])
    {
      var x := xs[i];
      var seller := sellerOf(x);
      var m' := if seller.Some? && seller.value in m then m[seller.value := bump(m[seller.value], x)] else m;
      forall v | v in m' ensures ok(xs[..i + 1], v, m'[v]) {
        assert StepKeeps(xs, i, v, m[v], sellerOf, bump, ok);
      }
      m := m';
      i := i + 1;
    }
    assert xs[..|xs|] == xs;
  }

  /**
   * `Array.from(vendorMap.values()).sort((a, b) => key(b) - key(a))`: the rows in
   * key order, stably sorted by `key`, largest first, so rows with equal keys
   * keep the order in which their vendors entered the map.
   */
  method SortedRows<R>(ids: seq<string>, m: map<string, R>, id: R -> string, key: R -> int, ok: R -> bool) returns (r: seq<R>)
    requires Distinct(ids)
    requires forall v :: v in m <==> v in ids
    requires forall v :: v in m ==> id(m[v]) == v && ok(m[v])
    ensures |r| == |ids|
    ensures forall i, j :: 0 <= i < j < |r| ==> id(r[i]) != id(r[j])
    ensures forall i :: 0 <= i < |r| ==> id(r[i]) in ids && ok(r[i])
    ensures forall v :: v in ids ==> exists i :: 0 <= i < |r| && id(r[i]) == v
    ensures SortedDesc(r, key)
    ensures TiesBy(r, key, RankIn(ids, id))
  {
    var rows := seq(|ids|, k requires 0 <= k < |ids| => m[ids[k]]);
    r := SortDesc(rows, key);
    SortDescSorted(rows, key);
    VendorRows(ids, rows, r, id, ok);
    RankInAscending(ids, rows, id);
    SortDescTies(rows, key, RankIn(ids, id));
  }

  // ---------------------------------------------------------------------------
  // calculateInteractionsByVendor
  // ---------------------------------------------------------------------------

  /** The byType buckets of calculateInteractionsByVendor. */
  datatype Channel = WhatsAppBucket | EmailBucket | CallBucket | MeetingBucket | OtherBucket

  /**
   * The bucket of an interaction type: the first of whatsapp, email,
   * llamada/call, reunión/meeting that the lower-cased type contains, else other.
   */
  function ChannelOf(typeName: string): (c: Channel)
    ensures var t := Lower(typeName);
      (c == WhatsAppBucket <==> Contains(t, "whatsapp"))
      && (c == EmailBucket <==> !Contains(t, "whatsapp") && Contains(t, "email"))
      && (c == CallBucket <==> !Contains(t, "whatsapp") && !Contains(t, "email")
                               && (Contains(t, "llamada") || Contains(t, "call")))
      && (c == MeetingBucket <==> !Contains(t, "whatsapp") && !Contains(t, "email")
                                  && !Contains(t, "llamada") && !Contains(t, "call")
                                  && (Contains(t, "reunión") || Contains(t, "meeting")))
  {
    var t := Lower(typeName);
    if Contains(t, "whatsapp") then WhatsAppBucket
    else if Contains(t, "email") then EmailBucket
    else if Contains(t, "llamada") || Contains(t, "call") then CallBucket
    else if Contains(t, "reunión") || Contains(t, "meeting") then MeetingBucket
    else OtherBucket
  }

  datatype ByType = ByType(whatsapp: nat, email: nat, call: nat, meeting: nat, other: nat)

  function Tick(b: ByType, c: Channel): ByType {
    match c
    case WhatsAppBucket => b.(whatsapp := b.whatsapp + 1)
    case EmailBucket => b.(email := b.email + 1)
    case CallBucket => b.(call := b.call + 1)
    case MeetingBucket => b.(meeting := b.meeting + 1)
    case OtherBucket => b.(other := b.other + 1)
  }

  function ByTypeTotal(b: ByType): nat {
    b.whatsapp + b.email + b.call + b.meeting + b.other
  }

  datatype VendorInteractions = VendorInteractions(vendorId: string, vendorName: string, total: nat, byType: ByType)

  function InteractionSeller(i: Interaction): Option<string> {
    Some(i.sellerId)
  }

  /** The interactions of one bucket, filed under their seller. */
  function ChannelSeller(c: Channel): Interaction -> Option<string> {
    (i: Interaction) => if ChannelOf(InteractionTypeValue(i.kind)) == c then Some(i.sellerId) else None
  }

  function InteractionsId(row: VendorInteractions): string {
    row.vendorId
  }

  function InteractionsTotal(row: VendorInteractions): int {
    row.total
  }

  /** What a row of calculateInteractionsByVendor holds after the interactions `xs`. */
  function InteractionCounts(xs: seq<Interaction>, sellers: seq<Seller>): VendorInteractions -> bool {
    (row: VendorInteractions) =>
      var v := row.vendorId;
      row.vendorName == VendorName(sellers, v)
      && row.total == CountFor(xs, InteractionSeller, v)
      && row.byType == ByType(CountFor(xs, ChannelSeller(WhatsAppBucket), v), CountFor(xs, ChannelSeller(EmailBucket), v),
                              CountFor(xs, ChannelSeller(CallBucket), v), CountFor(xs, ChannelSeller(MeetingBucket), v),
                              CountFor(xs, ChannelSeller(OtherBucket), v))
  }

  function InteractionPass(sellers: seq<Seller>): (seq<Interaction>, string, VendorInteractions) -> bool {
    (xs: seq<Interaction>, v: string, row: VendorInteractions) => row.vendorId == v && InteractionCounts(xs, sellers)(row)
  }

  /** A finished row: its counts, and a total that is the sum of its buckets. */
  function InteractionRow(xs: seq<Interaction>, sellers: seq<Seller>): VendorInteractions -> bool {
    (row: VendorInteractions) => InteractionCounts(xs, sellers)(row) && row.total == ByTypeTotal(row.byType)
  }

  /** Every interaction of a vendor falls in exactly one bucket. */
  lemma {:induction false} BucketsPartition(xs: seq<Interaction>, v: string)
    ensures CountFor(xs, InteractionSeller, v)
         == CountFor(xs, ChannelSeller(WhatsAppBucket), v) + CountFor(xs, ChannelSeller(EmailBucket), v)
            + CountFor(xs, ChannelSeller(CallBucket), v) + CountFor(xs, ChannelSeller(MeetingBucket), v)
            + CountFor(xs, ChannelSeller(OtherBucket), v)
  {
    if xs != [] {
      BucketsPartition(xs[..|xs| - 1], v);
    }
  }

  function ZeroInteractions(v: string, name: string): VendorInteractions {
    VendorInteractions(v, name, 0, ByType(0, 0, 0, 0, 0))
  }

  /**
   * calculateInteractionsByVendor: per vendor, its interactions and their split
   * into buckets, which always add up to the total; most interactions first.
   */
  method InteractionsByVendor(interactions: seq<Interaction>, sellers: seq<Seller>) returns (r: seq<VendorInteractions>)
    ensures sellers == [] ==> r == []
    ensures |r| == |VendorIds(sellers)|
    ensures forall i, j :: 0 <= i < j < |r| ==> r[i].vendorId != r[j].vendorId
    ensures forall v :: v in VendorIds(sellers) ==> exists i :: 0 <= i < |r| && r[i].vendorId == v
    ensures forall i :: 0 <= i < |r| ==>
      r[i].vendorId in VendorIds(sellers) && InteractionRow(interactions, sellers)(r[i])
    ensures SortedDesc(r, InteractionsTotal)
    ensures TiesBy(r, InteractionsTotal, RankIn(VendorIds(sellers), InteractionsId))
  {
    if |sellers| == 0 {
      return [];
    }
    var ids, m := SeedVendors(sellers, ZeroInteractions);
    InteractionSteps(interactions, sellers);
    forall v | v in m ensures InteractionPass(sellers)([], v, m[v]) {
      ZeroInteractionsPass(sellers, v);
    }
    m := ForEachRecord(interactions, m, InteractionSeller, CountInteraction, InteractionPass(sellers));
    forall v | v in m ensures InteractionsId(m[v]) == v && InteractionRow(interactions, sellers)(m[v]) {
      PassedInteractions(interactions, sellers, v, m[v]);
    }
    KeysOfDistinct(sellers, SellerKey);
    r := SortedRows(ids, m, InteractionsId, InteractionsTotal, InteractionRow(interactions, sellers));
  }

  /** `vendor.total++` and the increment of the interaction's bucket. */
  function CountInteraction(row: VendorInteractions, x: Interaction): VendorInteractions {
    row.(total := row.total + 1, byType := Tick(row.byType, ChannelOf(InteractionTypeValue(x.kind))))
  }

  /** One more interaction updates its seller's row and leaves every other row right as it is. */
  lemma InteractionStep(xs: seq<Interaction>, i: nat, sellers: seq<Seller>, row: VendorInteractions)
    requires i < |xs| && InteractionCounts(xs[..i], sellers)(row)
    ensures InteractionCounts(xs[..i + 1], sellers)(if xs[i].sellerId == row.vendorId then CountInteraction(row, xs[i]) else row)
  {
    CountForStep(xs, i, InteractionSeller);
    CountForStep(xs, i, ChannelSeller(WhatsAppBucket));
    CountForStep(xs, i, ChannelSeller(EmailBucket));
    CountForStep(xs, i, ChannelSeller(CallBucket));
    CountForStep(xs, i, ChannelSeller(MeetingBucket));
    CountForStep(xs, i, ChannelSeller(OtherBucket));
  }

  /** A row that has seen every interaction is a finished row. */
  lemma PassedInteractions(xs: seq<Interaction>, sellers: seq<Seller>, v: string, row: VendorInteractions)
    requires InteractionPass(sellers)(xs, v, row)
    ensures InteractionsId(row) == v && InteractionRow(xs, sellers)(row)
  {
    assert InteractionCounts(xs, sellers)(row);
    BucketsPartition(xs, v);
  }

  lemma ZeroInteractionsPass(sellers: seq<Seller>, v: string)
    ensures InteractionPass(sellers)([], v, ZeroInteractions(v, VendorName(sellers, v)))
  {
    assert InteractionCounts([], sellers)(ZeroInteractions(v, VendorName(sellers, v)));
  }

  lemma InteractionSteps(xs: seq<Interaction>, sellers: seq<Seller>)
    ensures forall i: nat, v, row :: StepKeeps(xs, i, v, row, InteractionSeller, CountInteraction, InteractionPass(sellers))
  {
    forall i: nat, v, row ensures StepKeeps(xs, i, v, row, InteractionSeller, CountInteraction, InteractionPass(sellers)) {
      if i < |xs| && InteractionPass(sellers)(xs[..i], v, row) {
        InteractionStep(xs, i, sellers, row);
      }
    }
  }

  /** Where each interaction type lands: only WhatsApp, Email and Llamada reach a named bucket. */
  lemma ChannelOfType(t: InteractionType)
    ensures ChannelOf(InteractionTypeValue(t)) == match t
      case WhatsApp => WhatsAppBucket
      case Email => EmailBucket
      case Call => CallBucket
      case _ => OtherBucket
  {
    match t
    case Call => ChannelOfLlamada("Llamada");
    case WhatsApp => ChannelOfWhatsApp("WhatsApp");
    case Email => ChannelOfEmail("Email");
    case SystemIo => ChannelOfSystemIo("System.io");
    case Form => ChannelOfForm("Formulario Web");
    case ManyChat => ChannelOfManyChat("ManyChat");
    case OtherChannel => ChannelOfOtro("Otro");
  }

  /** The meeting bucket stays empty for every vendor: no interaction type names a meeting. */
  lemma {:induction false} MeetingsNeverCounted(xs: seq<Interaction>, v: string)
    ensures CountFor(xs, ChannelSeller(MeetingBucket), v) == 0
  {
    if xs != [] {
      MeetingsNeverCounted(xs[..|xs| - 1], v);
      ChannelOfType(xs[|xs| - 1].kind);
    }
  }

  // The type values, lower-cased, checked against the bucket keywords one by one.

  lemma ChannelOfLlamada(raw: string)
    requires raw == "Llamada"
    ensures ChannelOf(raw) == CallBucket
  {
    var s := "llamada";
    LowerIs(raw, s);
    LlamadaFacts(s);
  }

  lemma LlamadaFacts(s: string)
    requires s == "llamada"
    ensures !Contains(s, "whatsapp") && !Contains(s, "email") && Contains(s, "llamada")
  {
    Lacks(s, "whatsapp", 'w');
    Lacks(s, "email", 'e');
    ContainsAt(s, 0, "llamada");
  }

  lemma ChannelOfWhatsApp(raw: string)
    requires raw == "WhatsApp"
    ensures ChannelOf(raw) == WhatsAppBucket
  {
    var s := "whatsapp";
    LowerIs(raw, s);
    ContainsAt(s, 0, "whatsapp");
  }

  lemma ChannelOfEmail(raw: string)
    requires raw == "Email"
    ensures ChannelOf(raw) == EmailBucket
  {
    var s := "email";
    LowerIs(raw, s);
    EmailFacts(s);
  }

  lemma EmailFacts(s: string)
    requires s == "email"
    ensures !Contains(s, "whatsapp") && Contains(s, "email")
  {
    Lacks(s, "whatsapp", 'w');
    ContainsAt(s, 0, "email");
  }

  lemma ChannelOfSystemIo(raw: string)
    requires raw == "System.io"
    ensures ChannelOf(raw) == OtherBucket
  {
    var s := "system.io";
    LowerIs(raw, s);
    SystemIoFacts(s);
  }

  lemma SystemIoFacts(s: string)
    requires s == "system.io"
    ensures !Contains(s, "whatsapp") && !Contains(s, "email") && !Contains(s, "llamada")
         && !Contains(s, "call") && !Contains(s, "reunión") && !Contains(s, "meeting")
  {
    Lacks(s, "whatsapp", 'a');
    Lacks(s, "email", 'a');
    Lacks(s, "llamada", 'a');
    Lacks(s, "call", 'a');
    Lacks(s, "reunión", 'r');
    Lacks(s, "meeting", 'g');
  }

  lemma ChannelOfForm(raw: string)
    requires raw == "Formulario Web"
    ensures ChannelOf(raw) == OtherBucket
  {
    var s := "formulario web";
    LowerIs(raw, s);
    FormFacts(s);
    FormLaterFacts(s);
  }

  lemma FormFacts(s: string)
    requires s == "formulario web"
    ensures !Contains(s, "whatsapp") && !Contains(s, "llamada")
  {
    Lacks(s, "whatsapp", 'h');
    Lacks(s, "llamada", 'd');
  }

  /** "formulario web" holds every letter of "email" but not the word. */
  lemma FormLaterFacts(s: string)
    requires s == "formulario web"
    ensures !Contains(s, "email") && !Contains(s, "call") && !Contains(s, "reunión") && !Contains(s, "meeting")
  {
    assert NoPair(s, 'e', 'm');
    NoLaterKeyword(s);
  }

  /**
   * A text where 'e' is never followed by 'm' and without 'c', 'ó' and 'g'
   * mentions neither an email, nor a call, nor a meeting.
   */
  lemma NoLaterKeyword(s: string)
    requires NoPair(s, 'e', 'm') && NoChar(s, 'c') && NoChar(s, 'ó') && NoChar(s, 'g')
    ensures !Contains(s, "email") && !Contains(s, "call") && !Contains(s, "reunión") && !Contains(s, "meeting")
  {
    LacksPair(s, "email", 0);
    Lacks(s, "call", 'c');
    Lacks(s, "reunión", 'ó');
    Lacks(s, "meeting", 'g');
  }

  lemma ChannelOfManyChat(raw: string)
    requires raw == "ManyChat"
    ensures ChannelOf(raw) == OtherBucket
  {
    ManyChatLower(raw);
    ManyChatMisses("manychat");
  }

  lemma ManyChatLower(raw: string)
    requires raw == "ManyChat"
    ensures Lower(raw) == "manychat"
  {
    LowerIs(raw, "manychat");
  }

  lemma ManyChatMisses(s: string)
    requires s == "manychat"
    ensures !Contains(s, "whatsapp") && !Contains(s, "email") && !Contains(s, "llamada")
         && !Contains(s, "call") && !Contains(s, "reunión") && !Contains(s, "meeting")
  {
    assert NoChar(s, 'w') && NoChar(s, 'e') && NoChar(s, 'l');
    NoBucketLetters(s);
  }

  lemma ChannelOfOtro(raw: string)
    requires raw == "Otro"
    ensures ChannelOf(raw) == OtherBucket
  {
    var s := "otro";
    LowerIs(raw, s);
    NoBucketLetters(s);
  }

  /** A text without the letters 'w', 'e' and 'l' contains none of the bucket keywords. */
  lemma NoBucketLetters(s: string)
    requires NoChar(s, 'w') && NoChar(s, 'e') && NoChar(s, 'l')
    ensures !Contains(s, "whatsapp") && !Contains(s, "email") && !Contains(s, "llamada")
         && !Contains(s, "call") && !Contains(s, "reunión") && !Contains(s, "meeting")
  {
    Lacks(s, "whatsapp", 'w');
    Lacks(s, "email", 'e');
    Lacks(s, "reunión", 'e');
    Lacks(s, "meeting", 'e');
    Lacks(s, "llamada", 'l');
    Lacks(s, "call", 'l');
  }

  // ---------------------------------------------------------------------------
  // calculateConversionByVendor
  // ---------------------------------------------------------------------------

  datatype VendorConversion = VendorConversion(
    vendorId: string, vendorName: string, totalLeads: nat, wonLeads: nat, lostLeads: nat, conversionRate: int)

  /** The vendor a contact is assigned to. */
  function Assignee(c: Contact): Option<string> {
    Some(c.assignedSellerId)
  }

  /** The vendor of a contact in status `s`; contacts in other statuses are not filed. */
  function StatusAssignee(s: LeadStatus): Contact -> Option<string> {
    (c: Contact) => if c.status == s then Some(c.assignedSellerId) else None
  }

  function ConversionId(row: VendorConversion): string {
    row.vendorId
  }

  function ConversionRateOf(row: VendorConversion): int {
    row.conversionRate
  }

  function ZeroConversion(v: string, name: string): VendorConversion {
    VendorConversion(v, name, 0, 0, 0, 0)
  }

  /** Every assigned contact adds to the total; a won or lost one also to its own count. */
  function CountConversion(row: VendorConversion, c: Contact): VendorConversion {
    row.(totalLeads := row.totalLeads + 1,
         wonLeads := row.wonLeads + (if c.status == ClosedWon then 1 else 0),
         lostLeads := row.lostLeads + (if c.status == ClosedLost then 1 else 0))
  }

  /** The counters of the row of `v` after the contacts `xs`. */
  predicate ConversionCounts(xs: seq<Contact>, sellers: seq<Seller>, v: string, row: VendorConversion) {
    row.vendorId == v && row.vendorName == VendorName(sellers, v)
    && row.totalLeads == CountFor(xs, Assignee, v)
    && row.wonLeads == CountFor(xs, StatusAssignee(ClosedWon), v)
    && row.lostLeads == CountFor(xs, StatusAssignee(ClosedLost), v)
  }

  function ConversionPass(sellers: seq<Seller>): (seq<Contact>, string, VendorConversion) -> bool {
    (xs: seq<Contact>, v: string, row: VendorConversion) => ConversionCounts(xs, sellers, v, row) && row.conversionRate == 0
  }

  /** `vendor.conversionRate`: won over won plus lost as a rounded percentage, 0 with no closed lead. */
  function WithRate(row: VendorConversion): (r: VendorConversion)
    ensures r == row.(conversionRate := r.conversionRate)
    ensures 0 <= r.conversionRate <= 100
    ensures row.wonLeads == 0 ==> r.conversionRate == 0
    ensures row.wonLeads > 0 && row.lostLeads == 0 ==> r.conversionRate == 100
  {
    row.(conversionRate := Percent(row.wonLeads, row.wonLeads + row.lostLeads))
  }

  /** A finished row: its counters, closed leads among its leads, and its rate. */
  function ConversionRow(contacts: seq<Contact>, sellers: seq<Seller>): VendorConversion -> bool {
    (row: VendorConversion) =>
      ConversionCounts(contacts, sellers, row.vendorId, row)
      && row.wonLeads + row.lostLeads <= row.totalLeads
      && row.conversionRate == Percent(row.wonLeads, row.wonLeads + row.lostLeads)
  }

  /** A vendor's won and lost leads are among its leads. */
  lemma {:induction false} ClosedAmongLeads(xs: seq<Contact>, v: string)
    ensures CountFor(xs, StatusAssignee(ClosedWon), v) + CountFor(xs, StatusAssignee(ClosedLost), v)
         <= CountFor(xs, Assignee, v)
  {
    if xs != [] {
      ClosedAmongLeads(xs[..|xs| - 1], v);
    }
  }

  lemma ConversionStep(xs: seq<Contact>, i: nat, sellers: seq<Seller>, v: string, row: VendorConversion)
    requires i < |xs| && ConversionPass(sellers)(xs[..i], v, row)
    ensures ConversionPass(sellers)(xs[..i + 1], v, if Assignee(xs[i]) == Some(v) then CountConversion(row, xs[i]) else row)
  {
    CountForStep(xs, i, Assignee);
    CountForStep(xs, i, StatusAssignee(ClosedWon));
    CountForStep(xs, i, StatusAssignee(ClosedLost));
  }

  lemma ConversionSteps(xs: seq<Contact>, sellers: seq<Seller>)
    ensures forall i: nat, v, row :: StepKeeps(xs, i, v, row, Assignee, CountConversion, ConversionPass(sellers))
  {
    forall i: nat, v, row ensures StepKeeps(xs, i, v, row, Assignee, CountConversion, ConversionPass(sellers)) {
      if i < |xs| && ConversionPass(sellers)(xs[..i], v, row) {
        ConversionStep(xs, i, sellers, v, row);
      }
    }
  }

  lemma ZeroConversionPass(sellers: seq<Seller>, v: string)
    ensures ConversionPass(sellers)([], v, ZeroConversion(v, VendorName(sellers, v)))
  {
    assert ConversionCounts([], sellers, v, ZeroConversion(v, VendorName(sellers, v)));
  }

  lemma RatedConversion(xs: seq<Contact>, sellers: seq<Seller>, v: string, row: VendorConversion)
    requires ConversionPass(sellers)(xs, v, row)
    ensures ConversionId(WithRate(row)) == v && ConversionRow(xs, sellers)(WithRate(row))
  {
    ClosedAmongLeads(xs, v);
  }

  /** The per-vendor accumulation of `calculateConversionByVendor`, before the sort. */
  method ConversionRows(contacts: seq<Contact>, sellers: seq<Seller>) returns (ids: seq<string>, rated: map<string, VendorConversion>)
    ensures ids == VendorIds(sellers)
    ensures forall v :: v in rated <==> v in ids
    ensures forall v :: v in rated ==> ConversionId(rated[v]) == v && ConversionRow(contacts, sellers)(rated[v])
  {
    var m;
    ids, m := SeedVendors(sellers, ZeroConversion);
    forall v | v in m ensures ConversionPass(sellers)([], v, m[v]) {
      ZeroConversionPass(sellers, v);
    }
    ConversionSteps(contacts, sellers);
    m := ForEachRecord(contacts, m, Assignee, CountConversion, ConversionPass(sellers));
    rated := map v | v in m :: WithRate(m[v]);
    forall v | v in rated ensures ConversionId(rated[v]) == v && ConversionRow(contacts, sellers)(rated[v]) {
      RatedConversion(contacts, sellers, v, m[v]);
    }
  }

  /**
   * calculateConversionByVendor: per vendor, its leads, its won and lost leads
   * and its conversion rate; highest rate first.
   */
  method ConversionByVendor(contacts: seq<Contact>, sellers: seq<Seller>) returns (r: seq<VendorConversion>)
    ensures sellers == [] ==> r == []
    ensures |r| == |VendorIds(sellers)|
    ensures forall i, j :: 0 <= i < j < |r| ==> r[i].vendorId != r[j].vendorId
    ensures forall v :: v in VendorIds(sellers) ==> exists i :: 0 <= i < |r| && r[i].vendorId == v
    ensures forall i :: 0 <= i < |r| ==>
      r[i].vendorId in VendorIds(sellers) && ConversionRow(contacts, sellers)(r[i])
    ensures SortedDesc(r, ConversionRateOf)
    ensures TiesBy(r, ConversionRateOf, RankIn(VendorIds(sellers), ConversionId))
  {
    if |sellers| == 0 {
      return [];
    }
    var ids, rated := ConversionRows(contacts, sellers);
    KeysOfDistinct(sellers, SellerKey);
    r := SortedRows(ids, rated, ConversionId, ConversionRateOf, ConversionRow(contacts, sellers));
  }

  /** The contacts assigned to `v`: `contacts.filter(c => c.assignedSellerId === v)`. */
  function AssignedTo(v: string): Contact -> bool {
    (c: Contact) => c.assignedSellerId == v
  }

  function AssignedWithStatus(v: string, s: LeadStatus): Contact -> bool {
    (c: Contact) => c.assignedSellerId == v && c.status == s
  }

  /** The closed leads of `v` in status `s` are those of its own contacts in status `s`. */
  lemma StatusCountOfVendor(contacts: seq<Contact>, v: string, s: LeadStatus)
    ensures CountFor(contacts, StatusAssignee(s), v) == Count(Filter(contacts, AssignedTo(v)), HasStatus(s))
  {
    FilterFilter(contacts, AssignedTo(v), HasStatus(s), AssignedWithStatus(v, s));
    CountForIsCount(contacts, StatusAssignee(s), v, AssignedWithStatus(v, s));
  }

  /**
   * A vendor's conversion rate is the dashboard's overall conversion rate
   * computed over that vendor's own contacts.
   */
  lemma VendorConversionRate(contacts: seq<Contact>, v: string, won: nat, lost: nat)
    requires won == CountFor(contacts, StatusAssignee(ClosedWon), v)
    requires lost == CountFor(contacts, StatusAssignee(ClosedLost), v)
    ensures ConversionRate(Filter(contacts, AssignedTo(v)), None) == Percent(won, won + lost)
  {
    StatusCountOfVendor(contacts, v, ClosedWon);
    StatusCountOfVendor(contacts, v, ClosedLost);
    ConversionRateOfCounts(Filter(contacts, AssignedTo(v)), None, won, lost);
  }

  // ---------------------------------------------------------------------------
  // calculateActiveLeadsByVendor
  // ---------------------------------------------------------------------------

  datatype VendorLeads = VendorLeads(
    vendorId: string, vendorName: string, activeLeads: nat, newLeads: nat, contactedLeads: nat, interestedLeads: nat)

  /** The vendor of a lead still in the pipeline; closed leads are not filed. */
  function ActiveAssignee(c: Contact): Option<string> {
    if IsActive(c.status) then Some(c.assignedSellerId) else None
  }

  function LeadsId(row: VendorLeads): string {
    row.vendorId
  }

  function ActiveLeadsOf(row: VendorLeads): int {
    row.activeLeads
  }

  function ZeroLeads(v: string, name: string): VendorLeads {
    VendorLeads(v, name, 0, 0, 0, 0)
  }

  /** The `switch` on the status: an open lead adds to its status's count and to the active count. */
  function CountLead(row: VendorLeads, c: Contact): VendorLeads {
    match c.status
    case New => row.(newLeads := row.newLeads + 1, activeLeads := row.activeLeads + 1)
    case Contacted => row.(contactedLeads := row.contactedLeads + 1, activeLeads := row.activeLeads + 1)
    case Interested => row.(interestedLeads := row.interestedLeads + 1, activeLeads := row.activeLeads + 1)
    case _ => row
  }

  predicate LeadCounts(xs: seq<Contact>, sellers: seq<Seller>, v: string, row: VendorLeads) {
    row.vendorId == v && row.vendorName == VendorName(sellers, v)
    && row.activeLeads == CountFor(xs, ActiveAssignee, v)
    && row.newLeads == CountFor(xs, StatusAssignee(New), v)
    && row.contactedLeads == CountFor(xs, StatusAssignee(Contacted), v)
    && row.interestedLeads == CountFor(xs, StatusAssignee(Interested), v)
  }

  function LeadsPass(sellers: seq<Seller>): (seq<Contact>, string, VendorLeads) -> bool {
    (xs: seq<Contact>, v: string, row: VendorLeads) => LeadCounts(xs, sellers, v, row)
  }

  /** A finished row: its counters, with the active count split over the three open statuses. */
  function LeadsRow(contacts: seq<Contact>, sellers: seq<Seller>): VendorLeads -> bool {
    (row: VendorLeads) =>
      LeadCounts(contacts, sellers, row.vendorId, row)
      && row.activeLeads == row.newLeads + row.contactedLeads + row.interestedLeads
  }

  /** Every open lead of a vendor is new, contacted or interested, and only one of them. */
  lemma {:induction false} ActivePartition(xs: seq<Contact>, v: string)
    ensures CountFor(xs, ActiveAssignee, v)
         == CountFor(xs, StatusAssignee(New), v) + CountFor(xs, StatusAssignee(Contacted), v)
            + CountFor(xs, StatusAssignee(Interested), v)
  {
    if xs != [] {
      ActivePartition(xs[..|xs| - 1], v);
    }
  }

  lemma LeadStep(xs: seq<Contact>, i: nat, sellers: seq<Seller>, v: string, row: VendorLeads)
    requires i < |xs| && LeadsPass(sellers)(xs[..i], v, row)
    ensures LeadsPass(sellers)(xs[..i + 1], v, if Assignee(xs[i]) == Some(v) then CountLead(row, xs[i]) else row)
  {
    CountForStep(xs, i, ActiveAssignee);
    CountForStep(xs, i, StatusAssignee(New));
    CountForStep(xs, i, StatusAssignee(Contacted));
    CountForStep(xs, i, StatusAssignee(Interested));
  }

  lemma LeadSteps(xs: seq<Contact>, sellers: seq<Seller>)
    ensures forall i: nat, v, row :: StepKeeps(xs, i, v, row, Assignee, CountLead, LeadsPass(sellers))
  {
    forall i: nat, v, row ensures StepKeeps(xs, i, v, row, Assignee, CountLead, LeadsPass(sellers)) {
      if i < |xs| && LeadsPass(sellers)(xs[..i], v, row) {
        LeadStep(xs, i, sellers, v, row);
      }
    }
  }

  lemma ZeroLeadsPass(sellers: seq<Seller>, v: string)
    ensures LeadsPass(sellers)([], v, ZeroLeads(v, VendorName(sellers, v)))
  {
    assert LeadCounts([], sellers, v, ZeroLeads(v, VendorName(sellers, v)));
  }

  lemma PassedLeads(xs: seq<Contact>, sellers: seq<Seller>, v: string, row: VendorLeads)
    requires LeadsPass(sellers)(xs, v, row)
    ensures LeadsId(row) == v && LeadsRow(xs, sellers)(row)
  {
    ActivePartition(xs, v);
  }

  /**
   * calculateActiveLeadsByVendor: per vendor, its open leads split into new,
   * contacted and interested; most open leads first.
   */
  method ActiveLeadsByVendor(contacts: seq<Contact>, sellers: seq<Seller>) returns (r: seq<VendorLeads>)
    ensures sellers == [] ==> r == []
    ensures |r| == |VendorIds(sellers)|
    ensures forall i, j :: 0 <= i < j < |r| ==> r[i].vendorId != r[j].vendorId
    ensures forall v :: v in VendorIds(sellers) ==> exists i :: 0 <= i < |r| && r[i].vendorId == v
    ensures forall i :: 0 <= i < |r| ==> r[i].vendorId in VendorIds(sellers) && LeadsRow(contacts, sellers)(r[i])
    ensures SortedDesc(r, ActiveLeadsOf)
    ensures TiesBy(r, ActiveLeadsOf, RankIn(VendorIds(sellers), LeadsId))
  {
    if |sellers| == 0 {
      return [];
    }
    var ids, m := SeedVendors(sellers, ZeroLeads);
    forall v | v in m ensures LeadsPass(sellers)([], v, m[v]) {
      ZeroLeadsPass(sellers, v);
    }
    LeadSteps(contacts, sellers);
    m := ForEachRecord(contacts, m, Assignee, CountLead, LeadsPass(sellers));
    forall v | v in m ensures LeadsId(m[v]) == v && LeadsRow(contacts, sellers)(m[v]) {
      PassedLeads(contacts, sellers, v, m[v]);
    }
    KeysOfDistinct(sellers, SellerKey);
    r := SortedRows(ids, m, LeadsId, ActiveLeadsOf, LeadsRow(contacts, sellers));
  }

  // ---------------------------------------------------------------------------
  // calculatePendingFollowUpsByVendor
  // ---------------------------------------------------------------------------

  /** Where a follow-up date falls against the local day of `now`. */
  datatype FollowUp = DueDay | Overdue | Upcoming

  /**
   * The follow-up class of a contact: none for a closed contact or one without
   * a next-contact date; within the local day of `now` it is due, before it
   * overdue, and otherwise upcoming. A date that does not parse compares false
   * both ways and so lands in upcoming.
   */
  function FollowUpOf(c: Contact, now: int, tz: int): (k: Option<FollowUp>)
    ensures k.None? <==> IsClosed(c.status) || c.nextContactDate.Missing?
    ensures c.nextContactDate.Unparseable? && k.Some? ==> k == Some(Upcoming)
  {
    if IsClosed(c.status) || c.nextContactDate.Missing? then None
    else if c.nextContactDate.Unparseable? then Some(Upcoming)
    else if DayStart(now, tz) <= c.nextContactDate.ms <= DayEnd(now, tz) then Some(DueDay)
    else if c.nextContactDate.ms < DayStart(now, tz) then Some(Overdue)
    else Some(Upcoming)
  }

  /** The vendor of a contact with a follow-up; the early `return`s file nothing. */
  function FollowUpAssignee(now: int, tz: int): Contact -> Option<string> {
    (c: Contact) => if FollowUpOf(c, now, tz).Some? then Some(c.assignedSellerId) else None
  }

  /** The vendor of a contact whose follow-up is of class `k`. */
  function ClassAssignee(k: FollowUp, now: int, tz: int): Contact -> Option<string> {
    (c: Contact) => if FollowUpOf(c, now, tz) == Some(k) then Some(c.assignedSellerId) else None
  }

  datatype VendorFollowUps = VendorFollowUps(
    vendorId: string, vendorName: string, today: nat, overdue: nat, upcoming: nat, total: nat)

  function FollowUpsId(row: VendorFollowUps): string {
    row.vendorId
  }

  function FollowUpsTotal(row: VendorFollowUps): int {
    row.total
  }

  function ZeroFollowUps(v: string, name: string): VendorFollowUps {
    VendorFollowUps(v, name, 0, 0, 0, 0)
  }

  /** A contact with a follow-up adds to its class and to the total. */
  function CountFollowUp(row: VendorFollowUps, c: Contact, now: int, tz: int): VendorFollowUps {
    match FollowUpOf(c, now, tz)
    case Some(DueDay) => row.(today := row.today + 1, total := row.total + 1)
    case Some(Overdue) => row.(overdue := row.overdue + 1, total := row.total + 1)
    case Some(Upcoming) => row.(upcoming := row.upcoming + 1, total := row.total + 1)
    case None => row
  }

  function FollowUpCounter(now: int, tz: int): (VendorFollowUps, Contact) -> VendorFollowUps {
    (row: VendorFollowUps, c: Contact) => CountFollowUp(row, c, now, tz)
  }

  predicate FollowUpCounts(xs: seq<Contact>, sellers: seq<Seller>, now: int, tz: int, v: string, row: VendorFollowUps) {
    row.vendorId == v && row.vendorName == VendorName(sellers, v)
    && row.today == CountFor(xs, ClassAssignee(DueDay, now, tz), v)
    && row.overdue == CountFor(xs, ClassAssignee(Overdue, now, tz), v)
    && row.upcoming == CountFor(xs, ClassAssignee(Upcoming, now, tz), v)
    && row.total == CountFor(xs, FollowUpAssignee(now, tz), v)
  }

  function FollowUpsPass(sellers: seq<Seller>, now: int, tz: int): (seq<Contact>, string, VendorFollowUps) -> bool {
    (xs: seq<Contact>, v: string, row: VendorFollowUps) => FollowUpCounts(xs, sellers, now, tz, v, row)
  }

  /** A finished row: its counters, with the total split over the three classes. */
  function FollowUpsRow(contacts: seq<Contact>, sellers: seq<Seller>, now: int, tz: int): VendorFollowUps -> bool {
    (row: VendorFollowUps) =>
      FollowUpCounts(contacts, sellers, now, tz, row.vendorId, row)
      && row.total == row.today + row.overdue + row.upcoming
  }

  /** Every follow-up of a vendor is due today, overdue or upcoming, and only one of them. */
  lemma {:induction false} FollowUpPartition(xs: seq<Contact>, now: int, tz: int, v: string)
    ensures CountFor(xs, FollowUpAssignee(now, tz), v)
         == CountFor(xs, ClassAssignee(DueDay, now, tz), v) + CountFor(xs, ClassAssignee(Overdue, now, tz), v)
            + CountFor(xs, ClassAssignee(Upcoming, now, tz), v)
  {
    if xs != [] {
      FollowUpPartition(xs[..|xs| - 1], now, tz, v);
    }
  }

  lemma FollowUpStep(xs: seq<Contact>, i: nat, sellers: seq<Seller>, now: int, tz: int, v: string, row: VendorFollowUps)
    requires i < |xs| && FollowUpsPass(sellers, now, tz)(xs[..i], v, row)
    ensures FollowUpsPass(sellers, now, tz)(xs[..i + 1], v,
              if FollowUpAssignee(now, tz)(xs[i]) == Some(v) then FollowUpCounter(now, tz)(row, xs[i]) else row)
  {
    CountForStep(xs, i, ClassAssignee(DueDay, now, tz));
    CountForStep(xs, i, ClassAssignee(Overdue, now, tz));
    CountForStep(xs, i, ClassAssignee(Upcoming, now, tz));
    CountForStep(xs, i, FollowUpAssignee(now, tz));
  }

  lemma FollowUpSteps(xs: seq<Contact>, sellers: seq<Seller>, now: int, tz: int)
    ensures forall i: nat, v, row ::
      StepKeeps(xs, i, v, row, FollowUpAssignee(now, tz), FollowUpCounter(now, tz), FollowUpsPass(sellers, now, tz))
  {
    forall i: nat, v, row
      ensures StepKeeps(xs, i, v, row, FollowUpAssignee(now, tz), FollowUpCounter(now, tz), FollowUpsPass(sellers, now, tz))
    {
      if i < |xs| && FollowUpsPass(sellers, now, tz)(xs[..i], v, row) {
        FollowUpStep(xs, i, sellers, now, tz, v, row);
      }
    }
  }

  lemma ZeroFollowUpsPass(sellers: seq<Seller>, now: int, tz: int, v: string)
    ensures FollowUpsPass(sellers, now, tz)([], v, ZeroFollowUps(v, VendorName(sellers, v)))
  {
    assert FollowUpCounts([], sellers, now, tz, v, ZeroFollowUps(v, VendorName(sellers, v)));
  }

  lemma PassedFollowUps(xs: seq<Contact>, sellers: seq<Seller>, now: int, tz: int, v: string, row: VendorFollowUps)
    requires FollowUpsPass(sellers, now, tz)(xs, v, row)
    ensures FollowUpsId(row) == v && FollowUpsRow(xs, sellers, now, tz)(row)
  {
    FollowUpPartition(xs, now, tz, v);
  }

  /**
   * calculatePendingFollowUpsByVendor: per vendor, the follow-ups of its open
   * contacts split into due today, overdue and upcoming; most follow-ups first.
   * `now` and the zone offset `tz` stand for the clock and the local calendar.
   */
  method PendingFollowUpsByVendor(contacts: seq<Contact>, sellers: seq<Seller>, now: int, tz: int)
    returns (r: seq<VendorFollowUps>)
    ensures sellers == [] ==> r == []
    ensures |r| == |VendorIds(sellers)|
    ensures forall i, j :: 0 <= i < j < |r| ==> r[i].vendorId != r[j].vendorId
    ensures forall v :: v in VendorIds(sellers) ==> exists i :: 0 <= i < |r| && r[i].vendorId == v
    ensures forall i :: 0 <= i < |r| ==>
      r[i].vendorId in VendorIds(sellers) && FollowUpsRow(contacts, sellers, now, tz)(r[i])
    ensures SortedDesc(r, FollowUpsTotal)
    ensures TiesBy(r, FollowUpsTotal, RankIn(VendorIds(sellers), FollowUpsId))
  {
    if |sellers| == 0 {
      return [];
    }
    var ids, m := SeedVendors(sellers, ZeroFollowUps);
    forall v | v in m ensures FollowUpsPass(sellers, now, tz)([], v, m[v]) {
      ZeroFollowUpsPass(sellers, now, tz, v);
    }
    FollowUpSteps(contacts, sellers, now, tz);
    m := ForEachRecord(contacts, m, FollowUpAssignee(now, tz), FollowUpCounter(now, tz), FollowUpsPass(sellers, now, tz));
    forall v | v in m ensures FollowUpsId(m[v]) == v && FollowUpsRow(contacts, sellers, now, tz)(m[v]) {
      PassedFollowUps(contacts, sellers, now, tz, v, m[v]);
    }
    KeysOfDistinct(sellers, SellerKey);
    r := SortedRows(ids, m, FollowUpsId, FollowUpsTotal, FollowUpsRow(contacts, sellers, now, tz));
  }

  /**
   * The classes on the local calendar: due is "open, and dated on the local day
   * of `now`", the same test as the dashboard's urgent follow-ups; overdue is
   * "open, and dated on an earlier local day".
   */
  lemma FollowUpClasses(c: Contact, now: int, tz: int)
    ensures FollowUpOf(c, now, tz) == Some(DueDay) <==> DueToday(now, tz)(c)
    ensures FollowUpOf(c, now, tz) == Some(DueDay)
        <==> IsActive(c.status) && c.nextContactDate.At? && DayOf(c.nextContactDate.ms, tz) == DayOf(now, tz)
    ensures FollowUpOf(c, now, tz) == Some(Overdue)
        <==> IsActive(c.status) && c.nextContactDate.At? && DayOf(c.nextContactDate.ms, tz) < DayOf(now, tz)
  {
    if c.nextContactDate.At? {
      DayWindow(c.nextContactDate.ms, now, tz);
    }
  }

  /** A closed contact never reaches a vendor's follow-ups, whatever its date. */
  lemma ClosedNeverFollowedUp(xs: seq<Contact>, c: Contact, now: int, tz: int, v: string)
    requires IsClosed(c.status)
    ensures CountFor(xs + [c], FollowUpAssignee(now, tz), v) == CountFor(xs, FollowUpAssignee(now, tz), v)
  {
    assert (xs + [c])[..|xs|] == xs;
  }

  // ---------------------------------------------------------------------------
  // calculateAvgClosingTimeByVendor
  // ---------------------------------------------------------------------------

  /** The accumulator of a vendor: summed cycle days, sales counted, name. */
  datatype ClosingAcc = ClosingAcc(totalDays: int, count: nat, name: string)

  datatype VendorClosingTime = VendorClosingTime(vendorId: string, vendorName: string, avgDays: int, salesCount: nat)

  /** The seller of a sale with a sales cycle; a cycle of 0 (or none) is falsy and skipped. */
  function CycleSeller(s: Sale): Option<string> {
    if s.salesCycleDays != 0 then Some(s.sellerId) else None
  }

  function CycleDays(s: Sale): int {
    s.salesCycleDays
  }

  function ZeroClosing(v: string, name: string): ClosingAcc {
    ClosingAcc(0, 0, name)
  }

  /** `vendor.totalDays += sale.salesCycleDays; vendor.count++`. */
  function AddCycle(acc: ClosingAcc, s: Sale): ClosingAcc {
    acc.(totalDays := acc.totalDays + s.salesCycleDays, count := acc.count + 1)
  }

  predicate ClosingSums(xs: seq<Sale>, sellers: seq<Seller>, v: string, acc: ClosingAcc) {
    acc.name == VendorName(sellers, v)
    && acc.count == CountFor(xs, CycleSeller, v)
    && acc.totalDays == SumFor(xs, CycleSeller, CycleDays, v)
  }

  function ClosingPass(sellers: seq<Seller>): (seq<Sale>, string, ClosingAcc) -> bool {
    (xs: seq<Sale>, v: string, acc: ClosingAcc) => ClosingSums(xs, sellers, v, acc)
  }

  /** `count > 0 ? Math.round(totalDays / count) : 0`: the mean, to the nearest day. */
  function MeanDays(total: int, count: nat): (avg: int)
    ensures count == 0 ==> avg == 0
    ensures count > 0 ==> count * (2 * avg - 1) <= 2 * total < count * (2 * avg + 1)
  {
    if count > 0 then RoundDivNearest(total, count); RoundDiv(total, count) else 0
  }

  /** A mean of values all within [lo, hi] lies within [lo, hi]. */
  lemma MeanDaysBetween(total: int, count: nat, lo: int, hi: int)
    requires count > 0 && count * lo <= total <= count * hi
    ensures lo <= MeanDays(total, count) <= hi
  {
    RoundDivBetween(total, count, lo, hi);
  }

  /** The `.map(([id, data]) => ...)` of an entry into a result row. */
  function ClosingRow(v: string, acc: ClosingAcc): VendorClosingTime {
    VendorClosingTime(v, acc.name, MeanDays(acc.totalDays, acc.count), acc.count)
  }

  function ClosingId(row: VendorClosingTime): string {
    row.vendorId
  }

  /** The ascending sort by `avgDays` is the descending sort by its negation. */
  function FastestFirst(row: VendorClosingTime): int {
    -row.avgDays
  }

  /** A finished row: the vendor's sales with a cycle and their mean cycle. */
  function ClosingOk(sales: seq<Sale>, sellers: seq<Seller>): VendorClosingTime -> bool {
    (row: VendorClosingTime) =>
      row.vendorName == VendorName(sellers, row.vendorId)
      && row.salesCount == CountFor(sales, CycleSeller, row.vendorId)
      && row.avgDays == MeanDays(SumFor(sales, CycleSeller, CycleDays, row.vendorId), row.salesCount)
  }

  lemma ClosingStep(xs: seq<Sale>, i: nat, sellers: seq<Seller>, v: string, acc: ClosingAcc)
    requires i < |xs| && ClosingPass(sellers)(xs[..i], v, acc)
    ensures ClosingPass(sellers)(xs[..i + 1], v, if CycleSeller(xs[i]) == Some(v) then AddCycle(acc, xs[i]) else acc)
  {
    CountForStep(xs, i, CycleSeller);
    SumForStep(xs, i, CycleSeller, CycleDays);
  }

  lemma ClosingSteps(xs: seq<Sale>, sellers: seq<Seller>)
    ensures forall i: nat, v, acc :: StepKeeps(xs, i, v, acc, CycleSeller, AddCycle, ClosingPass(sellers))
  {
    forall i: nat, v, acc ensures StepKeeps(xs, i, v, acc, CycleSeller, AddCycle, ClosingPass(sellers)) {
      if i < |xs| && ClosingPass(sellers)(xs[..i], v, acc) {
        ClosingStep(xs, i, sellers, v, acc);
      }
    }
  }

  lemma ZeroClosingPass(sellers: seq<Seller>, v: string)
    ensures ClosingPass(sellers)([], v, ZeroClosing(v, VendorName(sellers, v)))
  {
    assert ClosingSums([], sellers, v, ZeroClosing(v, VendorName(sellers, v)));
  }

  lemma ClosedAcc(xs: seq<Sale>, sellers: seq<Seller>, v: string, acc: ClosingAcc)
    requires ClosingPass(sellers)(xs, v, acc)
    ensures ClosingId(ClosingRow(v, acc)) == v && ClosingOk(xs, sellers)(ClosingRow(v, acc))
  {
    assert ClosingSums(xs, sellers, v, acc);
  }

  /** The per-vendor accumulation of `calculateAvgClosingTimeByVendor`, before the sort. */
  method ClosingRows(sales: seq<Sale>, sellers: seq<Seller>) returns (ids: seq<string>, rows: map<string, VendorClosingTime>)
    ensures ids == VendorIds(sellers)
    ensures forall v :: v in rows <==> v in ids
    ensures forall v :: v in rows ==> ClosingId(rows[v]) == v && ClosingOk(sales, sellers)(rows[v])
  {
    var m;
    ids, m := SeedVendors(sellers, ZeroClosing);
    forall v | v in m ensures ClosingPass(sellers)([], v, m[v]) {
      ZeroClosingPass(sellers, v);
    }
    ClosingSteps(sales, sellers);
    m := ForEachRecord(sales, m, CycleSeller, AddCycle, ClosingPass(sellers));
    rows := map v | v in m :: ClosingRow(v, m[v]);
    forall v | v in rows ensures ClosingId(rows[v]) == v && ClosingOk(sales, sellers)(rows[v]) {
      ClosedAcc(sales, sellers, v, m[v]);
    }
  }

  /**
   * calculateAvgClosingTimeByVendor: per vendor, how many of its sales carry a
   * sales cycle and their mean length in days; fastest first.
   */
  method AvgClosingTimeByVendor(sales: seq<Sale>, sellers: seq<Seller>) returns (r: seq<VendorClosingTime>)
    ensures sellers == [] ==> r == []
    ensures |r| == |VendorIds(sellers)|
    ensures forall i, j :: 0 <= i < j < |r| ==> r[i].vendorId != r[j].vendorId
    ensures forall v :: v in VendorIds(sellers) ==> exists i :: 0 <= i < |r| && r[i].vendorId == v
    ensures forall i :: 0 <= i < |r| ==> r[i].vendorId in VendorIds(sellers) && ClosingOk(sales, sellers)(r[i])
    ensures forall i, j :: 0 <= i < j < |r| ==> r[i].avgDays <= r[j].avgDays
    ensures TiesBy(r, FastestFirst, RankIn(VendorIds(sellers), ClosingId))
  {
    if |sellers| == 0 {
      return [];
    }
    var ids, rows := ClosingRows(sales, sellers);
    KeysOfDistinct(sellers, SellerKey);
    r := SortedRows(ids, rows, ClosingId, FastestFirst, ClosingOk(sales, sellers));
    FastestFirstAscending(r);
  }

  lemma FastestFirstAscending(r: seq<VendorClosingTime>)
    requires SortedDesc(r, FastestFirst)
    ensures forall i, j :: 0 <= i < j < |r| ==> r[i].avgDays <= r[j].avgDays
  {
    forall i, j | 0 <= i < j < |r| ensures r[i].avgDays <= r[j].avgDays {
      assert FastestFirst(r[i]) >= FastestFirst(r[j]);
    }
  }

  // ---------------------------------------------------------------------------
  // calculateRecoveryByVendor
  // ---------------------------------------------------------------------------

  datatype VendorRecovery = VendorRecovery(
    vendorId: string, vendorName: string, assignedAttempts: nat, recoveredAttempts: nat, recoveryRate: int,
    recoveredValue: int)

  /** The recovery seller of an attempt; an empty id is falsy and files nothing. */
  function RecoverySeller(a: PurchaseAttempt): Option<string> {
    if a.recoverySellerId != "" then Some(a.recoverySellerId) else None
  }

  function RecoveryId(row: VendorRecovery): string {
    row.vendorId
  }

  function RecoveryRateOf(row: VendorRecovery): int {
    row.recoveryRate
  }

  function ZeroRecovery(v: string, name: string): VendorRecovery {
    VendorRecovery(v, name, 0, 0, 0, 0)
  }

  /** An attempt with a seller counts as assigned and, as the dashboard assumes, as recovered. */
  function CountRecovery(row: VendorRecovery, a: PurchaseAttempt): VendorRecovery {
    row.(assignedAttempts := row.assignedAttempts + 1, recoveredAttempts := row.recoveredAttempts + 1,
         recoveredValue := row.recoveredValue + a.amount)
  }

  predicate RecoveryCounts(xs: seq<PurchaseAttempt>, sellers: seq<Seller>, v: string, row: VendorRecovery) {
    row.vendorId == v && row.vendorName == VendorName(sellers, v)
    && row.assignedAttempts == CountFor(xs, RecoverySeller, v)
    && row.recoveredAttempts == row.assignedAttempts
    && row.recoveredValue == SumFor(xs, RecoverySeller, AttemptAmount, v)
  }

  function RecoveryPass(sellers: seq<Seller>): (seq<PurchaseAttempt>, string, VendorRecovery) -> bool {
    (xs: seq<PurchaseAttempt>, v: string, row: VendorRecovery) => RecoveryCounts(xs, sellers, v, row) && row.recoveryRate == 0
  }

  /** The rate is set only for a vendor with assigned attempts; the others keep 0. */
  function RecoveryRated(row: VendorRecovery): (r: VendorRecovery)
    ensures r == row.(recoveryRate := r.recoveryRate)
    ensures row.assignedAttempts == 0 ==> r.recoveryRate == row.recoveryRate
    ensures row.assignedAttempts > 0 && row.recoveredAttempts == row.assignedAttempts ==> r.recoveryRate == 100
  {
    if row.assignedAttempts > 0 then
      if row.recoveredAttempts == row.assignedAttempts then PercentFull(row.assignedAttempts); ValueRate(row)
      else ValueRate(row)
    else row
  }

  function ValueRate(row: VendorRecovery): VendorRecovery
    requires row.assignedAttempts > 0
  {
    row.(recoveryRate := RoundDiv(100 * row.recoveredAttempts, row.assignedAttempts))
  }

  predicate HasAssigned(row: VendorRecovery) {
    row.assignedAttempts > 0
  }

  /** A listed row: a vendor with assigned attempts, all of them recovered, so a rate of 100. */
  function RecoveryRow(attempts: seq<PurchaseAttempt>, sellers: seq<Seller>): VendorRecovery -> bool {
    (row: VendorRecovery) =>
      RecoveryCounts(Filter(attempts, Recoverable), sellers, row.vendorId, row)
      && row.assignedAttempts > 0 && row.recoveryRate == 100
  }

  lemma RecoveryStep(xs: seq<PurchaseAttempt>, i: nat, sellers: seq<Seller>, v: string, row: VendorRecovery)
    requires i < |xs| && RecoveryPass(sellers)(xs[..i], v, row)
    ensures RecoveryPass(sellers)(xs[..i + 1], v, if RecoverySeller(xs[i]) == Some(v) then CountRecovery(row, xs[i]) else row)
  {
    CountForStep(xs, i, RecoverySeller);
    SumForStep(xs, i, RecoverySeller, AttemptAmount);
  }

  lemma RecoverySteps(xs: seq<PurchaseAttempt>, sellers: seq<Seller>)
    ensures forall i: nat, v, row :: StepKeeps(xs, i, v, row, RecoverySeller, CountRecovery, RecoveryPass(sellers))
  {
    forall i: nat, v, row ensures StepKeeps(xs, i, v, row, RecoverySeller, CountRecovery, RecoveryPass(sellers)) {
      if i < |xs| && RecoveryPass(sellers)(xs[..i], v, row) {
        RecoveryStep(xs, i, sellers, v, row);
      }
    }
  }

  lemma ZeroRecoveryPass(sellers: seq<Seller>, v: string)
    ensures RecoveryPass(sellers)([], v, ZeroRecovery(v, VendorName(sellers, v)))
  {
    assert RecoveryCounts([], sellers, v, ZeroRecovery(v, VendorName(sellers, v)));
  }

  lemma RatedRecovery(attempts: seq<PurchaseAttempt>, sellers: seq<Seller>, v: string, row: VendorRecovery)
    requires RecoveryPass(sellers)(Filter(attempts, Recoverable), v, row)
    ensures RecoveryId(RecoveryRated(row)) == v
    ensures RecoveryRated(row).assignedAttempts == CountFor(Filter(attempts, Recoverable), RecoverySeller, v)
    ensures HasAssigned(RecoveryRated(row)) ==> RecoveryRow(attempts, sellers)(RecoveryRated(row))
  {
    assert RecoveryCounts(Filter(attempts, Recoverable), sellers, v, row);
  }

  /**
   * Rows listed in the order of the vendor ids, filtered and reordered: one row
   * per vendor id whose row passes the filter, each keeping what held of it.
   */
  lemma KeptRows<R>(ids: seq<string>, rows: seq<R>, r: seq<R>, id: R -> string, p: R -> bool, ok: R -> bool)
    requires Distinct(ids) && |rows| == |ids|
    requires forall k :: 0 <= k < |ids| ==> id(rows[k]) == ids[k] && (p(rows[k]) ==> ok(rows[k]))
    requires multiset(r) == multiset(Filter(rows, p))
    ensures forall i, j :: 0 <= i < j < |r| ==> id(r[i]) != id(r[j])
    ensures forall i :: 0 <= i < |r| ==> id(r[i]) in ids && ok(r[i])
    ensures forall k :: 0 <= k < |ids| && p(rows[k]) ==> exists i :: 0 <= i < |r| && id(r[i]) == ids[k]
  {
    var kept := Filter(rows, p);
    forall a, b | 0 <= a < b < |rows| ensures id(rows[a]) != id(rows[b]) {
      assert ids[a] != ids[b];
    }
    FilterKeepsDistinct(rows, p, id);
    DistinctByName(kept, r, id);
    forall i | 0 <= i < |r| ensures id(r[i]) in ids && ok(r[i]) {
      assert r[i] in multiset(kept);
      assert r[i] in rows;
    }
    forall k | 0 <= k < |ids| && p(rows[k]) ensures exists i :: 0 <= i < |r| && id(r[i]) == ids[k] {
      assert rows[k] in kept;
      assert rows[k] in multiset(r);
    }
  }

  /**
   * calculateRecoveryByVendor: over the failed and abandoned attempts, per
   * vendor with at least one attempt assigned, its attempts and their value;
   * every assigned attempt counts as recovered, so every listed rate is 100.
   */
  method RecoveryByVendor(attempts: seq<PurchaseAttempt>, sellers: seq<Seller>) returns (r: seq<VendorRecovery>)
    ensures sellers == [] ==> r == []
    ensures forall i, j :: 0 <= i < j < |r| ==> r[i].vendorId != r[j].vendorId
    ensures forall i :: 0 <= i < |r| ==> r[i].vendorId in VendorIds(sellers) && RecoveryRow(attempts, sellers)(r[i])
    ensures forall v :: v in VendorIds(sellers) && CountFor(Filter(attempts, Recoverable), RecoverySeller, v) > 0 ==>
      exists i :: 0 <= i < |r| && r[i].vendorId == v
    ensures SortedDesc(r, RecoveryRateOf)
    ensures TiesBy(r, RecoveryRateOf, RankIn(VendorIds(sellers), RecoveryId))
    ensures Ascending(r, RankIn(VendorIds(sellers), RecoveryId))
  {
    if |sellers| == 0 {
      return [];
    }
    var recoverable := Filter(attempts, Recoverable);
    var ids, m := SeedVendors(sellers, ZeroRecovery);
    forall v | v in m ensures RecoveryPass(sellers)([], v, m[v]) {
      ZeroRecoveryPass(sellers, v);
    }
    RecoverySteps(recoverable, sellers);
    m := ForEachRecord(recoverable, m, RecoverySeller, CountRecovery, RecoveryPass(sellers));
    // the rates set in place, then the map's values in key order
    var rows := seq(|ids|, k requires 0 <= k < |ids| => RecoveryRated(m[ids[k]]));
    r := SortDesc(Filter(rows, HasAssigned), RecoveryRateOf);
    SortDescSorted(Filter(rows, HasAssigned), RecoveryRateOf);
    KeysOfDistinct(sellers, SellerKey);
    RecoveryRowsKept(attempts, sellers, ids, m, rows, r);
    RecoveryOrder(ids, rows, r);
  }

  /**
   * Every listed rate is 100, so the stable sort moves nothing: the rows keep
   * the order in which their vendors entered the map.
   */
  lemma RecoveryOrder(ids: seq<string>, rows: seq<VendorRecovery>, r: seq<VendorRecovery>)
    requires Distinct(ids) && |rows| == |ids| && forall k :: 0 <= k < |ids| ==> RecoveryId(rows[k]) == ids[k]
    requires r == SortDesc(Filter(rows, HasAssigned), RecoveryRateOf)
    requires forall i :: 0 <= i < |r| ==> RecoveryRateOf(r[i]) == 100
    ensures TiesBy(r, RecoveryRateOf, RankIn(ids, RecoveryId))
    ensures Ascending(r, RankIn(ids, RecoveryId))
  {
    var rank := RankIn(ids, RecoveryId);
    RankInAscending(ids, rows, RecoveryId);
    FilterAscending(rows, HasAssigned, rank);
    SortDescTies(Filter(rows, HasAssigned), RecoveryRateOf, rank);
  }

  lemma RecoveryRowsKept(attempts: seq<PurchaseAttempt>, sellers: seq<Seller>, ids: seq<string>,
                         m: map<string, VendorRecovery>, rows: seq<VendorRecovery>, r: seq<VendorRecovery>)
    requires Distinct(ids) && forall v :: v in m <==> v in ids
    requires forall v :: v in m ==> RecoveryPass(sellers)(Filter(attempts, Recoverable), v, m[v])
    requires |rows| == |ids| && forall k :: 0 <= k < |ids| ==> rows[k] == RecoveryRated(m[ids[k]])
    requires multiset(r) == multiset(Filter(rows, HasAssigned))
    ensures forall i, j :: 0 <= i < j < |r| ==> r[i].vendorId != r[j].vendorId
    ensures forall i :: 0 <= i < |r| ==> r[i].vendorId in ids && RecoveryRow(attempts, sellers)(r[i])
    ensures forall v :: v in ids && CountFor(Filter(attempts, Recoverable), RecoverySeller, v) > 0 ==>
      exists i :: 0 <= i < |r| && r[i].vendorId == v
    ensures forall k :: 0 <= k < |ids| ==> RecoveryId(rows[k]) == ids[k]
    ensures forall i :: 0 <= i < |r| ==> RecoveryRateOf(r[i]) == 100
  {
    forall k | 0 <= k < |ids|
      ensures RecoveryId(rows[k]) == ids[k]
      ensures rows[k].assignedAttempts == CountFor(Filter(attempts, Recoverable), RecoverySeller, ids[k])
      ensures HasAssigned(rows[k]) ==> RecoveryRow(attempts, sellers)(rows[k])
    {
      RatedRecovery(attempts, sellers, ids[k], m[ids[k]]);
    }
    KeptRows(ids, rows, r, RecoveryId, HasAssigned, RecoveryRow(attempts, sellers));
    forall v | v in ids && CountFor(Filter(attempts, Recoverable), RecoverySeller, v) > 0
      ensures exists i :: 0 <= i < |r| && r[i].vendorId == v
    {
      var k := IndexOf(ids, v);
      assert HasAssigned(rows[k]);
    }
    forall i | 0 <= i < |r| ensures RecoveryRateOf(r[i]) == 100 {
      assert RecoveryRow(attempts, sellers)(r[i]);
    }
  }

  // ---------------------------------------------------------------------------
  // calculateSalesByVendor
  // ---------------------------------------------------------------------------

  /** The records one performance table is computed from. */
  datatype Books = Books(sales: seq<Sale>, contacts: seq<Contact>, interactions: seq<Interaction>, sellers: seq<Seller>)

  datatype VendorPerformance = VendorPerformance(
    vendorId: string, vendorName: string, salesCount: nat, salesAmount: int, conversionRate: int,
    avgClosingDays: int, activeLeads: nat, interactions: nat, pendingFollowUps: nat, rank: nat)

  function SaleSeller(s: Sale): Option<string> {
    Some(s.sellerId)
  }

  /**
   * The vendor of an open contact whose follow-up is due today or overdue; an
   * upcoming or unparseable date is not pending.
   */
  function DueAssignee(now: int, tz: int): Contact -> Option<string> {
    (c: Contact) =>
      if FollowUpOf(c, now, tz) == Some(DueDay) || FollowUpOf(c, now, tz) == Some(Overdue) then Some(c.assignedSellerId)
      else None
  }

  /**
   * A vendor's finished row before ranking: its sales and their amount, the
   * conversion rate of its own contacts, the mean cycle of its sales that carry
   * one, its open leads, its interactions and its pending follow-ups.
   */
  function Performance(d: Books, now: int, tz: int, v: string): VendorPerformance {
    VendorPerformance(v, VendorName(d.sellers, v),
      CountFor(d.sales, SaleSeller, v), SumFor(d.sales, SaleSeller, SaleAmount, v),
      ConversionRate(Filter(d.contacts, AssignedTo(v)), None),
      MeanDays(SumFor(d.sales, CycleSeller, CycleDays, v), CountFor(d.sales, CycleSeller, v)),
      CountFor(d.contacts, ActiveAssignee, v), CountFor(d.interactions, InteractionSeller, v),
      CountFor(d.contacts, DueAssignee(now, tz), v), 0)
  }

  /**
   * The row as it stands before pass `stage`: the fields of the passes done so
   * far (sales 0, active leads 1, interactions 2, conversion 3, closing days 4,
   * follow-ups 5) and zeros for the rest.
   */
  function Upto(row: VendorPerformance, stage: nat): VendorPerformance {
    row.(salesCount := if stage > 0 then row.salesCount else 0,
         salesAmount := if stage > 0 then row.salesAmount else 0,
         activeLeads := if stage > 1 then row.activeLeads else 0,
         interactions := if stage > 2 then row.interactions else 0,
         conversionRate := if stage > 3 then row.conversionRate else 0,
         avgClosingDays := if stage > 4 then row.avgClosingDays else 0,
         pendingFollowUps := if stage > 5 then row.pendingFollowUps else 0)
  }

  /** Every row of the map stands before pass `stage`. */
  predicate AtStage(d: Books, now: int, tz: int, m: map<string, VendorPerformance>, stage: nat) {
    forall v :: v in m ==> m[v] == Upto(Performance(d, now, tz, v), stage)
  }

  function ZeroPerformance(v: string, name: string): VendorPerformance {
    VendorPerformance(v, name, 0, 0, 0, 0, 0, 0, 0, 0)
  }

  function PerformanceId(row: VendorPerformance): string {
    row.vendorId
  }

  function SalesAmountOf(row: VendorPerformance): int {
    row.salesAmount
  }

  function SalesCountOf(row: VendorPerformance): int {
    row.salesCount
  }

  // The passes over the records, each with what a row holds after a prefix.

  function CountSale(row: VendorPerformance, s: Sale): VendorPerformance {
    row.(salesCount := row.salesCount + 1, salesAmount := row.salesAmount + s.amount)
  }

  function SalesPass(d: Books, now: int, tz: int): (seq<Sale>, string, VendorPerformance) -> bool {
    (xs: seq<Sale>, v: string, row: VendorPerformance) =>
      row == Upto(Performance(d, now, tz, v), 0).(salesCount := CountFor(xs, SaleSeller, v),
                                                   salesAmount := SumFor(xs, SaleSeller, SaleAmount, v))
  }

  function CountActive(row: VendorPerformance, c: Contact): VendorPerformance {
    row.(activeLeads := row.activeLeads + 1)
  }

  function ActivePass(d: Books, now: int, tz: int): (seq<Contact>, string, VendorPerformance) -> bool {
    (xs: seq<Contact>, v: string, row: VendorPerformance) =>
      row == Upto(Performance(d, now, tz, v), 1).(activeLeads := CountFor(xs, ActiveAssignee, v))
  }

  function CountContact(row: VendorPerformance, x: Interaction): VendorPerformance {
    row.(interactions := row.interactions + 1)
  }

  function ContactsPass(d: Books, now: int, tz: int): (seq<Interaction>, string, VendorPerformance) -> bool {
    (xs: seq<Interaction>, v: string, row: VendorPerformance) =>
      row == Upto(Performance(d, now, tz, v), 2).(interactions := CountFor(xs, InteractionSeller, v))
  }

  function CountPending(row: VendorPerformance, c: Contact): VendorPerformance {
    row.(pendingFollowUps := row.pendingFollowUps + 1)
  }

  function PendingPass(d: Books, now: int, tz: int): (seq<Contact>, string, VendorPerformance) -> bool {
    (xs: seq<Contact>, v: string, row: VendorPerformance) =>
      row == Upto(Performance(d, now, tz, v), 5).(pendingFollowUps := CountFor(xs, DueAssignee(now, tz), v))
  }

  lemma SalesSteps(d: Books, now: int, tz: int)
    ensures forall i: nat, v, row :: StepKeeps(d.sales, i, v, row, SaleSeller, CountSale, SalesPass(d, now, tz))
  {
    var xs := d.sales;
    forall i: nat, v, row ensures StepKeeps(xs, i, v, row, SaleSeller, CountSale, SalesPass(d, now, tz)) {
      if i < |xs| {
        CountForStep(xs, i, SaleSeller);
        SumForStep(xs, i, SaleSeller, SaleAmount);
      }
    }
  }

  lemma ActiveSteps(d: Books, now: int, tz: int)
    ensures forall i: nat, v, row :: StepKeeps(d.contacts, i, v, row, ActiveAssignee, CountActive, ActivePass(d, now, tz))
  {
    var xs := d.contacts;
    forall i: nat, v, row ensures StepKeeps(xs, i, v, row, ActiveAssignee, CountActive, ActivePass(d, now, tz)) {
      if i < |xs| {
        CountForStep(xs, i, ActiveAssignee);
      }
    }
  }

  lemma ContactsSteps(d: Books, now: int, tz: int)
    ensures forall i: nat, v, row ::
      StepKeeps(d.interactions, i, v, row, InteractionSeller, CountContact, ContactsPass(d, now, tz))
  {
    var xs := d.interactions;
    forall i: nat, v, row ensures StepKeeps(xs, i, v, row, InteractionSeller, CountContact, ContactsPass(d, now, tz)) {
      if i < |xs| {
        CountForStep(xs, i, InteractionSeller);
      }
    }
  }

  lemma PendingSteps(d: Books, now: int, tz: int)
    ensures forall i: nat, v, row ::
      StepKeeps(d.contacts, i, v, row, DueAssignee(now, tz), CountPending, PendingPass(d, now, tz))
  {
    var xs := d.contacts;
    forall i: nat, v, row ensures StepKeeps(xs, i, v, row, DueAssignee(now, tz), CountPending, PendingPass(d, now, tz)) {
      if i < |xs| {
        CountForStep(xs, i, DueAssignee(now, tz));
      }
    }
  }

  /** The seed is the row before any pass, and each finished pass hands over to the next. */
  lemma StageHandOver(d: Books, now: int, tz: int, v: string, row: VendorPerformance)
    ensures row == ZeroPerformance(v, VendorName(d.sellers, v)) ==> SalesPass(d, now, tz)([], v, row)
    ensures SalesPass(d, now, tz)(d.sales, v, row) ==> ActivePass(d, now, tz)([], v, row)
    ensures ActivePass(d, now, tz)(d.contacts, v, row) ==> ContactsPass(d, now, tz)([], v, row)
    ensures ContactsPass(d, now, tz)(d.interactions, v, row) ==> row == Upto(Performance(d, now, tz, v), 3)
    ensures row == Upto(Performance(d, now, tz, v), 5) ==> PendingPass(d, now, tz)([], v, row)
    ensures PendingPass(d, now, tz)(d.contacts, v, row) ==> row == Performance(d, now, tz, v)
  {
  }

  /**
   * calculateSalesByVendor: one row per vendor with its whole performance,
   * largest sales amount first, ranked 1, 2, ... in that order. `now` and the
   * zone offset `tz` stand for the clock and the local calendar.
   */
  method SalesByVendor(sales: seq<Sale>, contacts: seq<Contact>, interactions: seq<Interaction>, sellers: seq<Seller>,
                       now: int, tz: int) returns (r: seq<VendorPerformance>)
    ensures sellers == [] ==> r == []
    ensures |r| == |VendorIds(sellers)|
    ensures forall i, j :: 0 <= i < j < |r| ==> r[i].vendorId != r[j].vendorId
    ensures forall v :: v in VendorIds(sellers) ==> exists i :: 0 <= i < |r| && r[i].vendorId == v
    ensures forall i :: 0 <= i < |r| ==>
      (r[i].vendorId in VendorIds(sellers)
       && r[i] == Performance(Books(sales, contacts, interactions, sellers), now, tz, r[i].vendorId).(rank := i + 1))
    ensures SortedDesc(r, SalesAmountOf)
    ensures TiesBy(r, SalesAmountOf, RankIn(VendorIds(sellers), PerformanceId))
    ensures Sum(r, SalesCountOf) == KeyedIn(sales, SaleSeller, VendorIds(sellers))
    ensures Sum(r, SalesAmountOf) == SumKeyedIn(sales, SaleSeller, SaleAmount, VendorIds(sellers))
  {
    if |sellers| == 0 {
      NoKeysNothingKeyed(sales, SaleSeller, SaleAmount);
      return [];
    }
    var d := Books(sales, contacts, interactions, sellers);
    var ids, m := PerformanceMap(d, now, tz);
    KeysOfDistinct(sellers, SellerKey);
    r := RankedBySales(d, now, tz, ids, m);
  }

  /** The vendor map after every pass: each vendor's finished row. */
  method PerformanceMap(d: Books, now: int, tz: int) returns (ids: seq<string>, m: map<string, VendorPerformance>)
    ensures ids == VendorIds(d.sellers)
    ensures forall v :: v in m <==> v in ids
    ensures forall v :: v in m ==> m[v] == Performance(d, now, tz, v)
  {
    ids, m := SeedVendors(d.sellers, ZeroPerformance);
    forall v | v in m ensures SalesPass(d, now, tz)([], v, m[v]) {
      StageHandOver(d, now, tz, v, m[v]);
    }
    SalesSteps(d, now, tz);
    m := ForEachRecord(d.sales, m, SaleSeller, CountSale, SalesPass(d, now, tz));
    forall v | v in m ensures ActivePass(d, now, tz)([], v, m[v]) {
      StageHandOver(d, now, tz, v, m[v]);
    }
    ActiveSteps(d, now, tz);
    m := ForEachRecord(d.contacts, m, ActiveAssignee, CountActive, ActivePass(d, now, tz));
    forall v | v in m ensures ContactsPass(d, now, tz)([], v, m[v]) {
      StageHandOver(d, now, tz, v, m[v]);
    }
    ContactsSteps(d, now, tz);
    m := ForEachRecord(d.interactions, m, InteractionSeller, CountContact, ContactsPass(d, now, tz));
    forall v | v in m ensures m[v] == Upto(Performance(d, now, tz, v), 3) {
      StageHandOver(d, now, tz, v, m[v]);
    }
    m := RateVendors(d, now, tz, m);
    m := ClosingDays(d, now, tz, ids, m);
    forall v | v in m ensures PendingPass(d, now, tz)([], v, m[v]) {
      StageHandOver(d, now, tz, v, m[v]);
    }
    PendingSteps(d, now, tz);
    m := ForEachRecord(d.contacts, m, DueAssignee(now, tz), CountPending, PendingPass(d, now, tz));
    forall v | v in m ensures m[v] == Performance(d, now, tz, v) {
      StageHandOver(d, now, tz, v, m[v]);
    }
  }

  /** `vendorMap.forEach((vendor, vendorId) => ...)`: the conversion rate of each vendor's own contacts. */
  method RateVendors(d: Books, now: int, tz: int, m0: map<string, VendorPerformance>) returns (m: map<string, VendorPerformance>)
    requires AtStage(d, now, tz, m0, 3)
    ensures forall v :: v in m <==> v in m0
    ensures AtStage(d, now, tz, m, 4)
  {
    m := map v | v in m0 :: m0[v].(conversionRate := ConversionRate(Filter(d.contacts, AssignedTo(v)), None));
  }

  /**
   * The closing-days accumulators, kept beside the rows, and then each row's
   * mean cycle.
   */
  method ClosingDays(d: Books, now: int, tz: int, ids: seq<string>, m0: map<string, VendorPerformance>)
    returns (m: map<string, VendorPerformance>)
    requires ids == VendorIds(d.sellers) && forall v :: v in m0 <==> v in ids
    requires AtStage(d, now, tz, m0, 4)
    ensures forall v :: v in m <==> v in m0
    ensures AtStage(d, now, tz, m, 5)
  {
    var ids', acc := SeedVendors(d.sellers, ZeroClosing);
    forall v | v in acc ensures ClosingPass(d.sellers)([], v, acc[v]) {
      ZeroClosingPass(d.sellers, v);
    }
    ClosingSteps(d.sales, d.sellers);
    acc := ForEachRecord(d.sales, acc, CycleSeller, AddCycle, ClosingPass(d.sellers));
    forall v | v in acc ensures MeanDays(acc[v].totalDays, acc[v].count) == Performance(d, now, tz, v).avgClosingDays {
      assert ClosingSums(d.sales, d.sellers, v, acc[v]);
    }
    m := map v | v in m0 :: m0[v].(avgClosingDays := MeanDays(acc[v].totalDays, acc[v].count));
  }

  /** The rows in key order, sorted by sales amount (largest first) and ranked from 1. */
  method RankedBySales(d: Books, now: int, tz: int, ids: seq<string>, m: map<string, VendorPerformance>)
    returns (r: seq<VendorPerformance>)
    requires ids == VendorIds(d.sellers) && Distinct(ids) && forall v :: v in m <==> v in ids
    requires forall v :: v in m ==> m[v] == Performance(d, now, tz, v)
    ensures |r| == |ids|
    ensures forall i, j :: 0 <= i < j < |r| ==> r[i].vendorId != r[j].vendorId
    ensures forall v :: v in ids ==> exists i :: 0 <= i < |r| && r[i].vendorId == v
    ensures forall i :: 0 <= i < |r| ==> r[i].vendorId in ids && r[i] == Performance(d, now, tz, r[i].vendorId).(rank := i + 1)
    ensures SortedDesc(r, SalesAmountOf)
    ensures TiesBy(r, SalesAmountOf, RankIn(ids, PerformanceId))
    ensures Sum(r, SalesCountOf) == KeyedIn(d.sales, SaleSeller, ids)
    ensures Sum(r, SalesAmountOf) == SumKeyedIn(d.sales, SaleSeller, SaleAmount, ids)
  {
    var rows := seq(|ids|, k requires 0 <= k < |ids| => m[ids[k]]);
    var sorted := SortDesc(rows, SalesAmountOf);
    r := seq(|sorted|, i requires 0 <= i < |sorted| => sorted[i].(rank := i + 1));
    SortDescSorted(rows, SalesAmountOf);
    RankedRows(d, now, tz, ids, rows, sorted, r);
    forall k | 0 <= k < |ids| ensures PerformanceId(rows[k]) == ids[k] {
      assert rows[k] == Performance(d, now, tz, ids[k]);
    }
    RankedTies(ids, rows, sorted, r);
  }

  /** Vendors with equal sales amounts are ranked in the order they entered the map. */
  lemma RankedTies(ids: seq<string>, rows: seq<VendorPerformance>, sorted: seq<VendorPerformance>, r: seq<VendorPerformance>)
    requires Distinct(ids) && |rows| == |ids|
    requires forall k :: 0 <= k < |ids| ==> PerformanceId(rows[k]) == ids[k]
    requires sorted == SortDesc(rows, SalesAmountOf)
    requires |r| == |sorted| && forall i :: 0 <= i < |r| ==> r[i] == sorted[i].(rank := i + 1)
    ensures TiesBy(r, SalesAmountOf, RankIn(ids, PerformanceId))
  {
    var rank := RankIn(ids, PerformanceId);
    RankInAscending(ids, rows, PerformanceId);
    SortDescTies(rows, SalesAmountOf, rank);
    forall i, j | 0 <= i < j < |r| && SalesAmountOf(r[i]) == SalesAmountOf(r[j]) ensures rank(r[i]) < rank(r[j]) {
      assert SalesAmountOf(sorted[i]) == SalesAmountOf(sorted[j]);
      assert PerformanceId(r[i]) == PerformanceId(sorted[i]) && PerformanceId(r[j]) == PerformanceId(sorted[j]);
    }
  }

  lemma RankedRows(d: Books, now: int, tz: int, ids: seq<string>, rows: seq<VendorPerformance>,
                   sorted: seq<VendorPerformance>, r: seq<VendorPerformance>)
    requires Distinct(ids) && |rows| == |ids|
    requires forall k :: 0 <= k < |ids| ==> rows[k] == Performance(d, now, tz, ids[k])
    requires multiset(sorted) == multiset(rows) && SortedDesc(sorted, SalesAmountOf)
    requires |r| == |sorted| && forall i :: 0 <= i < |r| ==> r[i] == sorted[i].(rank := i + 1)
    ensures |r| == |ids|
    ensures forall i, j :: 0 <= i < j < |r| ==> r[i].vendorId != r[j].vendorId
    ensures forall v :: v in ids ==> exists i :: 0 <= i < |r| && r[i].vendorId == v
    ensures forall i :: 0 <= i < |r| ==> r[i].vendorId in ids && r[i] == Performance(d, now, tz, r[i].vendorId).(rank := i + 1)
    ensures SortedDesc(r, SalesAmountOf)
    ensures Sum(r, SalesCountOf) == KeyedIn(d.sales, SaleSeller, ids)
    ensures Sum(r, SalesAmountOf) == SumKeyedIn(d.sales, SaleSeller, SaleAmount, ids)
  {
    VendorRows(ids, rows, sorted, PerformanceId, IsPerformance(d, now, tz));
    RanksKeep(d, now, tz, ids, sorted, r);
    SalesTotals(d, now, tz, ids, rows, sorted, r);
  }

  /** Giving the sorted rows their ranks keeps what held of them. */
  lemma RanksKeep(d: Books, now: int, tz: int, ids: seq<string>, sorted: seq<VendorPerformance>, r: seq<VendorPerformance>)
    requires |sorted| == |ids|
    requires forall i, j :: 0 <= i < j < |sorted| ==> sorted[i].vendorId != sorted[j].vendorId
    requires forall i :: 0 <= i < |sorted| ==> sorted[i].vendorId in ids && IsPerformance(d, now, tz)(sorted[i])
    requires forall v :: v in ids ==> exists i :: 0 <= i < |sorted| && sorted[i].vendorId == v
    requires SortedDesc(sorted, SalesAmountOf)
    requires |r| == |sorted| && forall i :: 0 <= i < |r| ==> r[i] == sorted[i].(rank := i + 1)
    ensures |r| == |ids|
    ensures forall i, j :: 0 <= i < j < |r| ==> r[i].vendorId != r[j].vendorId
    ensures forall v :: v in ids ==> exists i :: 0 <= i < |r| && r[i].vendorId == v
    ensures forall i :: 0 <= i < |r| ==> r[i].vendorId in ids && r[i] == Performance(d, now, tz, r[i].vendorId).(rank := i + 1)
    ensures SortedDesc(r, SalesAmountOf)
  {
    forall v | v in ids ensures exists i :: 0 <= i < |r| && r[i].vendorId == v {
      var i :| 0 <= i < |sorted| && sorted[i].vendorId == v;
      assert r[i].vendorId == v;
    }
  }

  function IsPerformance(d: Books, now: int, tz: int): VendorPerformance -> bool {
    (row: VendorPerformance) => row == Performance(d, now, tz, row.vendorId)
  }

  /** The sales counts and amounts of the rows add up to the sales of known vendors. */
  lemma SalesTotals(d: Books, now: int, tz: int, ids: seq<string>, rows: seq<VendorPerformance>,
                    sorted: seq<VendorPerformance>, r: seq<VendorPerformance>)
    requires Distinct(ids) && |rows| == |ids|
    requires forall k :: 0 <= k < |ids| ==> rows[k] == Performance(d, now, tz, ids[k])
    requires multiset(sorted) == multiset(rows)
    requires |r| == |sorted| && forall i :: 0 <= i < |r| ==> r[i] == sorted[i].(rank := i + 1)
    ensures Sum(r, SalesCountOf) == KeyedIn(d.sales, SaleSeller, ids)
    ensures Sum(r, SalesAmountOf) == SumKeyedIn(d.sales, SaleSeller, SaleAmount, ids)
  {
    SumOfRows(d.sales, SaleSeller, ids, rows, SalesCountOf);
    CountOverKeyedIn(d.sales, SaleSeller, ids);
    SumOfRowTotals(d.sales, SaleSeller, SaleAmount, ids, rows, SalesAmountOf);
    SumOverKeyedIn(d.sales, SaleSeller, SaleAmount, ids);
    SumPermutation(rows, sorted, SalesCountOf);
    SumPermutation(rows, sorted, SalesAmountOf);
    SameFieldSum(sorted, r, SalesCountOf);
    SameFieldSum(sorted, r, SalesAmountOf);
  }

  /** Sequences that agree on `f` position by position have the same sum of `f`. */
  lemma {:induction false} SameFieldSum<R>(a: seq<R>, b: seq<R>, f: R -> int)
    requires |a| == |b| && forall i :: 0 <= i < |a| ==> f(a[i]) == f(b[i])
    ensures Sum(a, f) == Sum(b, f)
  {
    if a != [] {
      SameFieldSum(a[1..], b[1..], f);
    }
  }
}
