/**
 * The enums and record shapes of the dashboard (types.ts), with time as integer
 * milliseconds since the epoch and the viewer's local calendar given by a fixed
 * offset from UTC.
 */
module Types {
  import opened Common

  datatype LeadStatus = New | Contacted | Interested | ClosedWon | ClosedLost

  /** The string value each `LeadStatus` member carries. */
  function LeadStatusValue(s: LeadStatus): string {
    match s
    case New => "Nuevo"
    case Contacted => "Contactado"
    case Interested => "Interesado"
    case ClosedWon => "Venta Cerrada"
    case ClosedLost => "Venta Perdida"
  }

  /** NEW, CONTACTED and INTERESTED: the statuses of a lead still in the pipeline. */
  predicate IsActive(s: LeadStatus) {
    s == New || s == Contacted || s == Interested
  }

  predicate IsClosed(s: LeadStatus) {
    s == ClosedWon || s == ClosedLost
  }

  datatype InteractionType = Call | WhatsApp | Email | SystemIo | Form | ManyChat | OtherChannel

  function InteractionTypeValue(t: InteractionType): (r: string)
    ensures r != ""
  {
    match t
    case Call => "Llamada"
    case WhatsApp => "WhatsApp"
    case Email => "Email"
    case SystemIo => "System.io"
    case Form => "Formulario Web"
    case ManyChat => "ManyChat"
    case OtherChannel => "Otro"
  }

  datatype LostReason = Expensive | NotInterested | NoAnswer | Competition | Timing | OtherReason

  function LostReasonValue(r: LostReason): (v: string)
    ensures v != ""
  {
    match r
    case Expensive => "Muy caro"
    case NotInterested => "No interesado"
    case NoAnswer => "No contesta"
    case Competition => "Competencia"
    case Timing => "Mal momento"
    case OtherReason => "Otro"
  }

  datatype AttemptStatus = Successful | Failed | Abandoned

  function AttemptStatusValue(s: AttemptStatus): (v: string)
    ensures v != ""
  {
    match s
    case Successful => "Exitoso"
    case Failed => "Fallido"
    case Abandoned => "Abandonado"
  }

  /** Failed and abandoned attempts are the ones a seller can still recover. */
  predicate IsRecoverable(s: AttemptStatus) {
    s == Failed || s == Abandoned
  }

  /**
   * A date-bearing field: absent or empty (falsy), present but not a date
   * (`new Date(s)` is NaN), or a parsed instant in milliseconds.
   */
  datatype Stamp = Missing | Unparseable | At(ms: int)

  datatype Seller = Seller(id: string, name: string)

  datatype Contact = Contact(
    id: string,
    name: string,
    country: string,
    createdAt: Stamp,
    status: LeadStatus,
    lostReason: Option<LostReason>,
    assignedSellerId: string,
    estimatedValue: int,        // 0 when absent
    nextContactDate: Stamp,
    leadSource: string,         // "" when absent
    lostReasonDetail: string)   // "" when absent

  datatype Interaction = Interaction(
    id: string,
    contactId: string,
    sellerId: string,
    kind: InteractionType,
    date: Stamp,
    result: string)             // "" when absent

  datatype Sale = Sale(
    id: string,
    contactId: string,
    sellerId: string,
    productName: string,
    amount: int,
    date: Stamp,
    salesCycleDays: int,        // 0 when absent
    discountApplied: int)       // 0 when absent

  datatype PurchaseAttempt = PurchaseAttempt(
    id: string,
    contactId: string,
    amount: int,
    status: AttemptStatus,
    date: Stamp,
    recoverySellerId: string)   // "" when absent

  /** A selected period, inclusive at both ends, in milliseconds. */
  datatype DateRange = DateRange(start: int, end: int)

  const DayMs: int := 86400000

  /** The local calendar day of an instant, for a zone `tz` milliseconds ahead of UTC. */
  function DayOf(ms: int, tz: int): int {
    (ms + tz) / DayMs
  }

  /** Local midnight of the day of `now` (`setHours(0, 0, 0, 0)`). */
  function DayStart(now: int, tz: int): int {
    DayOf(now, tz) * DayMs - tz
  }

  /** The last millisecond of that day (`setHours(23, 59, 59, 999)`). */
  function DayEnd(now: int, tz: int): int {
    DayStart(now, tz) + DayMs - 1
  }

  /** The millisecond window of a local day is exactly that calendar day. */
  lemma DayWindow(t: int, now: int, tz: int)
    ensures DayStart(now, tz) <= t <= DayEnd(now, tz) <==> DayOf(t, tz) == DayOf(now, tz)
    ensures t < DayStart(now, tz) <==> DayOf(t, tz) < DayOf(now, tz)
  {
    var d := DayOf(now, tz);
    var e := DayOf(t, tz);
    assert d * DayMs <= now + tz < d * DayMs + DayMs;
    assert e * DayMs <= t + tz < e * DayMs + DayMs;
    if e < d {
      MulLe(DayMs, e + 1, d);
    }
    if e > d {
      MulLe(DayMs, d + 1, e);
    }
  }

  /** An instant is at most the last millisecond of a local day exactly when its day is not later. */
  lemma UpToDayEnd(t: int, now: int, tz: int)
    ensures t <= DayEnd(now, tz) <==> DayOf(t, tz) <= DayOf(now, tz)
  {
    var d := DayOf(now, tz);
    var e := DayOf(t, tz);
    assert e * DayMs <= t + tz < e * DayMs + DayMs;
    if e > d {
      MulLe(DayMs, d + 1, e);
    }
    if e <= d {
      MulLe(DayMs, e, d);
    }
  }

  /** The instant of the stamp parses and lies in [start, end] by milliseconds. */
  predicate WithinMs(t: Stamp, start: int, end: int) {
    t.At? && start <= t.ms <= end
  }

  /** Records dated inside [start, end], by the date each kind of record carries. */
  function ContactWithin(start: int, end: int): Contact -> bool {
    (c: Contact) => WithinMs(c.createdAt, start, end)
  }

  function InteractionWithin(start: int, end: int): Interaction -> bool {
    (i: Interaction) => WithinMs(i.date, start, end)
  }

  function SaleWithin(start: int, end: int): Sale -> bool {
    (s: Sale) => WithinMs(s.date, start, end)
  }

  function AttemptWithin(start: int, end: int): PurchaseAttempt -> bool {
    (a: PurchaseAttempt) => WithinMs(a.date, start, end)
  }
}
