/**
 * The dashboard's KPI counters, revenue breakdowns, distributions and recovery
 * figures (services/metricsCalculator.ts). Percentages are the JavaScript
 * `Math.round((c / t) * 100)` of an integer ratio, `RoundDiv(100 * c, t)`; the
 * local calendar of the viewer is the fixed offset `tz` of Types, and "now" is
 * a parameter.
 */
module Metrics {
  import opened Common
  import opened Types
  import opened Grouping

  // ---------------------------------------------------------------------------
  // Record accessors passed to filters, sums and groupings
  // ---------------------------------------------------------------------------

  function HasStatus(s: LeadStatus): Contact -> bool {
    (c: Contact) => c.status == s
  }

  predicate InPipeline(c: Contact) {
    IsActive(c.status)
  }

  function StatusKey(c: Contact): Option<LeadStatus> {
    Some(c.status)
  }

  function SaleAmount(s: Sale): int {
    s.amount
  }

  function EstimatedValue(c: Contact): int {
    c.estimatedValue
  }

  function AttemptAmount(a: PurchaseAttempt): int {
    a.amount
  }

  // ---------------------------------------------------------------------------
  // KPI counters
  // ---------------------------------------------------------------------------

  /** calculateTotalLeadsInPipeline: contacts that are NEW, CONTACTED or INTERESTED. */
  function TotalLeadsInPipeline(contacts: seq<Contact>): (n: nat)
    ensures n <= |contacts|
  {
    Count(contacts, InPipeline)
  }

  /**
   * The pipeline is exactly the three open statuses, and with the won and the
   * lost contacts it accounts for every contact once.
   */
  lemma {:induction false} StatusPartition(contacts: seq<Contact>)
    ensures TotalLeadsInPipeline(contacts)
         == Count(contacts, HasStatus(New)) + Count(contacts, HasStatus(Contacted))
            + Count(contacts, HasStatus(Interested))
    ensures TotalLeadsInPipeline(contacts) + Count(contacts, HasStatus(ClosedWon))
            + Count(contacts, HasStatus(ClosedLost)) == |contacts|
  {
    if contacts != [] {
      StatusPartition(contacts[1..]);
    }
  }

  /** A NEW contact created within the local day of `now`. */
  function CreatedToday(now: int, tz: int): Contact -> bool {
    (c: Contact) => c.status == New && WithinMs(c.createdAt, DayStart(now, tz), DayEnd(now, tz))
  }

  /**
   * calculateNewLeadsToday: with a selected range every NEW contact counts (the
   * contacts are taken as already filtered); without one, only those created today.
   */
  function NewLeadsToday(contacts: seq<Contact>, range: Option<DateRange>, now: int, tz: int): (n: nat)
    ensures n <= Count(contacts, HasStatus(New))
    ensures range.Some? ==> n == Count(contacts, HasStatus(New))
    ensures range.None? ==> n == Count(contacts, NewOnLocalDay(now, tz))
  {
    if range.Some? then Count(contacts, HasStatus(New))
    else
      CountMono(contacts, CreatedToday(now, tz), HasStatus(New));
      forall c | c in contacts ensures CreatedToday(now, tz)(c) == NewOnLocalDay(now, tz)(c) {
        CreatedTodayIsLocalDay(c, now, tz);
      }
      CountSame(contacts, CreatedToday(now, tz), NewOnLocalDay(now, tz));
      Count(contacts, CreatedToday(now, tz))
  }

  /** A NEW contact whose creation date falls on the local calendar day of `now`. */
  function NewOnLocalDay(now: int, tz: int): Contact -> bool {
    (c: Contact) => c.status == New && c.createdAt.At? && DayOf(c.createdAt.ms, tz) == DayOf(now, tz)
  }

  /** "Created today" is "created on the local calendar day of `now`". */
  lemma CreatedTodayIsLocalDay(c: Contact, now: int, tz: int)
    ensures CreatedToday(now, tz)(c)
        <==> c.status == New && c.createdAt.At? && DayOf(c.createdAt.ms, tz) == DayOf(now, tz)
  {
    if c.createdAt.At? {
      DayWindow(c.createdAt.ms, now, tz);
    }
  }

  /**
   * isDateInLocalRange: the date parses and its local calendar day lies between
   * the days of `localStart` and `localEnd`, whatever the time of day.
   */
  predicate IsDateInLocalRange(d: Stamp, localStart: int, localEnd: int, tz: int): (b: bool)
    ensures b <==> d.At? && DayStart(localStart, tz) <= d.ms <= DayEnd(localEnd, tz)
  {
    if d.At? then
      DayWindow(d.ms, localStart, tz);
      UpToDayEnd(d.ms, localEnd, tz);
      DayOf(localStart, tz) <= DayOf(d.ms, tz) <= DayOf(localEnd, tz)
    else false
  }

  lemma DayOfMono(a: int, b: int, tz: int)
    requires a <= b
    ensures DayOf(a, tz) <= DayOf(b, tz)
  {
    var p, q := DayOf(a, tz), DayOf(b, tz);
    assert p * DayMs <= a + tz && b + tz < q * DayMs + DayMs;
    if p > q {
      MulLe(DayMs, q + 1, p);
    }
  }

  /** The calendar-day test accepts every instant of the millisecond window. */
  lemma LocalRangeCoversWindow(d: Stamp, localStart: int, localEnd: int, tz: int)
    requires WithinMs(d, localStart, localEnd)
    ensures IsDateInLocalRange(d, localStart, localEnd, tz)
  {
    DayOfMono(localStart, d.ms, tz);
    DayOfMono(d.ms, localEnd, tz);
  }

  datatype SalesTotal = SalesTotal(count: nat, totalAmount: int)

  function InLocalRange(localStart: int, localEnd: int, tz: int): Sale -> bool {
    (s: Sale) => IsDateInLocalRange(s.date, localStart, localEnd, tz)
  }

  /**
   * calculateMonthlySales: with a selected range, every sale; otherwise the sales
   * dated on a local day of the current month, which runs from `monthStart` to
   * `monthEnd`.
   */
  function MonthlySales(sales: seq<Sale>, range: Option<DateRange>, monthStart: int, monthEnd: int, tz: int): (r: SalesTotal)
    ensures r.count <= |sales|
    ensures range.Some? ==> r == SalesTotal(|sales|, Sum(sales, SaleAmount))
    ensures range.None? ==> r.count == Count(sales, InLocalRange(monthStart, monthEnd, tz))
    ensures range.None? ==> r.totalAmount == Sum(Filter(sales, InLocalRange(monthStart, monthEnd, tz)), SaleAmount)
  {
    if range.Some? then SalesTotal(|sales|, Sum(sales, SaleAmount))
    else
      var inMonth := Filter(sales, InLocalRange(monthStart, monthEnd, tz));
      SalesTotal(|inMonth|, Sum(inMonth, SaleAmount))
  }

  /** Without a range, every sale inside the month by milliseconds is counted. */
  lemma MonthlySalesCoversMonth(sales: seq<Sale>, monthStart: int, monthEnd: int, tz: int)
    ensures Count(sales, SaleWithin(monthStart, monthEnd)) <= MonthlySales(sales, None, monthStart, monthEnd, tz).count
  {
    forall s | s in sales && SaleWithin(monthStart, monthEnd)(s)
      ensures InLocalRange(monthStart, monthEnd, tz)(s)
    {
      LocalRangeCoversWindow(s.date, monthStart, monthEnd, tz);
    }
    CountMono(sales, SaleWithin(monthStart, monthEnd), InLocalRange(monthStart, monthEnd, tz));
  }

  /**
   * calculateConversionRate: won over won plus lost, rounded to a whole
   * percentage; the range argument takes no part.
   */
  function ConversionRate(contacts: seq<Contact>, range: Option<DateRange>): (r: int)
    ensures 0 <= r <= 100
    ensures Count(contacts, HasStatus(ClosedWon)) == 0 ==> r == 0
    ensures Count(contacts, HasStatus(ClosedWon)) > 0 && Count(contacts, HasStatus(ClosedLost)) == 0 ==> r == 100
  {
    var won := Count(contacts, HasStatus(ClosedWon));
    var lost := Count(contacts, HasStatus(ClosedLost));
    Percent(won, won + lost)
  }

  /** The conversion rate depends on the contacts only through their won and lost counts. */
  lemma ConversionRateOfCounts(contacts: seq<Contact>, range: Option<DateRange>, won: nat, lost: nat)
    requires won == Count(contacts, HasStatus(ClosedWon)) && lost == Count(contacts, HasStatus(ClosedLost))
    ensures ConversionRate(contacts, range) == Percent(won, won + lost)
  {
  }

  /** An open contact whose next contact falls within the local day of `now`. */
  function DueToday(now: int, tz: int): Contact -> bool {
    (c: Contact) =>
      !IsClosed(c.status) && !c.nextContactDate.Missing?
      && WithinMs(c.nextContactDate, DayStart(now, tz), DayEnd(now, tz))
  }

  /** calculateUrgentFollowUps: open contacts due today; never more than the pipeline. */
  function UrgentFollowUps(contacts: seq<Contact>, now: int, tz: int): (n: nat)
    ensures n <= TotalLeadsInPipeline(contacts)
    ensures n == Count(contacts, DueOnLocalDay(now, tz))
  {
    CountMono(contacts, DueToday(now, tz), InPipeline);
    forall c | c in contacts ensures DueToday(now, tz)(c) == DueOnLocalDay(now, tz)(c) {
      DueTodayIsLocalDay(c, now, tz);
    }
    CountSame(contacts, DueToday(now, tz), DueOnLocalDay(now, tz));
    Count(contacts, DueToday(now, tz))
  }

  /** An open contact whose next contact date falls on the local calendar day of `now`. */
  function DueOnLocalDay(now: int, tz: int): Contact -> bool {
    (c: Contact) => IsActive(c.status) && c.nextContactDate.At? && DayOf(c.nextContactDate.ms, tz) == DayOf(now, tz)
  }

  /** "Due today" is "open and due on the local calendar day of `now`"; unparseable dates never are. */
  lemma DueTodayIsLocalDay(c: Contact, now: int, tz: int)
    ensures DueToday(now, tz)(c)
        <==> IsActive(c.status) && c.nextContactDate.At? && DayOf(c.nextContactDate.ms, tz) == DayOf(now, tz)
  {
    if c.nextContactDate.At? {
      DayWindow(c.nextContactDate.ms, now, tz);
    }
  }

  /** calculatePipelineValue: the estimated values of the open contacts. */
  function PipelineValue(contacts: seq<Contact>): (v: int)
    ensures forall c :: c in contacts && IsActive(c.status) ==> c in Filter(contacts, InPipeline)
    ensures v == Sum(Filter(contacts, InPipeline), EstimatedValue)
  {
    Sum(Filter(contacts, InPipeline), EstimatedValue)
  }

  /** With no negative estimate the pipeline value is not negative. */
  lemma PipelineValueNonNegative(contacts: seq<Contact>)
    requires forall c :: c in contacts ==> c.estimatedValue >= 0
    ensures PipelineValue(contacts) >= 0
  {
    SumAtLeast(Filter(contacts, InPipeline), EstimatedValue, 0);
  }

  /** A closed contact adds nothing to the pipeline value; an open one adds its estimate. */
  lemma PipelineValueSnoc(contacts: seq<Contact>, c: Contact)
    ensures PipelineValue(contacts + [c])
         == PipelineValue(contacts) + (if IsActive(c.status) then c.estimatedValue else 0)
  {
    FilterAppend(contacts, [c], InPipeline);
    assert [c][1..] == [];
    SumAppend(Filter(contacts, InPipeline), Filter([c], InPipeline), EstimatedValue);
  }

  // ---------------------------------------------------------------------------
  // Funnel
  // ---------------------------------------------------------------------------

  datatype FunnelStep = FunnelStep(status: string, count: nat, percentage: int)

  const FunnelOrder: seq<LeadStatus> := [New, Contacted, Interested, ClosedWon, ClosedLost]

  function FunnelLabel(s: LeadStatus): string {
    match s
    case New => "Lead Nuevo"
    case Contacted => "En Seguimiento"
    case Interested => "Interesado"
    case ClosedWon => "Venta Cerrada"
    case ClosedLost => "Venta Perdida"
  }

  function StepCount(f: FunnelStep): int {
    f.count
  }

  /**
   * calculateFunnelByStatus: five steps in funnel order with fixed labels, each
   * counting its status, as a share of all contacts; the counts cover every
   * contact once.
   */
  method FunnelByStatus(contacts: seq<Contact>) returns (r: seq<FunnelStep>)
    ensures |r| == 5
    ensures forall i :: 0 <= i < 5 ==>
      r[i].status == FunnelLabel(FunnelOrder[i])
      && r[i].count == Count(contacts, HasStatus(FunnelOrder[i]))
      && r[i].percentage == Percent(r[i].count, |contacts|)
    ensures contacts == [] ==> forall i :: 0 <= i < 5 ==> r[i].count == 0 && r[i].percentage == 0
    ensures Sum(r, StepCount) == |contacts|
  {
    if |contacts| == 0 {
      r := seq(5, i requires 0 <= i < 5 => FunnelStep(FunnelLabel(FunnelOrder[i]), 0, 0));
      SumAtLeast(r, StepCount, 0);
      SumAtMost(r, StepCount, 0);
      return;
    }
    var _, counts := Tally(contacts, StatusKey, NoAmount);
    r := seq(5, i requires 0 <= i < 5 =>
      var n := BucketAt(counts, FunnelOrder[i]).count;
      FunnelStep(FunnelLabel(FunnelOrder[i]), n, Percent(n, |contacts|)));
    FunnelCounts(contacts);
    FunnelCovers(contacts);
    SumOfRows(contacts, StatusKey, FunnelOrder, r, StepCount);
  }

  /** Each funnel status's count is its filter's length. */
  lemma FunnelCounts(contacts: seq<Contact>)
    ensures forall i :: 0 <= i < 5 ==>
      CountFor(contacts, StatusKey, FunnelOrder[i]) == Count(contacts, HasStatus(FunnelOrder[i]))
  {
    forall i | 0 <= i < 5
      ensures CountFor(contacts, StatusKey, FunnelOrder[i]) == Count(contacts, HasStatus(FunnelOrder[i]))
    {
      CountForIsCount(contacts, StatusKey, FunnelOrder[i], HasStatus(FunnelOrder[i]));
    }
  }

  /** The five funnel statuses cover every contact once. */
  lemma FunnelCovers(contacts: seq<Contact>)
    ensures CountOver(contacts, StatusKey, FunnelOrder) == |contacts|
  {
    assert Distinct(FunnelOrder);
    forall v | CountFor(contacts, StatusKey, v) > 0 ensures v in FunnelOrder {
      assert v == New || v == Contacted || v == Interested || v == ClosedWon || v == ClosedLost;
    }
    CountOverKeyedIn(contacts, StatusKey, FunnelOrder);
    KeyedInAll(contacts, StatusKey, FunnelOrder);
    KeyedTotal(contacts, StatusKey);
  }

  // ---------------------------------------------------------------------------
  // Revenue
  // ---------------------------------------------------------------------------

  /** A share of a whole in whole per cent, 0 when the whole is not positive. */
  function Share(part: int, whole: int): (r: int)
    ensures whole <= 0 ==> r == 0
    ensures whole > 0 && 0 <= part <= whole ==> 0 <= r <= 100
  {
    if whole > 0 then
      if 0 <= part <= whole then PercentBounds(part, whole); RoundDiv(100 * part, whole)
      else RoundDiv(100 * part, whole)
    else 0
  }

  datatype ProductRevenue = ProductRevenue(productName: string, quantity: nat, revenue: int, percentage: int)

  function ProductKey(s: Sale): Option<string> {
    Some(s.productName)
  }

  function ProductName(p: ProductRevenue): string {
    p.productName
  }

  function Quantity(p: ProductRevenue): int {
    p.quantity
  }

  function Revenue(p: ProductRevenue): int {
    p.revenue
  }

  /**
   * calculateRevenueByProduct: one row per distinct product name with its number
   * of sales and their amounts, the percentage taken of the revenue of all sales,
   * largest revenue first.
   */
  method RevenueByProduct(sales: seq<Sale>) returns (r: seq<ProductRevenue>)
    ensures sales == [] ==> r == []
    ensures forall i, j :: 0 <= i < j < |r| ==> r[i].productName != r[j].productName
    ensures forall j :: 0 <= j < |sales| ==> exists i :: 0 <= i < |r| && r[i].productName == sales[j].productName
    ensures forall i :: 0 <= i < |r| ==>
      r[i].quantity == CountFor(sales, ProductKey, r[i].productName) > 0
      && r[i].revenue == SumFor(sales, ProductKey, SaleAmount, r[i].productName)
      && r[i].percentage == Share(r[i].revenue, Sum(sales, SaleAmount))
    ensures Sum(r, Quantity) == |sales|
    ensures SortedDesc(r, Revenue)
    ensures TiesBy(r, Revenue, RankIn(KeysOf(sales, ProductKey), ProductName))
  {
    if |sales| == 0 {
      return [];
    }
    var keys, m := Tally(sales, ProductKey, SaleAmount);
    var totalRevenue := ValuesTotal(m, keys);
    TallyTotal(m, sales, ProductKey, SaleAmount);
    var rows := seq(|keys|, i requires 0 <= i < |keys| =>
      var b := BucketAt(m, keys[i]);
      ProductRevenue(keys[i], b.count, b.total, Share(b.total, totalRevenue)));
    r := SortDesc(rows, Revenue);
    ProductRowsSorted(sales, rows, r);
    ProductTies(sales, rows);
  }

  /** Products with equal revenue keep the order of their first sale, as the `Map` did. */
  lemma ProductTies(sales: seq<Sale>, rows: seq<ProductRevenue>)
    requires |rows| == |KeysOf(sales, ProductKey)|
    requires forall i :: 0 <= i < |rows| ==> rows[i] == ProductRow(sales, KeysOf(sales, ProductKey)[i])
    ensures TiesBy(SortDesc(rows, Revenue), Revenue, RankIn(KeysOf(sales, ProductKey), ProductName))
  {
    var keys := KeysOf(sales, ProductKey);
    KeysOfDistinct(sales, ProductKey);
    RankInAscending(keys, rows, ProductName);
    SortDescTies(rows, Revenue, RankIn(keys, ProductName));
  }

  /** The row of one product: its sales, their amounts and its share of all revenue. */
  function ProductRow(sales: seq<Sale>, name: string): (p: ProductRevenue)
    ensures p.productName == name && ProductTotals(sales)(p)
  {
    var total := SumFor(sales, ProductKey, SaleAmount, name);
    ProductRevenue(name, CountFor(sales, ProductKey, name), total, Share(total, Sum(sales, SaleAmount)))
  }

  /** The product rows, one per product in order of first sale, once sorted. */
  lemma ProductRowsSorted(sales: seq<Sale>, rows: seq<ProductRevenue>, r: seq<ProductRevenue>)
    requires |rows| == |KeysOf(sales, ProductKey)|
    requires forall i :: 0 <= i < |rows| ==> rows[i] == ProductRow(sales, KeysOf(sales, ProductKey)[i])
    requires r == SortDesc(rows, Revenue)
    ensures forall i, j :: 0 <= i < j < |r| ==> r[i].productName != r[j].productName
    ensures forall j :: 0 <= j < |sales| ==> exists i :: 0 <= i < |r| && r[i].productName == sales[j].productName
    ensures forall i :: 0 <= i < |r| ==>
      r[i].quantity == CountFor(sales, ProductKey, r[i].productName) > 0
      && r[i].revenue == SumFor(sales, ProductKey, SaleAmount, r[i].productName)
      && r[i].percentage == Share(r[i].revenue, Sum(sales, SaleAmount))
    ensures Sum(r, Quantity) == |sales|
    ensures SortedDesc(r, Revenue)
  {
    SortDescSorted(rows, Revenue);
    GroupedRows(sales, ProductKey, KeysOf(sales, ProductKey), rows, r, ProductName, Quantity);
    KeyedTotal(sales, ProductKey);
    PermutationKeeps(rows, r, ProductTotals(sales));
  }

  function ProductTotals(sales: seq<Sale>): ProductRevenue -> bool {
    (p: ProductRevenue) =>
      p.revenue == SumFor(sales, ProductKey, SaleAmount, p.productName)
      && p.percentage == Share(p.revenue, Sum(sales, SaleAmount))
  }

  /** The product categories of calculateRevenueByCategory. */
  datatype Category = Premier | Digital | Membership | Others

  function CategoryLabel(c: Category): string {
    match c
    case Premier => "Premier"
    case Digital => "Digital"
    case Membership => "Membresía"
    case Others => "Otros"
  }

  /** The label of some category. */
  predicate IsCategoryLabel(v: string) {
    v == CategoryLabel(Premier) || v == CategoryLabel(Digital)
    || v == CategoryLabel(Membership) || v == CategoryLabel(Others)
  }

  predicate PremierName(n: string) {
    Contains(n, "premier") || Contains(n, "premium") || Contains(n, "vip")
  }

  predicate DigitalName(n: string) {
    Contains(n, "digital") || Contains(n, "curso") || Contains(n, "ebook")
  }

  predicate MembershipName(n: string) {
    Contains(n, "membresía") || Contains(n, "membresia") || Contains(n, "suscripción") || Contains(n, "suscripcion")
  }

  /**
   * inferCategory: keyword rules over the lower-cased product name, the first
   * rule that matches deciding.
   */
  function InferCategory(productName: string): (c: Category)
    ensures var n := Lower(productName);
      (c == Premier <==> PremierName(n))
      && (c == Digital <==> !PremierName(n) && DigitalName(n))
      && (c == Membership <==> !PremierName(n) && !DigitalName(n) && MembershipName(n))
  {
    var n := Lower(productName);
    if PremierName(n) then Premier
    else if DigitalName(n) then Digital
    else if MembershipName(n) then Membership
    else Others
  }

  lemma MembresiaNotPremier(s: string)
    requires s == "membresía digital"
    ensures !PremierName(s)
  {
    Lacks(s, "premier", 'p');
    Lacks(s, "premium", 'p');
    Lacks(s, "vip", 'v');
  }

  lemma MembresiaDigital(s: string)
    requires s == "membresía digital"
    ensures DigitalName(s)
  {
    ContainsAt(s, 10, "digital");
  }

  /** A name matching two rules takes the earlier one: a digital membership is digital. */
  lemma InferCategoryFirstRuleWins(raw: string)
    requires raw == "Membresía Digital"
    ensures InferCategory(raw) == Digital
  {
    var s := "membresía digital";
    LowerIs(raw, s);
    MembresiaNotPremier(s);
    MembresiaDigital(s);
  }

  datatype CategoryRevenue = CategoryRevenue(category: string, revenue: int, percentage: int, count: nat)

  function CategoryKey(s: Sale): Option<string> {
    Some(CategoryLabel(InferCategory(s.productName)))
  }

  function CategoryName(c: CategoryRevenue): string {
    c.category
  }

  function CategoryCount(c: CategoryRevenue): int {
    c.count
  }

  function CategoryTotal(c: CategoryRevenue): int {
    c.revenue
  }

  /**
   * calculateRevenueByCategory: one row per category that occurs, with its
   * revenue, its share of all revenue and its number of sales, largest revenue
   * first.
   */
  method RevenueByCategory(sales: seq<Sale>) returns (r: seq<CategoryRevenue>)
    ensures sales == [] ==> r == []
    ensures |r| <= 4
    ensures forall i, j :: 0 <= i < j < |r| ==> r[i].category != r[j].category
    ensures forall i :: 0 <= i < |r| ==> IsCategoryLabel(r[i].category)
    ensures forall i :: 0 <= i < |r| ==>
      r[i].count == CountFor(sales, CategoryKey, r[i].category) > 0
      && r[i].revenue == SumFor(sales, CategoryKey, SaleAmount, r[i].category)
      && r[i].percentage == Share(r[i].revenue, Sum(sales, SaleAmount))
    ensures Sum(r, CategoryCount) == |sales|
    ensures Sum(r, CategoryTotal) == Sum(sales, SaleAmount)
    ensures SortedDesc(r, CategoryTotal)
    ensures TiesBy(r, CategoryTotal, RankIn(KeysOf(sales, CategoryKey), CategoryName))
  {
    if |sales| == 0 {
      return [];
    }
    var keys, m := Tally(sales, CategoryKey, SaleAmount);
    var totalRevenue := ValuesTotal(m, keys);
    TallyTotal(m, sales, CategoryKey, SaleAmount);
    var rows := seq(|keys|, i requires 0 <= i < |keys| =>
      var b := BucketAt(m, keys[i]);
      CategoryRevenue(keys[i], b.total, Share(b.total, totalRevenue), b.count));
    r := SortDesc(rows, CategoryTotal);
    CategoryRowsSorted(sales, rows, r);
    CategoryRows(sales, r);
    CategoryTies(sales, rows);
  }

  /** Categories with equal revenue keep the order of their first sale, as the `Map` did. */
  lemma CategoryTies(sales: seq<Sale>, rows: seq<CategoryRevenue>)
    requires |rows| == |KeysOf(sales, CategoryKey)|
    requires forall i :: 0 <= i < |rows| ==> rows[i] == CategoryRow(sales, KeysOf(sales, CategoryKey)[i])
    ensures TiesBy(SortDesc(rows, CategoryTotal), CategoryTotal, RankIn(KeysOf(sales, CategoryKey), CategoryName))
  {
    var keys := KeysOf(sales, CategoryKey);
    KeysOfDistinct(sales, CategoryKey);
    RankInAscending(keys, rows, CategoryName);
    SortDescTies(rows, CategoryTotal, RankIn(keys, CategoryName));
  }

  /** The row of one category: its revenue, its share of all revenue and its sales. */
  function CategoryRow(sales: seq<Sale>, category: string): (c: CategoryRevenue)
    ensures c.category == category && CategoryTotals(sales)(c)
  {
    var total := SumFor(sales, CategoryKey, SaleAmount, category);
    CategoryRevenue(category, total, Share(total, Sum(sales, SaleAmount)), CountFor(sales, CategoryKey, category))
  }

  /** The category rows, one per category in order of first sale, once sorted. */
  lemma CategoryRowsSorted(sales: seq<Sale>, rows: seq<CategoryRevenue>, r: seq<CategoryRevenue>)
    requires |rows| == |KeysOf(sales, CategoryKey)|
    requires forall i :: 0 <= i < |rows| ==> rows[i] == CategoryRow(sales, KeysOf(sales, CategoryKey)[i])
    requires r == SortDesc(rows, CategoryTotal)
    ensures forall i, j :: 0 <= i < j < |r| ==> r[i].category != r[j].category
    ensures forall i :: 0 <= i < |r| ==>
      r[i].count == CountFor(sales, CategoryKey, r[i].category) > 0
      && r[i].revenue == SumFor(sales, CategoryKey, SaleAmount, r[i].category)
      && r[i].percentage == Share(r[i].revenue, Sum(sales, SaleAmount))
    ensures Sum(r, CategoryCount) == |sales|
    ensures Sum(r, CategoryTotal) == Sum(sales, SaleAmount)
    ensures SortedDesc(r, CategoryTotal)
  {
    SortDescSorted(rows, CategoryTotal);
    GroupedRows(sales, CategoryKey, KeysOf(sales, CategoryKey), rows, r, CategoryName, CategoryCount);
    KeyedTotal(sales, CategoryKey);
    GroupedTotals(sales, CategoryKey, SaleAmount, KeysOf(sales, CategoryKey), rows, r, CategoryTotal);
    PermutationKeeps(rows, r, CategoryTotals(sales));
  }

  /** Rows keyed by occurring categories are labelled by categories, at most four of them. */
  lemma CategoryRows(sales: seq<Sale>, r: seq<CategoryRevenue>)
    requires forall i, j :: 0 <= i < j < |r| ==> r[i].category != r[j].category
    requires forall i :: 0 <= i < |r| ==> CountFor(sales, CategoryKey, r[i].category) > 0
    ensures forall i :: 0 <= i < |r| ==> IsCategoryLabel(r[i].category)
    ensures |r| <= 4
  {
    forall i | 0 <= i < |r| ensures IsCategoryLabel(r[i].category) {
      CategoryOfKey(sales, r[i].category);
    }
    CategoriesAtMostFour(sales, r);
  }

  function CategoryTotals(sales: seq<Sale>): CategoryRevenue -> bool {
    (c: CategoryRevenue) =>
      c.revenue == SumFor(sales, CategoryKey, SaleAmount, c.category)
      && c.percentage == Share(c.revenue, Sum(sales, SaleAmount))
  }

  /** A category key that occurs is the label of some category. */
  lemma {:induction false} CategoryOfKey(sales: seq<Sale>, v: string)
    requires CountFor(sales, CategoryKey, v) > 0
    ensures IsCategoryLabel(v)
  {
    var init := sales[..|sales| - 1];
    if CountFor(init, CategoryKey, v) > 0 {
      CategoryOfKey(init, v);
    } else {
      assert v == CategoryLabel(InferCategory(sales[|sales| - 1].productName));
    }
  }

  lemma CategoriesAtMostFour(sales: seq<Sale>, r: seq<CategoryRevenue>)
    requires forall i, j :: 0 <= i < j < |r| ==> r[i].category != r[j].category
    requires forall i :: 0 <= i < |r| ==> IsCategoryLabel(r[i].category)
    ensures |r| <= 4
  {
    var labels := set i | 0 <= i < |r| :: r[i].category;
    var all := {CategoryLabel(Premier), CategoryLabel(Digital), CategoryLabel(Membership), CategoryLabel(Others)};
    assert labels <= all;
    assert |all| <= 4;
    SubsetCard(labels, all);
    InjectiveCard(r);
  }

  lemma SubsetCard(a: set<string>, b: set<string>)
    requires a <= b
    ensures |a| <= |b|
  {
    if a != {} {
      var x :| x in a;
      SubsetCard(a - {x}, b - {x});
    }
  }

  lemma {:induction false} InjectiveCard(r: seq<CategoryRevenue>)
    requires forall i, j :: 0 <= i < j < |r| ==> r[i].category != r[j].category
    ensures |set i | 0 <= i < |r| :: r[i].category| == |r|
  {
    if r != [] {
      var init := r[..|r| - 1];
      InjectiveCard(init);
      var last := r[|r| - 1].category;
      assert (set i | 0 <= i < |r| :: r[i].category) == (set i | 0 <= i < |init| :: init[i].category) + {last};
      assert last !in (set i | 0 <= i < |init| :: init[i].category);
    }
  }

  predicate HasDiscount(s: Sale) {
    s.discountApplied > 0
  }

  function Discount(s: Sale): int {
    s.discountApplied
  }

  /** What a sale adds to the discount total: its discount when positive, else nothing. */
  function PositiveDiscount(s: Sale): int {
    if s.discountApplied > 0 then s.discountApplied else 0
  }

  datatype DiscountSummary = DiscountSummary(total: int, average: int, count: nat)

  /**
   * calculateTotalDiscounts: the sales with a positive discount, the sum of their
   * discounts and its rounded mean.
   */
  function TotalDiscounts(sales: seq<Sale>): (r: DiscountSummary)
    ensures r.count == Count(sales, HasDiscount) <= |sales|
    ensures r.total == Sum(sales, PositiveDiscount)
    ensures r.total >= r.count
    ensures r.count == 0 ==> r.total == 0 && r.average == 0
    ensures r.count > 0 ==> r.average >= 1
    ensures r.count > 0 ==> r.count * (2 * r.average - 1) <= 2 * r.total < r.count * (2 * r.average + 1)
  {
    var discounted := Filter(sales, HasDiscount);
    var total := Sum(discounted, Discount);
    var count := |discounted|;
    SumAtLeast(discounted, Discount, 1);
    SumFilterMasked(sales, HasDiscount, Discount, PositiveDiscount);
    if count > 0 then
      RoundDivNearest(total, count);
      DivAtLeast(2 * total + count, 2 * count, 1);
      DiscountSummary(total, RoundDiv(total, count), count)
    else DiscountSummary(total, 0, count)
  }

  /** The discounts of two batches of sales add up: counts and totals are additive. */
  lemma TotalDiscountsAppend(a: seq<Sale>, b: seq<Sale>)
    ensures TotalDiscounts(a + b).count == TotalDiscounts(a).count + TotalDiscounts(b).count
    ensures TotalDiscounts(a + b).total == TotalDiscounts(a).total + TotalDiscounts(b).total
  {
    FilterAppend(a, b, HasDiscount);
    SumAppend(a, b, PositiveDiscount);
  }

  /** calculateAverageTicket: the rounded mean sale amount, 0 without sales. */
  function AverageTicket(sales: seq<Sale>): (r: int)
    ensures sales == [] ==> r == 0
    ensures sales != [] ==> |sales| * (2 * r - 1) <= 2 * Sum(sales, SaleAmount) < |sales| * (2 * r + 1)
  {
    if |sales| == 0 then 0
    else
      RoundDivNearest(Sum(sales, SaleAmount), |sales|);
      RoundDiv(Sum(sales, SaleAmount), |sales|)
  }

  /** The average ticket lies between the smallest and the largest amount. */
  lemma AverageTicketBetween(sales: seq<Sale>, lo: int, hi: int)
    requires sales != []
    requires forall s :: s in sales ==> lo <= s.amount <= hi
    ensures lo <= AverageTicket(sales) <= hi
  {
    SumAtLeast(sales, SaleAmount, lo);
    SumAtMost(sales, SaleAmount, hi);
    RoundDivBetween(Sum(sales, SaleAmount), |sales|, lo, hi);
  }

  /**
   * calculateTotalRevenue: the amounts of all sales, or with a range of the sales
   * whose date parses and lies within it by milliseconds.
   */
  function TotalRevenue(sales: seq<Sale>, range: Option<DateRange>): (r: int)
    ensures range.None? ==> r == Sum(sales, SaleAmount)
    ensures range.Some? ==> r == Sum(Filter(sales, SaleWithin(range.value.start, range.value.end)), SaleAmount)
  {
    match range
    case None => Sum(sales, SaleAmount)
    case Some(w) => Sum(Filter(sales, SaleWithin(w.start, w.end)), SaleAmount)
  }

  function SaleOutside(start: int, end: int): Sale -> bool {
    (s: Sale) => !WithinMs(s.date, start, end)
  }

  /** The revenue inside a range and the revenue outside it make the whole revenue. */
  lemma TotalRevenueSplit(sales: seq<Sale>, w: DateRange)
    ensures TotalRevenue(sales, Some(w)) + Sum(Filter(sales, SaleOutside(w.start, w.end)), SaleAmount)
         == TotalRevenue(sales, None)
  {
    SumSplit(sales, SaleWithin(w.start, w.end), SaleOutside(w.start, w.end), SaleAmount);
  }

  // ---------------------------------------------------------------------------
  // Distributions
  // ---------------------------------------------------------------------------

  /** One row of a count distribution (status, source, country, channel, result). */
  datatype Slice = Slice(name: string, count: nat, percentage: int)

  function SliceLabel(s: Slice): string {
    s.name
  }

  function SliceCount(s: Slice): int {
    s.count
  }

  /** One row per key of `ks`, in that order: the key, its count and its share of all records. */
  function SliceRows<T>(xs: seq<T>, labelOf: T -> string, ks: seq<string>): (rows: seq<Slice>)
    ensures |rows| == |ks|
    ensures forall i :: 0 <= i < |ks| ==>
      rows[i] == Slice(ks[i], CountFor(xs, Labelled(labelOf), ks[i]), Percent(CountFor(xs, Labelled(labelOf), ks[i]), |xs|))
  {
    seq(|ks|, i requires 0 <= i < |ks| =>
      var n := CountFor(xs, Labelled(labelOf), ks[i]);
      Slice(ks[i], n, Percent(n, |xs|)))
  }

  /**
   * The rows of a distribution before sorting: one per label, in the order
   * `Object.entries` lists the keys of the filled `Record`.
   */
  function EntryRows<T>(xs: seq<T>, labelOf: T -> string): seq<Slice> {
    SliceRows(xs, labelOf, RecordKeys(KeysOf(xs, Labelled(labelOf))))
  }

  /**
   * The shape shared by the distribution functions: count the records per label
   * in a `Record`, one row per label with its share of all records, largest
   * count first, rows with equal counts in the order `Object.entries` lists
   * their labels; no rows for no records.
   */
  method Distribution<T>(xs: seq<T>, labelOf: T -> string) returns (r: seq<Slice>)
    ensures xs == [] ==> r == []
    ensures forall i, j :: 0 <= i < j < |r| ==> r[i].name != r[j].name
    ensures forall j :: 0 <= j < |xs| ==> exists i :: 0 <= i < |r| && r[i].name == labelOf(xs[j])
    ensures forall i :: 0 <= i < |r| ==>
      r[i].count == CountFor(xs, Labelled(labelOf), r[i].name) > 0
      && r[i].percentage == Percent(r[i].count, |xs|)
    ensures Sum(r, SliceCount) == |xs|
    ensures SortedDesc(r, SliceCount)
    ensures forall k :: Filter(r, KeyIs(SliceCount, k)) == Filter(EntryRows(xs, labelOf), KeyIs(SliceCount, k))
  {
    if |xs| == 0 {
      return [];
    }
    var keys, m := Tally(xs, Labelled(labelOf), NoAmount);
    var ks := RecordKeys(keys);
    SliceRowsFromTally(xs, labelOf, m, ks);
    var rows := CountSlices(m, ks, |xs|);
    r := SortDesc(rows, SliceCount);
    SliceRowsSorted(xs, labelOf, ks, r);
    SortDescStableAll(rows, SliceCount);
  }

  /** Rows read off the tallied counters are the label rows. */
  lemma SliceRowsFromTally<T>(xs: seq<T>, labelOf: T -> string, m: map<string, Bucket>, ks: seq<string>)
    requires forall v :: BucketAt(m, v).count == CountFor(xs, Labelled(labelOf), v)
    ensures forall v :: BucketAt(m, v).count <= |xs|
    ensures CountSlices(m, ks, |xs|) == SliceRows(xs, labelOf, ks)
  {
  }

  /** One row per label of `ks`, read off its counter in `m`. */
  function CountSlices(m: map<string, Bucket>, ks: seq<string>, total: nat): (rows: seq<Slice>)
    requires forall v :: BucketAt(m, v).count <= total
    ensures |rows| == |ks|
    ensures forall i :: 0 <= i < |ks| ==>
      rows[i] == Slice(ks[i], BucketAt(m, ks[i]).count, Percent(BucketAt(m, ks[i]).count, total))
  {
    seq(|ks|, i requires 0 <= i < |ks| =>
      var n := BucketAt(m, ks[i]).count;
      Slice(ks[i], n, Percent(n, total)))
  }

  /** The label rows over any order of the labels, once sorted. */
  lemma SliceRowsSorted<T>(xs: seq<T>, labelOf: T -> string, ks: seq<string>, r: seq<Slice>)
    requires multiset(ks) == multiset(KeysOf(xs, Labelled(labelOf)))
    requires r == SortDesc(SliceRows(xs, labelOf, ks), SliceCount)
    ensures forall i, j :: 0 <= i < j < |r| ==> r[i].name != r[j].name
    ensures forall j :: 0 <= j < |xs| ==> exists i :: 0 <= i < |r| && r[i].name == labelOf(xs[j])
    ensures forall i :: 0 <= i < |r| ==>
      r[i].count == CountFor(xs, Labelled(labelOf), r[i].name) > 0
      && r[i].percentage == Percent(r[i].count, |xs|)
    ensures Sum(r, SliceCount) == |xs|
    ensures SortedDesc(r, SliceCount)
  {
    var rows := SliceRows(xs, labelOf, ks);
    SortDescSorted(rows, SliceCount);
    SliceRowsGrouped(xs, labelOf, ks, rows, r);
    PermutationKeeps(rows, r, SliceShare(|xs|));
  }

  /** The label rows, in any order, name each label once and count its records. */
  lemma SliceRowsGrouped<T>(xs: seq<T>, labelOf: T -> string, ks: seq<string>, rows: seq<Slice>, r: seq<Slice>)
    requires multiset(ks) == multiset(KeysOf(xs, Labelled(labelOf)))
    requires rows == SliceRows(xs, labelOf, ks) && multiset(r) == multiset(rows)
    ensures forall i, j :: 0 <= i < j < |r| ==> r[i].name != r[j].name
    ensures forall j :: 0 <= j < |xs| ==> exists i :: 0 <= i < |r| && r[i].name == labelOf(xs[j])
    ensures forall i :: 0 <= i < |r| ==> r[i].count == CountFor(xs, Labelled(labelOf), r[i].name) > 0
    ensures Sum(r, SliceCount) == |xs|
  {
    GroupedRows(xs, Labelled(labelOf), ks, rows, r, SliceLabel, SliceCount);
    forall j | 0 <= j < |xs| ensures exists i :: 0 <= i < |r| && r[i].name == labelOf(xs[j]) {
      assert Labelled(labelOf)(xs[j]) == Some(labelOf(xs[j]));
    }
    KeyedTotal(xs, Labelled(labelOf));
  }

  function SliceShare(total: nat): Slice -> bool {
    (s: Slice) => s.count <= total && s.percentage == Percent(s.count, total)
  }

  function StatusLabel(s: LeadStatus): string {
    match s
    case New => "Lead Nuevo"
    case Contacted => "Contactado"
    case Interested => "Calificado"
    case ClosedWon => "Ganado"
    case ClosedLost => "Perdido"
  }

  function ContactStatusLabel(c: Contact): string {
    StatusLabel(c.status)
  }

  /** calculateLeadsByStatus: contacts per status, under the display labels. */
  method LeadsByStatus(contacts: seq<Contact>) returns (r: seq<Slice>)
    ensures contacts == [] ==> r == []
    ensures forall i, j :: 0 <= i < j < |r| ==> r[i].name != r[j].name
    ensures forall j :: 0 <= j < |contacts| ==> exists i :: 0 <= i < |r| && r[i].name == ContactStatusLabel(contacts[j])
    ensures forall i :: 0 <= i < |r| ==>
      r[i].count == CountFor(contacts, Labelled(ContactStatusLabel), r[i].name) > 0
      && r[i].percentage == Percent(r[i].count, |contacts|)
    ensures Sum(r, SliceCount) == |contacts|
    ensures SortedDesc(r, SliceCount)
    ensures forall k :: Filter(r, KeyIs(SliceCount, k)) == Filter(EntryRows(contacts, ContactStatusLabel), KeyIs(SliceCount, k))
  {
    r := Distribution(contacts, ContactStatusLabel);
  }

  function SourceLabel(c: Contact): string {
    if c.leadSource != "" then c.leadSource else "Sin especificar"
  }

  /** calculateLeadsBySource: contacts per lead source, "Sin especificar" standing for none. */
  method LeadsBySource(contacts: seq<Contact>) returns (r: seq<Slice>)
    ensures forall j :: 0 <= j < |contacts| && contacts[j].leadSource == "" ==>
      exists i :: 0 <= i < |r| && r[i].name == "Sin especificar"
    ensures contacts == [] ==> r == []
    ensures forall i, j :: 0 <= i < j < |r| ==> r[i].name != r[j].name
    ensures forall j :: 0 <= j < |contacts| ==> exists i :: 0 <= i < |r| && r[i].name == SourceLabel(contacts[j])
    ensures forall i :: 0 <= i < |r| ==>
      r[i].count == CountFor(contacts, Labelled(SourceLabel), r[i].name) > 0
      && r[i].percentage == Percent(r[i].count, |contacts|)
    ensures Sum(r, SliceCount) == |contacts|
    ensures SortedDesc(r, SliceCount)
    ensures forall k :: Filter(r, KeyIs(SliceCount, k)) == Filter(EntryRows(contacts, SourceLabel), KeyIs(SliceCount, k))
  {
    r := Distribution(contacts, SourceLabel);
  }

  function CountryLabel(c: Contact): string {
    if c.country != "" then c.country else "Sin especificar"
  }

  /** calculateLeadsByCountry: contacts per country, "Sin especificar" standing for none. */
  method LeadsByCountry(contacts: seq<Contact>) returns (r: seq<Slice>)
    ensures forall j :: 0 <= j < |contacts| && contacts[j].country == "" ==>
      exists i :: 0 <= i < |r| && r[i].name == "Sin especificar"
    ensures contacts == [] ==> r == []
    ensures forall i, j :: 0 <= i < j < |r| ==> r[i].name != r[j].name
    ensures forall j :: 0 <= j < |contacts| ==> exists i :: 0 <= i < |r| && r[i].name == CountryLabel(contacts[j])
    ensures forall i :: 0 <= i < |r| ==>
      r[i].count == CountFor(contacts, Labelled(CountryLabel), r[i].name) > 0
      && r[i].percentage == Percent(r[i].count, |contacts|)
    ensures Sum(r, SliceCount) == |contacts|
    ensures SortedDesc(r, SliceCount)
    ensures forall k :: Filter(r, KeyIs(SliceCount, k)) == Filter(EntryRows(contacts, CountryLabel), KeyIs(SliceCount, k))
  {
    r := Distribution(contacts, CountryLabel);
  }

  /** `String(interaction.type) || 'Otro'`: the type's value, which is never empty. */
  function ChannelLabel(i: Interaction): string {
    InteractionTypeValue(i.kind)
  }

  /** calculateInteractionsByChannel: interactions per channel value. */
  method InteractionsByChannel(interactions: seq<Interaction>) returns (r: seq<Slice>)
    ensures forall i :: 0 <= i < |r| ==> exists t: InteractionType :: r[i].name == InteractionTypeValue(t)
    ensures interactions == [] ==> r == []
    ensures forall i, j :: 0 <= i < j < |r| ==> r[i].name != r[j].name
    ensures forall j :: 0 <= j < |interactions| ==> exists i :: 0 <= i < |r| && r[i].name == ChannelLabel(interactions[j])
    ensures forall i :: 0 <= i < |r| ==>
      r[i].count == CountFor(interactions, Labelled(ChannelLabel), r[i].name) > 0
      && r[i].percentage == Percent(r[i].count, |interactions|)
    ensures Sum(r, SliceCount) == |interactions|
    ensures SortedDesc(r, SliceCount)
    ensures forall k :: Filter(r, KeyIs(SliceCount, k)) == Filter(EntryRows(interactions, ChannelLabel), KeyIs(SliceCount, k))
  {
    r := Distribution(interactions, ChannelLabel);
    forall i | 0 <= i < |r| ensures exists t: InteractionType :: r[i].name == InteractionTypeValue(t) {
      LabelOfKey(interactions, ChannelLabel, r[i].name);
    }
  }

  /** A label that occurs is the label of some record. */
  lemma {:induction false} LabelOfKey<T>(xs: seq<T>, labelOf: T -> string, v: string)
    requires CountFor(xs, Labelled(labelOf), v) > 0
    ensures exists x :: x in xs && v == labelOf(x)
  {
    var init := xs[..|xs| - 1];
    if CountFor(init, Labelled(labelOf), v) > 0 {
      LabelOfKey(init, labelOf, v);
      var x :| x in init && v == labelOf(x);
      assert x in xs;
    } else {
      assert xs[|xs| - 1] in xs;
    }
  }

  function ResultLabel(i: Interaction): string {
    if i.result != "" then i.result else "Sin resultado"
  }

  /** calculateInteractionResults: interactions per result text, "Sin resultado" standing for none. */
  method InteractionResults(interactions: seq<Interaction>) returns (r: seq<Slice>)
    ensures forall j :: 0 <= j < |interactions| && interactions[j].result == "" ==>
      exists i :: 0 <= i < |r| && r[i].name == "Sin resultado"
    ensures interactions == [] ==> r == []
    ensures forall i, j :: 0 <= i < j < |r| ==> r[i].name != r[j].name
    ensures forall j :: 0 <= j < |interactions| ==> exists i :: 0 <= i < |r| && r[i].name == ResultLabel(interactions[j])
    ensures forall i :: 0 <= i < |r| ==>
      r[i].count == CountFor(interactions, Labelled(ResultLabel), r[i].name) > 0
      && r[i].percentage == Percent(r[i].count, |interactions|)
    ensures Sum(r, SliceCount) == |interactions|
    ensures SortedDesc(r, SliceCount)
    ensures forall k :: Filter(r, KeyIs(SliceCount, k)) == Filter(EntryRows(interactions, ResultLabel), KeyIs(SliceCount, k))
  {
    r := Distribution(interactions, ResultLabel);
  }

  /** The simulated trend of calculateLostReasons, cycling with the row's position. */
  datatype Trend = Up | Down | Stable

  function TrendAt(i: nat): Trend {
    if i % 3 == 0 then Up else if i % 3 == 1 then Down else Stable
  }

  datatype ReasonRow = ReasonRow(reason: string, count: nat, percentage: int, trend: Trend)

  function ReasonName(r: ReasonRow): string {
    r.reason
  }

  function ReasonCount(r: ReasonRow): int {
    r.count
  }

  /** The free-text detail, else the reason's value, else "Sin especificar". */
  function ReasonLabel(c: Contact): string {
    if c.lostReasonDetail != "" then c.lostReasonDetail
    else if c.lostReason.Some? then LostReasonValue(c.lostReason.value)
    else "Sin especificar"
  }

  /** One row per reason of `ks`, in that order, its trend fixed by its position. */
  function ReasonRows(lost: seq<Contact>, ks: seq<string>): (rows: seq<ReasonRow>)
    ensures |rows| == |ks|
    ensures forall i :: 0 <= i < |ks| ==>
      var n := CountFor(lost, Labelled(ReasonLabel), ks[i]);
      rows[i] == ReasonRow(ks[i], n, Percent(n, |lost|), TrendAt(i))
  {
    seq(|ks|, i requires 0 <= i < |ks| =>
      var n := CountFor(lost, Labelled(ReasonLabel), ks[i]);
      ReasonRow(ks[i], n, Percent(n, |lost|), TrendAt(i)))
  }

  /** The reasons of the lost contacts in the order `Object.entries` lists them. */
  function ReasonKeys(contacts: seq<Contact>): seq<string> {
    RecordKeys(KeysOf(LostContacts(contacts), Labelled(ReasonLabel)))
  }

  /**
   * calculateLostReasons: the lost contacts per reason, as a share of all lost
   * contacts, with the trend of each row fixed by the position of its reason in
   * the order `Object.entries` lists the reasons, largest count first, rows with
   * equal counts in that same order.
   */
  method LostReasons(contacts: seq<Contact>) returns (r: seq<ReasonRow>)
    ensures Count(contacts, HasStatus(ClosedLost)) == 0 ==> r == []
    ensures forall i, j :: 0 <= i < j < |r| ==> r[i].reason != r[j].reason
    ensures forall c :: c in contacts && c.status == ClosedLost ==>
      exists i :: 0 <= i < |r| && r[i].reason == ReasonLabel(c)
    ensures forall i :: 0 <= i < |r| ==>
      r[i].count == CountFor(LostContacts(contacts), Labelled(ReasonLabel), r[i].reason) > 0
      && r[i].percentage == Percent(r[i].count, Count(contacts, HasStatus(ClosedLost)))
    ensures forall i :: 0 <= i < |r| ==>
      r[i].reason in ReasonKeys(contacts) && r[i].trend == TrendAt(IndexOf(ReasonKeys(contacts), r[i].reason))
    ensures Sum(r, ReasonCount) == Count(contacts, HasStatus(ClosedLost))
    ensures SortedDesc(r, ReasonCount)
    ensures forall k :: Filter(r, KeyIs(ReasonCount, k))
                     == Filter(ReasonRows(LostContacts(contacts), ReasonKeys(contacts)), KeyIs(ReasonCount, k))
  {
    var lost := LostContacts(contacts);
    if |lost| == 0 {
      return [];
    }
    var keys, m := Tally(lost, Labelled(ReasonLabel), NoAmount);
    var ks := RecordKeys(keys);
    ReasonRowsFromTally(lost, m, ks);
    var rows := ReasonSlices(m, ks, |lost|);
    r := SortDesc(rows, ReasonCount);
    ReasonsOfLost(contacts, r);
    ReasonsCoverLost(contacts, r);
    SortDescStableAll(rows, ReasonCount);
  }

  /** Rows read off the tallied counters are the reason rows. */
  lemma ReasonRowsFromTally(lost: seq<Contact>, m: map<string, Bucket>, ks: seq<string>)
    requires forall v :: BucketAt(m, v).count == CountFor(lost, Labelled(ReasonLabel), v)
    ensures forall v :: BucketAt(m, v).count <= |lost|
    ensures ReasonSlices(m, ks, |lost|) == ReasonRows(lost, ks)
  {
  }

  /** One row per reason of `ks`, read off its counter in `m`, its trend fixed by its position. */
  function ReasonSlices(m: map<string, Bucket>, ks: seq<string>, total: nat): (rows: seq<ReasonRow>)
    requires forall v :: BucketAt(m, v).count <= total
    ensures |rows| == |ks|
    ensures forall i :: 0 <= i < |ks| ==>
      rows[i] == ReasonRow(ks[i], BucketAt(m, ks[i]).count, Percent(BucketAt(m, ks[i]).count, total), TrendAt(i))
  {
    seq(|ks|, i requires 0 <= i < |ks| =>
      var n := BucketAt(m, ks[i]).count;
      ReasonRow(ks[i], n, Percent(n, total), TrendAt(i)))
  }

  /** The sorted reason rows of the lost contacts name each reason once, with its count and trend. */
  lemma ReasonsOfLost(contacts: seq<Contact>, r: seq<ReasonRow>)
    requires r == SortDesc(ReasonRows(LostContacts(contacts), ReasonKeys(contacts)), ReasonCount)
    ensures forall i, j :: 0 <= i < j < |r| ==> r[i].reason != r[j].reason
    ensures forall i :: 0 <= i < |r| ==>
      r[i].count == CountFor(LostContacts(contacts), Labelled(ReasonLabel), r[i].reason) > 0
      && r[i].percentage == Percent(r[i].count, Count(contacts, HasStatus(ClosedLost)))
    ensures forall i :: 0 <= i < |r| ==>
      r[i].reason in ReasonKeys(contacts) && r[i].trend == TrendAt(IndexOf(ReasonKeys(contacts), r[i].reason))
  {
    ReasonRowsSorted(LostContacts(contacts), ReasonKeys(contacts), r);
  }

  /** The sorted reason rows of the lost contacts cover every lost contact, once each. */
  lemma ReasonsCoverLost(contacts: seq<Contact>, r: seq<ReasonRow>)
    requires r == SortDesc(ReasonRows(LostContacts(contacts), ReasonKeys(contacts)), ReasonCount)
    ensures forall c :: c in contacts && c.status == ClosedLost ==>
      exists i :: 0 <= i < |r| && r[i].reason == ReasonLabel(c)
    ensures Sum(r, ReasonCount) == Count(contacts, HasStatus(ClosedLost))
    ensures SortedDesc(r, ReasonCount)
  {
    ReasonRowsSorted(LostContacts(contacts), ReasonKeys(contacts), r);
    LostCovered(contacts, r);
  }

  /** Rows covering the reason of every lost contact cover every contact that was lost. */
  lemma LostCovered(contacts: seq<Contact>, r: seq<ReasonRow>)
    requires var lost := LostContacts(contacts);
      forall j :: 0 <= j < |lost| ==> exists i :: 0 <= i < |r| && r[i].reason == ReasonLabel(lost[j])
    ensures forall c :: c in contacts && c.status == ClosedLost ==>
      exists i :: 0 <= i < |r| && r[i].reason == ReasonLabel(c)
  {
    var lost := LostContacts(contacts);
    forall c | c in contacts && c.status == ClosedLost
      ensures exists i :: 0 <= i < |r| && r[i].reason == ReasonLabel(c)
    {
      assert c in lost;
      var j :| 0 <= j < |lost| && lost[j] == c;
    }
  }

  /** The reason rows over any order of the reasons, once sorted. */
  lemma ReasonRowsSorted(lost: seq<Contact>, ks: seq<string>, r: seq<ReasonRow>)
    requires multiset(ks) == multiset(KeysOf(lost, Labelled(ReasonLabel)))
    requires r == SortDesc(ReasonRows(lost, ks), ReasonCount)
    ensures forall i, j :: 0 <= i < j < |r| ==> r[i].reason != r[j].reason
    ensures forall j :: 0 <= j < |lost| ==> exists i :: 0 <= i < |r| && r[i].reason == ReasonLabel(lost[j])
    ensures forall i :: 0 <= i < |r| ==>
      r[i].count == CountFor(lost, Labelled(ReasonLabel), r[i].reason) > 0
      && r[i].percentage == Percent(r[i].count, |lost|)
    ensures forall i :: 0 <= i < |r| ==> r[i].reason in ks && r[i].trend == TrendAt(IndexOf(ks, r[i].reason))
    ensures Sum(r, ReasonCount) == |lost|
    ensures SortedDesc(r, ReasonCount)
  {
    var rows := ReasonRows(lost, ks);
    SortDescSorted(rows, ReasonCount);
    ReasonRowsGrouped(lost, ks, rows, r);
    KeysOfDistinct(lost, Labelled(ReasonLabel));
    DistinctPermutation(KeysOf(lost, Labelled(ReasonLabel)), ks);
    forall i | 0 <= i < |rows| ensures ReasonShare(|lost|, ks)(rows[i]) {
      IndexOfDistinct(ks, i);
    }
    PermutationKeeps(rows, r, ReasonShare(|lost|, ks));
  }

  /** The reason rows, in any order, name each reason once and count its contacts. */
  lemma ReasonRowsGrouped(lost: seq<Contact>, ks: seq<string>, rows: seq<ReasonRow>, r: seq<ReasonRow>)
    requires multiset(ks) == multiset(KeysOf(lost, Labelled(ReasonLabel)))
    requires rows == ReasonRows(lost, ks) && multiset(r) == multiset(rows)
    ensures forall i, j :: 0 <= i < j < |r| ==> r[i].reason != r[j].reason
    ensures forall j :: 0 <= j < |lost| ==> exists i :: 0 <= i < |r| && r[i].reason == ReasonLabel(lost[j])
    ensures forall i :: 0 <= i < |r| ==> r[i].count == CountFor(lost, Labelled(ReasonLabel), r[i].reason) > 0
    ensures Sum(r, ReasonCount) == |lost|
  {
    GroupedRows(lost, Labelled(ReasonLabel), ks, rows, r, ReasonName, ReasonCount);
    forall j | 0 <= j < |lost| ensures exists i :: 0 <= i < |r| && r[i].reason == ReasonLabel(lost[j]) {
      assert Labelled(ReasonLabel)(lost[j]) == Some(ReasonLabel(lost[j]));
    }
    KeyedTotal(lost, Labelled(ReasonLabel));
  }

  /** The lost contacts, whose reasons calculateLostReasons counts. */
  function LostContacts(contacts: seq<Contact>): (lost: seq<Contact>)
    ensures |lost| == Count(contacts, HasStatus(ClosedLost))
    ensures forall c :: c in lost <==> c in contacts && c.status == ClosedLost
  {
    Filter(contacts, HasStatus(ClosedLost))
  }

  /** A reason row's share of the lost contacts, and the trend of its reason's position. */
  function ReasonShare(total: nat, keys: seq<string>): ReasonRow -> bool {
    (row: ReasonRow) =>
      row.count <= total && row.percentage == Percent(row.count, total)
      && row.reason in keys && row.trend == TrendAt(IndexOf(keys, row.reason))
  }

  datatype AttemptSlice = AttemptSlice(status: string, count: nat, percentage: int, totalValue: int)

  function AttemptStatusKey(a: PurchaseAttempt): Option<string> {
    Some(AttemptStatusValue(a.status))
  }

  function AttemptSliceStatus(s: AttemptSlice): string {
    s.status
  }

  function AttemptSliceCount(s: AttemptSlice): int {
    s.count
  }

  function AttemptSliceValue(s: AttemptSlice): int {
    s.totalValue
  }

  /**
   * calculatePurchaseAttemptsByStatus: attempts per status with their share and
   * the sum of their amounts, largest count first, rows with equal counts in the
   * order `Object.entries` lists the statuses; the rows account for every attempt
   * and every amount once.
   */
  method PurchaseAttemptsByStatus(attempts: seq<PurchaseAttempt>) returns (r: seq<AttemptSlice>)
    ensures attempts == [] ==> r == []
    ensures forall i, j :: 0 <= i < j < |r| ==> r[i].status != r[j].status
    ensures forall j :: 0 <= j < |attempts| ==>
      exists i :: 0 <= i < |r| && r[i].status == AttemptStatusValue(attempts[j].status)
    ensures forall i :: 0 <= i < |r| ==>
      r[i].count == CountFor(attempts, AttemptStatusKey, r[i].status) > 0
      && r[i].percentage == Percent(r[i].count, |attempts|)
      && r[i].totalValue == SumFor(attempts, AttemptStatusKey, AttemptAmount, r[i].status)
    ensures Sum(r, AttemptSliceCount) == |attempts|
    ensures Sum(r, AttemptSliceValue) == Sum(attempts, AttemptAmount)
    ensures SortedDesc(r, AttemptSliceCount)
    ensures forall k :: Filter(r, KeyIs(AttemptSliceCount, k))
                     == Filter(AttemptRows(attempts, RecordKeys(KeysOf(attempts, AttemptStatusKey))), KeyIs(AttemptSliceCount, k))
  {
    if |attempts| == 0 {
      return [];
    }
    var keys, m := Tally(attempts, AttemptStatusKey, AttemptAmount);
    var ks := RecordKeys(keys);
    AttemptRowsFromTally(attempts, m, ks);
    var rows := BucketSlices(m, ks, |attempts|);
    r := SortDesc(rows, AttemptSliceCount);
    AttemptRowsSorted(attempts, ks, r);
    AttemptRowsStable(attempts, ks, r);
  }

  /** The row of one status: its attempts, their share and the sum of their amounts. */
  function AttemptRow(attempts: seq<PurchaseAttempt>, status: string): (s: AttemptSlice)
    ensures s.status == status && AttemptShare(attempts)(s)
  {
    var n := CountFor(attempts, AttemptStatusKey, status);
    AttemptSlice(status, n, Percent(n, |attempts|), SumFor(attempts, AttemptStatusKey, AttemptAmount, status))
  }

  /** One row per status of `ks`, in that order. */
  function AttemptRows(attempts: seq<PurchaseAttempt>, ks: seq<string>): (rows: seq<AttemptSlice>)
    ensures |rows| == |ks|
    ensures forall i :: 0 <= i < |ks| ==> rows[i] == AttemptRow(attempts, ks[i])
  {
    seq(|ks|, i requires 0 <= i < |ks| => AttemptRow(attempts, ks[i]))
  }

  /** Rows read off the tallied counters are the status rows. */
  lemma AttemptRowsFromTally(attempts: seq<PurchaseAttempt>, m: map<string, Bucket>, ks: seq<string>)
    requires forall v :: BucketAt(m, v) == Bucket(CountFor(attempts, AttemptStatusKey, v), SumFor(attempts, AttemptStatusKey, AttemptAmount, v))
    ensures forall v :: BucketAt(m, v).count <= |attempts|
    ensures BucketSlices(m, ks, |attempts|) == AttemptRows(attempts, ks)
  {
  }

  /** One row per status of `ks`, read off its counter in `m`. */
  function BucketSlices(m: map<string, Bucket>, ks: seq<string>, total: nat): (rows: seq<AttemptSlice>)
    requires forall v :: BucketAt(m, v).count <= total
    ensures |rows| == |ks|
    ensures forall i :: 0 <= i < |ks| ==>
      rows[i] == AttemptSlice(ks[i], BucketAt(m, ks[i]).count, Percent(BucketAt(m, ks[i]).count, total), BucketAt(m, ks[i]).total)
  {
    seq(|ks|, i requires 0 <= i < |ks| =>
      var b := BucketAt(m, ks[i]);
      AttemptSlice(ks[i], b.count, Percent(b.count, total), b.total))
  }

  /** Sorting the status rows keeps rows of equal count in the order of their statuses. */
  lemma AttemptRowsStable(attempts: seq<PurchaseAttempt>, ks: seq<string>, r: seq<AttemptSlice>)
    requires r == SortDesc(AttemptRows(attempts, ks), AttemptSliceCount)
    ensures forall k :: Filter(r, KeyIs(AttemptSliceCount, k)) == Filter(AttemptRows(attempts, ks), KeyIs(AttemptSliceCount, k))
  {
    SortDescStableAll(AttemptRows(attempts, ks), AttemptSliceCount);
  }

  /** The status rows over any order of the statuses, once sorted. */
  lemma AttemptRowsSorted(attempts: seq<PurchaseAttempt>, ks: seq<string>, r: seq<AttemptSlice>)
    requires multiset(ks) == multiset(KeysOf(attempts, AttemptStatusKey))
    requires r == SortDesc(AttemptRows(attempts, ks), AttemptSliceCount)
    ensures forall i, j :: 0 <= i < j < |r| ==> r[i].status != r[j].status
    ensures forall j :: 0 <= j < |attempts| ==>
      exists i :: 0 <= i < |r| && r[i].status == AttemptStatusValue(attempts[j].status)
    ensures forall i :: 0 <= i < |r| ==>
      r[i].count == CountFor(attempts, AttemptStatusKey, r[i].status) > 0
      && r[i].percentage == Percent(r[i].count, |attempts|)
      && r[i].totalValue == SumFor(attempts, AttemptStatusKey, AttemptAmount, r[i].status)
    ensures Sum(r, AttemptSliceCount) == |attempts|
    ensures Sum(r, AttemptSliceValue) == Sum(attempts, AttemptAmount)
    ensures SortedDesc(r, AttemptSliceCount)
  {
    var rows := AttemptRows(attempts, ks);
    SortDescSorted(rows, AttemptSliceCount);
    GroupedRows(attempts, AttemptStatusKey, ks, rows, r, AttemptSliceStatus, AttemptSliceCount);
    KeyedTotal(attempts, AttemptStatusKey);
    GroupedTotals(attempts, AttemptStatusKey, AttemptAmount, ks, rows, r, AttemptSliceValue);
    PermutationKeeps(rows, r, AttemptShare(attempts));
  }

  function AttemptShare(attempts: seq<PurchaseAttempt>): AttemptSlice -> bool {
    (s: AttemptSlice) =>
      s.count <= |attempts| && s.percentage == Percent(s.count, |attempts|)
      && s.totalValue == SumFor(attempts, AttemptStatusKey, AttemptAmount, s.status)
  }

  // ---------------------------------------------------------------------------
  // Activity and recovery counters
  // ---------------------------------------------------------------------------

  /**
   * calculateAvgInteractionsPerLead: interactions per open contact rounded to one
   * decimal, given here in tenths; 0 without open contacts.
   */
  function AvgInteractionsPerLead(contacts: seq<Contact>, interactions: seq<Interaction>): (tenths: int)
    ensures TotalLeadsInPipeline(contacts) == 0 ==> tenths == 0
    ensures TotalLeadsInPipeline(contacts) > 0 ==>
      var active := TotalLeadsInPipeline(contacts);
      tenths >= 0 && active * (2 * tenths - 1) <= 20 * |interactions| < active * (2 * tenths + 1)
  {
    var active := TotalLeadsInPipeline(contacts);
    var n := 10 * |interactions|;
    if active == 0 then 0
    else
      TenthsNearest(|interactions|, active);
      RoundDiv(n, active)
  }

  /** `count / active` rounded to tenths is the nearest number of tenths. */
  lemma TenthsNearest(count: nat, active: nat)
    requires active > 0
    ensures var t := RoundDiv(10 * count, active);
      t >= 0 && active * (2 * t - 1) <= 20 * count < active * (2 * t + 1)
  {
    RoundDivNearest(10 * count, active);
  }

  /** calculateLostLeads: lost contacts, who are never in the pipeline. */
  function LostLeads(contacts: seq<Contact>): (n: nat)
    ensures n + TotalLeadsInPipeline(contacts) <= |contacts|
    ensures n == |contacts| - TotalLeadsInPipeline(contacts) - Count(contacts, HasStatus(ClosedWon))
  {
    StatusPartition(contacts);
    Count(contacts, HasStatus(ClosedLost))
  }

  /** calculateTotalInteractions: all interactions, or those dated within the range. */
  function TotalInteractions(interactions: seq<Interaction>, range: Option<DateRange>): (n: nat)
    ensures n <= |interactions|
    ensures range.None? ==> n == |interactions|
    ensures range.Some? ==> n == Count(interactions, InteractionWithin(range.value.start, range.value.end))
  {
    match range
    case None => |interactions|
    case Some(w) => Count(interactions, InteractionWithin(w.start, w.end))
  }

  /** Interactions already inside the range are all counted. */
  lemma TotalInteractionsAllWithin(interactions: seq<Interaction>, w: DateRange)
    requires forall i :: i in interactions ==> WithinMs(i.date, w.start, w.end)
    ensures TotalInteractions(interactions, Some(w)) == |interactions|
  {
    FilterAll(interactions, InteractionWithin(w.start, w.end));
  }

  predicate Recoverable(a: PurchaseAttempt) {
    IsRecoverable(a.status)
  }

  predicate HasRecoverySeller(a: PurchaseAttempt) {
    a.recoverySellerId != ""
  }

  predicate Unassigned(a: PurchaseAttempt) {
    a.recoverySellerId == ""
  }

  predicate RecoveredAttempt(a: PurchaseAttempt) {
    Recoverable(a) && HasRecoverySeller(a)
  }

  /** calculateFailedAttempts: the failed and abandoned attempts. */
  function FailedAttempts(attempts: seq<PurchaseAttempt>): (n: nat)
    ensures n <= |attempts|
    ensures n + Count(attempts, Succeeded) == |attempts|
  {
    CountSplit(attempts, Recoverable, Succeeded);
    Count(attempts, Recoverable)
  }

  predicate Succeeded(a: PurchaseAttempt) {
    a.status == Successful
  }

  /**
   * calculateRecoveredValue: the amounts of the recoverable attempts that have a
   * recovery seller, the same as one filter by both conditions.
   */
  function RecoveredValue(attempts: seq<PurchaseAttempt>): (v: int)
    ensures v == Sum(Filter(attempts, RecoveredAttempt), AttemptAmount)
  {
    FilterFilter(attempts, Recoverable, HasRecoverySeller, RecoveredAttempt);
    Sum(Filter(Filter(attempts, Recoverable), HasRecoverySeller), AttemptAmount)
  }

  datatype RecoverySummary = RecoverySummary(
    totalRecoverable: nat, recovered: nat, recoveryRate: int, potentialValue: int, recoveredValue: int)

  /**
   * calculateRecoveryMetrics: over the failed and abandoned attempts only, those
   * with a recovery seller count as recovered; the contacts take no part.
   */
  function RecoveryMetrics(attempts: seq<PurchaseAttempt>, contacts: seq<Contact>): (r: RecoverySummary)
    ensures r.recovered <= r.totalRecoverable == FailedAttempts(attempts)
    ensures 0 <= r.recoveryRate <= 100
    ensures r.totalRecoverable == 0 ==> r.recoveryRate == 0
    ensures r.totalRecoverable > 0 && r.recovered == r.totalRecoverable ==> r.recoveryRate == 100
    ensures r.recoveredValue == RecoveredValue(attempts)
    ensures r.recovered == Count(attempts, RecoveredAttempt)
    ensures r.recoveryRate == Percent(r.recovered, r.totalRecoverable)
  {
    FilterFilter(attempts, Recoverable, HasRecoverySeller, RecoveredAttempt);
    var recoverable := Filter(attempts, Recoverable);
    var recovered := Filter(recoverable, HasRecoverySeller);
    RecoverySummary(|recoverable|, |recovered|, Percent(|recovered|, |recoverable|),
                    Sum(recoverable, AttemptAmount), Sum(recovered, AttemptAmount))
  }

  /** The potential value is the recovered value plus that of the attempts nobody took on. */
  lemma RecoveryValueSplit(attempts: seq<PurchaseAttempt>, contacts: seq<Contact>)
    ensures RecoveryMetrics(attempts, contacts).potentialValue
         == RecoveryMetrics(attempts, contacts).recoveredValue
            + Sum(Filter(Filter(attempts, Recoverable), Unassigned), AttemptAmount)
  {
    SumSplit(Filter(attempts, Recoverable), HasRecoverySeller, Unassigned, AttemptAmount);
  }
}
