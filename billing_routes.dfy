/**
 * The billing endpoints: buying credits, the listing parameters (page window
 * and sort order), the rate update, and the two summaries built from the
 * ledger grouped by record type — the user's balance summary and the
 * administrator's statistics.
 *
 * The ledger is the database's sequence of Billing records; amounts are in
 * cents. The date ranges of the summaries come from calendar arithmetic and
 * are not part of this model: the records given are those inside the range.
 */
module BillingRoutes {
  import opened Util
  import opened Http
  import opened BillingModel
  import opened Db
  import SettingModel
  import ApiRoutes

  // ---------------------------------------------------------------------------
  // Listings: page window and sort order
  // ---------------------------------------------------------------------------

  /** `(page - 1) * limit`: how many records come before the page. */
  function Skip(page: int, limit: int): int
  {
    (page - 1) * limit
  }

  /**
   * `Math.ceil(total / limit)`: the number of pages. A zero limit makes the
   * quotient infinite or not a number, which is no page count at all.
   */
  function Pages(total: nat, limit: int): (p: Option<int>)
    ensures p.None? <==> limit == 0
    ensures limit > 0 ==> p.Some? && p.value >= 0 && limit * (p.value - 1) < total <= limit * p.value
    ensures limit < 0 ==> p.Some? && p.value <= 0
  {
    if limit == 0 then None
    else if limit > 0 then
      var q := (total + limit - 1) / limit;
      DivBounds(total + limit - 1, limit);
      assert limit * (q - 1) == limit * q - limit;
      Some(q)
    else Some(-(total / -limit))
  }

  /**
   * With a positive limit every record is on exactly one page: record i (in
   * sort order) is on page i / limit + 1, which is one of the pages counted,
   * and lies inside that page's window.
   */
  lemma PageOfRecord(i: nat, total: nat, limit: int)
    requires i < total && limit > 0
    ensures var page := i / limit + 1;
      1 <= page <= Pages(total, limit).value
      && Skip(page, limit) <= i < Skip(page, limit) + limit
  {
    var page := i / limit + 1;
    var p := Pages(total, limit).value;
    DivBounds(i, limit);
    assert Skip(page, limit) == limit * (i / limit);
    if page > p {
      MulMonotone(limit, p, page - 1);
      assert false;
    }
  }

  /** The listings that take a sort parameter. */
  datatype Listing = History | CallHistory | AdminAll

  datatype SortField = CreatedAt | Amount | StatusField | CampaignField | UserField

  datatype SortOption = SortOption(field: SortField, ascending: bool)

  /** The second sort key each listing knows besides "amount", and the field it sorts by. */
  function SecondKey(l: Listing): (p: (string, SortField))
    ensures p.0 != "amount" && p.1 != CreatedAt && p.1 != Amount
  {
    match l
    case History => ("status", StatusField)
    case CallHistory => ("campaign", CampaignField)
    case AdminAll => ("user", UserField)
  }

  /**
   * The sort order of a listing: "amount" is largest first, the listing's
   * second key is ascending, and anything else is newest first.
   */
  function SortFor(l: Listing, sort: string): (o: SortOption)
    ensures sort == "amount" ==> o == SortOption(Amount, false)
    ensures o.field == CreatedAt <==> sort != "amount" && sort != SecondKey(l).0
    ensures o.field == CreatedAt ==> !o.ascending
    ensures o.ascending <==> sort == SecondKey(l).0
  {
    if sort == "amount" then SortOption(Amount, false)
    else if sort == SecondKey(l).0 then SortOption(SecondKey(l).1, true)
    else SortOption(CreatedAt, false)
  }

  // ---------------------------------------------------------------------------
  // The ledger as an account
  // ---------------------------------------------------------------------------

  /** What a record does to its user's balance: credits and refunds add, debits take away. */
  function Signed(b: Billing): int
  {
    match b.kind
    case Credit => b.amount
    case Debit => -b.amount
    case Refund => b.amount
  }

  /** The records of one user, in ledger order. */
  function OfUser(ledger: seq<Billing>, user: Id): seq<Billing>
  {
    if ledger == [] then []
    else
      var init := OfUser(ledger[..|ledger| - 1], user);
      if ledger[|ledger| - 1].user == user then init + [ledger[|ledger| - 1]] else init
  }

  /** The balance the records account for. */
  function SignedSum(records: seq<Billing>): int
  {
    if records == [] then 0 else SignedSum(records[..|records| - 1]) + Signed(records[|records| - 1])
  }

  /** What the ledger accounts for on one user's balance. */
  function Net(ledger: seq<Billing>, user: Id): int
  {
    SignedSum(OfUser(ledger, user))
  }

  /** A record appended to the ledger moves its user's net by its signed amount and no one else's. */
  lemma NetAppend(ledger: seq<Billing>, b: Billing, user: Id)
    ensures Net(ledger + [b], user) == Net(ledger, user) + (if b.user == user then Signed(b) else 0)
  {
    var l := ledger + [b];
    assert l[..|l| - 1] == ledger;
    if b.user == user {
      var s := OfUser(ledger, user) + [b];
      assert s[..|s| - 1] == OfUser(ledger, user);
    }
  }

  /**
   * The debits the test call and the campaign settlement write account for
   * what they take from the user: calls × rate, the amount taken from the
   * credits.
   */
  lemma DebitAccountsForCharge(ledger: seq<Billing>, id: Id, user: Id, description: string,
                               campaign: Option<Id>, calls: int, rate: int, providerRate: int)
    ensures Net(ledger + [ApiRoutes.DebitRecord(id, user, description, campaign, calls, rate, providerRate)], user)
      == Net(ledger, user) - calls * rate
  {
    NetAppend(ledger, ApiRoutes.DebitRecord(id, user, description, campaign, calls, rate, providerRate), user);
  }

  // ---------------------------------------------------------------------------
  // Buying credits
  // ---------------------------------------------------------------------------

  /** A completed purchase or grant of `amount` credits. */
  function CreditRecord(id: Id, user: Id, amount: int, description: string, paymentMethod: PaymentMethod)
    : (b: Billing)
    ensures b.kind == Credit && b.status == Completed && b.user == user
    ensures b.amount == amount && b.credits == amount && b.paymentMethod == paymentMethod
    ensures Signed(b) == amount
  {
    NewBilling(id, user, Credit, amount, amount, description).(paymentMethod := paymentMethod, status := Completed)
  }

  /**
   * POST /add-credits. A missing, zero or negative amount is refused, as is a
   * user that no longer exists. Otherwise a pending credit record is saved,
   * then marked completed (the payment is taken as successful), and the
   * amount is added to the user's credits: the ledger accounts for exactly
   * the change in the balance.
   */
  method AddCredits(db: Database, user: Id, amount: int, paymentMethod: Option<PaymentMethod>, billingId: Id)
    returns (r: Result<Billing>)
    modifies db`ledger, db.UserFrame(user)
    ensures amount <= 0 ==> r == Err(BadRequest("Invalid credit amount"))
    ensures amount > 0 && user !in db.users ==> r == Err(NotFound("User not found"))
    ensures r.Ok? <==> amount > 0 && user in db.users
    ensures r.Err? ==> db.ledger == old(db.ledger)
    ensures r.Err? && user in db.users ==> db.users[user].credits == old(db.users[user].credits)
    ensures r.Ok? ==>
      var u := db.users[user];
      r.value == CreditRecord(billingId, user, amount, "Credits added by user",
                              if paymentMethod.Some? then paymentMethod.value else CreditCard)
      && db.ledger == old(db.ledger) + [r.value]
      && u.credits == old(u.credits) + amount
      && u.credits - Net(db.ledger, user) == old(u.credits - Net(db.ledger, user))
  {
    if amount <= 0 {
      return Err(BadRequest("Invalid credit amount"));
    }
    if user !in db.users {
      return Err(NotFound("User not found"));
    }
    var u := db.users[user];
    var payment := if paymentMethod.Some? then paymentMethod.value else CreditCard;
    var billing := NewBilling(billingId, user, Credit, amount, amount, "Credits added by user")
      .(paymentMethod := payment);
    db.ledger := db.ledger + [billing];
    billing := billing.(status := Completed);
    db.ledger := db.ledger[|db.ledger| - 1 := billing];
    assert db.ledger == old(db.ledger) + [billing];
    u.credits := u.credits + amount;
    NetAppend(old(db.ledger), billing, user);
    return Ok(billing);
  }

  // ---------------------------------------------------------------------------
  // Rates
  // ---------------------------------------------------------------------------

  /**
   * PUT /admin/rates: stores each rate that is given (in cents) and leaves
   * the other as it was; the rates the dispatch charges follow.
   */
  method UpdateRates(db: Database, platformRate: Option<int>, providerRate: Option<int>, admin: Id, now: int)
    modifies db.settings
    ensures platformRate.Some? ==> db.settings.GetByKey(SettingModel.PlatformRateKey) == Some(SettingModel.Num(platformRate.value))
    ensures platformRate.None? ==> db.settings.GetByKey(SettingModel.PlatformRateKey) == old(db.settings.GetByKey(SettingModel.PlatformRateKey))
    ensures providerRate.Some? ==> db.settings.GetByKey(SettingModel.ProviderRateKey) == Some(SettingModel.Num(providerRate.value))
    ensures providerRate.None? ==> db.settings.GetByKey(SettingModel.ProviderRateKey) == old(db.settings.GetByKey(SettingModel.ProviderRateKey))
    ensures platformRate.Some? && platformRate.value != 0 ==> ApiRoutes.PlatformRate(db) == platformRate.value
    ensures forall k :: k != SettingModel.PlatformRateKey && k != SettingModel.ProviderRateKey ==>
      db.settings.GetByKey(k) == old(db.settings.GetByKey(k))
  {
    if platformRate.Some? {
      db.settings.SetByKey(SettingModel.PlatformRateKey, SettingModel.Num(platformRate.value), Some(admin), now);
    }
    if providerRate.Some? {
      db.settings.SetByKey(SettingModel.ProviderRateKey, SettingModel.Num(providerRate.value), Some(admin), now);
    }
  }

  // ---------------------------------------------------------------------------
  // Summaries over the ledger grouped by type
  // ---------------------------------------------------------------------------

  /** One group of the aggregation by type: record count and the sums of amount, credits and profit. */
  datatype Group = Group(kind: BillingType, count: nat, totalAmount: int, totalCredits: int, totalProfit: int)

  /** The number of records of a type. */
  function CountOf(records: seq<Billing>, kind: BillingType): nat
  {
    if records == [] then 0
    else CountOf(records[..|records| - 1], kind) + (if records[|records| - 1].kind == kind then 1 else 0)
  }

  /** The sum of the amounts of the records of a type. */
  function AmountOf(records: seq<Billing>, kind: BillingType): int
  {
    if records == [] then 0
    else AmountOf(records[..|records| - 1], kind) + (if records[|records| - 1].kind == kind then records[|records| - 1].amount else 0)
  }

  /** The sum of the profits of the records of a type. */
  function ProfitOf(records: seq<Billing>, kind: BillingType): int
  {
    if records == [] then 0
    else ProfitOf(records[..|records| - 1], kind) + (if records[|records| - 1].kind == kind then records[|records| - 1].profit else 0)
  }

  /**
   * The groups are what grouping the records by type gives: one group per
   * type that has records, none twice, each with its type's count and sums.
   */
  predicate Describes(groups: seq<Group>, records: seq<Billing>)
  {
    (forall i, j :: 0 <= i < j < |groups| ==> groups[i].kind != groups[j].kind)
    && (forall i :: 0 <= i < |groups| ==>
          groups[i].count == CountOf(records, groups[i].kind)
          && groups[i].totalAmount == AmountOf(records, groups[i].kind)
          && groups[i].totalProfit == ProfitOf(records, groups[i].kind))
    && (forall k: BillingType :: CountOf(records, k) > 0 ==> exists i :: 0 <= i < |groups| && groups[i].kind == k)
  }

  /** The last group of a type, the one the summaries keep when they assign per group. */
  function LastOf(groups: seq<Group>, kind: BillingType): (g: Option<Group>)
    ensures g.Some? ==> g.value.kind == kind && g.value in groups
    ensures g.None? ==> forall i :: 0 <= i < |groups| ==> groups[i].kind != kind
  {
    if groups == [] then None
    else if groups[|groups| - 1].kind == kind then Some(groups[|groups| - 1])
    else LastOf(groups[..|groups| - 1], kind)
  }

  /** The sum of the profits of the groups of a type. */
  function GroupProfit(groups: seq<Group>, kind: BillingType): int
  {
    if groups == [] then 0
    else
      var last := groups[|groups| - 1];
      GroupProfit(groups[..|groups| - 1], kind) + (if last.kind == kind then last.totalProfit else 0)
  }

  function AmountIn(g: Option<Group>): int { if g.Some? then g.value.totalAmount else 0 }

  datatype BillingSummary = BillingSummary(credits: int, debits: int, refunds: int, net: int)

  /**
   * The summary's `forEach`: each group sets the total of its type; the net
   * is credits − debits + refunds, a type without a group counting 0.
   */
  method FormatSummary(groups: seq<Group>) returns (s: BillingSummary)
    ensures s.credits == AmountIn(LastOf(groups, Credit))
    ensures s.debits == AmountIn(LastOf(groups, Debit))
    ensures s.refunds == AmountIn(LastOf(groups, Refund))
    ensures s.net == s.credits - s.debits + s.refunds
  {
    var credits, debits, refunds := 0, 0, 0;
    var i := 0;
    while i < |groups|
      invariant 0 <= i <= |groups|
      invariant credits == AmountIn(LastOf(groups[..i], Credit))
      invariant debits == AmountIn(LastOf(groups[..i], Debit))
      invariant refunds == AmountIn(LastOf(groups[..i], Refund))
    {
      assert groups[..i + 1][..i] == groups[..i];
      var item := groups[i];
      if item.kind == Credit {
        credits := item.totalAmount;
      } else if item.kind == Debit {
        debits := item.totalAmount;
      } else if item.kind == Refund {
        refunds := item.totalAmount;
      }
      i := i + 1;
    }
    assert groups[..i] == groups;
    s := BillingSummary(credits, debits, refunds, credits - debits + refunds);
  }

  /** A type's figures in the statistics: record count and total amount. */
  datatype TypeStats = TypeStats(count: int, amount: int)

  datatype BillingStats = BillingStats(credits: TypeStats, debits: TypeStats, refunds: TypeStats, totalProfit: int)

  function StatsIn(g: Option<Group>): TypeStats
  {
    if g.Some? then TypeStats(g.value.count, g.value.totalAmount) else TypeStats(0, 0)
  }

  /**
   * The statistics' `forEach`: each group sets the count and amount of its
   * type, and the profit of debit groups is added up; credits and refunds
   * carry no profit into the total.
   */
  method FormatStats(groups: seq<Group>) returns (s: BillingStats)
    ensures s.credits == StatsIn(LastOf(groups, Credit))
    ensures s.debits == StatsIn(LastOf(groups, Debit))
    ensures s.refunds == StatsIn(LastOf(groups, Refund))
    ensures s.totalProfit == GroupProfit(groups, Debit)
  {
    s := BillingStats(TypeStats(0, 0), TypeStats(0, 0), TypeStats(0, 0), 0);
    var i := 0;
    while i < |groups|
      invariant 0 <= i <= |groups|
      invariant s.credits == StatsIn(LastOf(groups[..i], Credit))
      invariant s.debits == StatsIn(LastOf(groups[..i], Debit))
      invariant s.refunds == StatsIn(LastOf(groups[..i], Refund))
      invariant s.totalProfit == GroupProfit(groups[..i], Debit)
    {
      assert groups[..i + 1][..i] == groups[..i];
      var item := groups[i];
      if item.kind == Credit {
        s := s.(credits := TypeStats(item.count, item.totalAmount));
      } else if item.kind == Debit {
        s := s.(debits := TypeStats(item.count, item.totalAmount), totalProfit := s.totalProfit + item.totalProfit);
      } else if item.kind == Refund {
        s := s.(refunds := TypeStats(item.count, item.totalAmount));
      }
      i := i + 1;
    }
    assert groups[..i] == groups;
  }

  // ---------------------------------------------------------------------------
  // The summaries agree with the ledger
  // ---------------------------------------------------------------------------

  /** A type with no records sums to nothing. */
  lemma {:induction false} NoRecordsNoSums(records: seq<Billing>, kind: BillingType)
    requires CountOf(records, kind) == 0
    ensures AmountOf(records, kind) == 0 && ProfitOf(records, kind) == 0
  {
    if records != [] {
      NoRecordsNoSums(records[..|records| - 1], kind);
    }
  }

  /** The balance the records account for, split by type. */
  lemma {:induction false} SignedSumByType(records: seq<Billing>)
    ensures SignedSum(records) == AmountOf(records, Credit) - AmountOf(records, Debit) + AmountOf(records, Refund)
  {
    if records != [] {
      SignedSumByType(records[..|records| - 1]);
    }
  }

  /** For groups with distinct types, the group of a type is the only one, so it is the last. */
  lemma {:induction false} LastOfDistinct(groups: seq<Group>, kind: BillingType, i: nat)
    requires i < |groups| && groups[i].kind == kind
    requires forall j :: i < j < |groups| ==> groups[j].kind != kind
    ensures LastOf(groups, kind) == Some(groups[i])
  {
    if i < |groups| - 1 {
      LastOfDistinct(groups[..|groups| - 1], kind, i);
    }
  }

  /** For groups with distinct types, the profit of a type's groups is that of its one group. */
  lemma {:induction false} GroupProfitDistinct(groups: seq<Group>, kind: BillingType, i: nat)
    requires i < |groups| && groups[i].kind == kind
    requires forall j :: 0 <= j < |groups| && j != i ==> groups[j].kind != kind
    ensures GroupProfit(groups, kind) == groups[i].totalProfit
  {
    if i < |groups| - 1 {
      GroupProfitDistinct(groups[..|groups| - 1], kind, i);
    } else {
      GroupProfitAbsent(groups[..|groups| - 1], kind);
    }
  }

  lemma {:induction false} GroupProfitAbsent(groups: seq<Group>, kind: BillingType)
    requires forall j :: 0 <= j < |groups| ==> groups[j].kind != kind
    ensures GroupProfit(groups, kind) == 0
  {
    if groups != [] {
      GroupProfitAbsent(groups[..|groups| - 1], kind);
    }
  }

  /** Over groups that describe the records, the kept group of a type carries that type's sums. */
  lemma KeptGroupSums(groups: seq<Group>, records: seq<Billing>, kind: BillingType)
    requires Describes(groups, records)
    ensures AmountIn(LastOf(groups, kind)) == AmountOf(records, kind)
    ensures StatsIn(LastOf(groups, kind)) == TypeStats(CountOf(records, kind), AmountOf(records, kind))
    ensures GroupProfit(groups, kind) == ProfitOf(records, kind)
  {
    if exists i :: 0 <= i < |groups| && groups[i].kind == kind {
      var i :| 0 <= i < |groups| && groups[i].kind == kind;
      LastOfDistinct(groups, kind, i);
      GroupProfitDistinct(groups, kind, i);
    } else {
      NoRecordsNoSums(records, kind);
      GroupProfitAbsent(groups, kind);
    }
  }

  /**
   * The summary's net over groups that describe the records is the balance
   * the ledger accounts for: what the records add and take away.
   */
  lemma SummaryNetIsLedgerNet(groups: seq<Group>, records: seq<Billing>, s: BillingSummary)
    requires Describes(groups, records)
    requires s.credits == AmountIn(LastOf(groups, Credit)) && s.debits == AmountIn(LastOf(groups, Debit))
    requires s.refunds == AmountIn(LastOf(groups, Refund)) && s.net == s.credits - s.debits + s.refunds
    ensures s.net == SignedSum(records)
    ensures s.credits == AmountOf(records, Credit) && s.debits == AmountOf(records, Debit)
  {
    KeptGroupSums(groups, records, Credit);
    KeptGroupSums(groups, records, Debit);
    KeptGroupSums(groups, records, Refund);
    SignedSumByType(records);
  }

  /**
   * Over groups that describe the records, the statistics' total profit is
   * the profit of the debit records alone, and each type's figures are that
   * type's record count and amount.
   */
  lemma StatsMatchLedger(groups: seq<Group>, records: seq<Billing>, s: BillingStats)
    requires Describes(groups, records)
    requires s.credits == StatsIn(LastOf(groups, Credit)) && s.debits == StatsIn(LastOf(groups, Debit))
    requires s.refunds == StatsIn(LastOf(groups, Refund)) && s.totalProfit == GroupProfit(groups, Debit)
    ensures s.totalProfit == ProfitOf(records, Debit)
    ensures s.debits == TypeStats(CountOf(records, Debit), AmountOf(records, Debit))
    ensures s.credits == TypeStats(CountOf(records, Credit), AmountOf(records, Credit))
    ensures s.refunds == TypeStats(CountOf(records, Refund), AmountOf(records, Refund))
  {
    KeptGroupSums(groups, records, Credit);
    KeptGroupSums(groups, records, Debit);
    KeptGroupSums(groups, records, Refund);
  }
}
