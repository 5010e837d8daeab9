/**
 * The subscription state of a company, src/models/Company.ts: whether the
 * subscription is active at a given moment, and its renewal for a number of
 * months.
 *
 * A `Date` is modelled by its local calendar reading (year, month 0-11,
 * day of month, millisecond of the day); comparing two of them is comparing
 * those readings in order, as comparing their time values does when the
 * zone offset does not change between them.
 */
module CompanyModel {
  import opened Wrappers

  datatype SubscriptionStatus = Active | Expired | Suspended | Cancelled
  datatype PaymentStatus = Pending | Paid | Failed | Refunded

  function LeapYear(y: int): bool {
    (y % 4 == 0 && y % 100 != 0) || y % 400 == 0
  }

  function DaysInMonth(y: int, m: int): (n: int)
    requires 0 <= m < 12
    ensures 28 <= n <= 31
  {
    if m == 1 then (if LeapYear(y) then 29 else 28)
    else if m == 3 || m == 5 || m == 8 || m == 10 then 30
    else 31
  }

  /** A local date and time; `ms` is the millisecond of the day. */
  datatype DateTime = DateTime(year: int, month: int, day: int, ms: int)

  predicate ValidDate(d: DateTime) {
    0 <= d.month < 12 && 1 <= d.day <= DaysInMonth(d.year, d.month) && 0 <= d.ms < 86400000
  }

  /** `a <= b` on two dates. */
  predicate NotAfter(a: DateTime, b: DateTime) {
    a.year < b.year
    || (a.year == b.year && a.month < b.month)
    || (a.year == b.year && a.month == b.month && a.day < b.day)
    || (a.year == b.year && a.month == b.month && a.day == b.day && a.ms <= b.ms)
  }

  /**
   * `d.setMonth(d.getMonth() + months)`: the month count carries into the
   * year, and a day past the end of the target month runs on into the next
   * month (31 January plus one month is 2 or 3 March).
   */
  function AddMonths(d: DateTime, months: int): (r: DateTime)
    requires ValidDate(d)
    ensures ValidDate(r) && r.ms == d.ms
    ensures r.year * 12 + r.month == d.year * 12 + d.month + months
            || r.year * 12 + r.month == d.year * 12 + d.month + months + 1
  {
    var target := d.month + months;
    var year := d.year + target / 12;
    var month := target % 12;
    var length := DaysInMonth(year, month);
    if d.day <= length then DateTime(year, month, d.day, d.ms)
    else if month == 11 then DateTime(year + 1, 0, d.day - length, d.ms)
    else DateTime(year, month + 1, d.day - length, d.ms)
  }

  /** Adding no months changes nothing. */
  lemma AddNoMonths(d: DateTime)
    requires ValidDate(d)
    ensures AddMonths(d, 0) == d
  {
  }

  /** Adding a non-negative number of months never goes back, and a negative one always does. */
  lemma AddMonthsOrder(d: DateTime, months: int)
    requires ValidDate(d)
    ensures NotAfter(d, AddMonths(d, months)) <==> months >= 0
  {
    var r := AddMonths(d, months);
    var target := d.month + months;
    var year := d.year + target / 12;
    var month := target % 12;
    assert year * 12 + month == d.year * 12 + d.month + months;
    if months < 0 && r.year * 12 + r.month == d.year * 12 + d.month {
      // only a day that ran on from the month before lands back in d's month
      assert d.day > DaysInMonth(year, month);
      assert r.day < d.day;
    }
  }

  /** The company document, with the fields renewal and the subscription check use. */
  class Company {
    var name: string
    var email: string
    var phone: string
    var address: string
    var city: string
    var country: Option<string>
    var taxId: Option<string>
    var subscriptionStatus: SubscriptionStatus
    var subscriptionStartDate: DateTime
    var subscriptionEndDate: Option<DateTime>
    var subscriptionAmount: real
    var subscriptionCurrency: Option<string>
    var paymentStatus: PaymentStatus
    var lastPaymentDate: Option<DateTime>
    var nextPaymentDate: Option<DateTime>
    var paymentReference: Option<string>
    var active: bool

    /** A new document with the schema's defaults. */
    constructor (name: string, email: string, phone: string, address: string, city: string, now: DateTime)
      ensures this.name == name && this.email == email && this.phone == phone
      ensures this.address == address && this.city == city
      ensures country == None && taxId == None && subscriptionCurrency == None && paymentReference == None
      ensures subscriptionStatus == Active && subscriptionStartDate == now && subscriptionEndDate == None
      ensures subscriptionAmount == 0.0 && paymentStatus == Pending
      ensures lastPaymentDate == None && nextPaymentDate == None && active
    {
      this.name := name;
      this.email := email;
      this.phone := phone;
      this.address := address;
      this.city := city;
      country := None;
      taxId := None;
      subscriptionStatus := Active;
      subscriptionStartDate := now;
      subscriptionEndDate := None;
      subscriptionAmount := 0.0;
      subscriptionCurrency := None;
      paymentStatus := Pending;
      lastPaymentDate := None;
      nextPaymentDate := None;
      paymentReference := None;
      active := true;
    }

    /**
     * `isSubscriptionActive()` at the moment `now`: only an active status
     * counts, and an end date, when there is one, must not have passed.
     */
    predicate IsSubscriptionActive(now: DateTime)
      reads this
    {
      if subscriptionStatus != Active then false
      else if subscriptionEndDate.Some? then NotAfter(now, subscriptionEndDate.value)
      else true
    }

    /**
     * `renewSubscription(months)` at the moment `now` (every `new Date()` of
     * the method reads the same clock); an absent `months` is 1.
     */
    method RenewSubscription(now: DateTime, months: Option<int>)
      requires ValidDate(now)
      modifies this
      ensures subscriptionStatus == Active && paymentStatus == Paid
      ensures subscriptionStartDate == now && lastPaymentDate == Some(now)
      ensures subscriptionEndDate == Some(AddMonths(now, months.GetOr(1)))
      ensures nextPaymentDate == subscriptionEndDate
      ensures name == old(name) && email == old(email) && phone == old(phone) && address == old(address)
      ensures city == old(city) && country == old(country) && taxId == old(taxId)
      ensures subscriptionAmount == old(subscriptionAmount) && subscriptionCurrency == old(subscriptionCurrency)
      ensures paymentReference == old(paymentReference) && active == old(active)
      ensures IsSubscriptionActive(now) <==> months.GetOr(1) >= 0
    {
      var m := months.GetOr(1);
      var end := AddMonths(now, m);
      AddMonthsOrder(now, m);
      subscriptionStatus, subscriptionStartDate, subscriptionEndDate := Active, now, Some(end);
      paymentStatus, lastPaymentDate, nextPaymentDate := Paid, Some(now), Some(end);
    }
  }

  /** Whatever the dates, a status other than active is not an active subscription. */
  lemma InactiveStatusNeverActive(c: Company, now: DateTime)
    requires c.subscriptionStatus != Active
    ensures !c.IsSubscriptionActive(now)
  {
  }

  /**
   * With an active status the subscription is active up to and including
   * its end date, and always when it has none.
   */
  lemma ActiveUntilEndDate(c: Company, now: DateTime)
    requires c.subscriptionStatus == Active
    ensures c.subscriptionEndDate.None? ==> c.IsSubscriptionActive(now)
    ensures c.subscriptionEndDate.Some? ==> (c.IsSubscriptionActive(now) <==> NotAfter(now, c.subscriptionEndDate.value))
    ensures c.subscriptionEndDate.Some? ==> c.IsSubscriptionActive(c.subscriptionEndDate.value)
  {
  }
}
