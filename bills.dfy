/** The bill screen (components/Bills.tsx): the ordinal suffix of a due day,
    the payment status of a bill for the current month, the bills in due-day
    order, the bill form and its validation, recording a payment and deleting
    a bill. */
module Bills {
  import opened Collections
  import opened Text
  import opened Calendar
  import opened Types

  /** getOrdinalSuffix: 4..20 take "th"; otherwise the last digit (JavaScript's
      `%`, which keeps the sign of a negative day) decides. */
  function OrdinalSuffix(day: int): string
  {
    if day > 3 && day < 21 then "th"
    else
      var last := if day >= 0 then day % 10 else -((-day) % 10);
      if last == 1 then "st" else if last == 2 then "nd" else if last == 3 then "rd" else "th"
  }

  /** The suffix of every day of a month, as English writes it: 1st, 2nd, 3rd,
      21st, 22nd, 23rd and 31st, and "th" for all the others, 11th to 13th
      included. */
  lemma OrdinalSuffixOfMonthDays(day: int)
    requires 1 <= day <= 31
    ensures OrdinalSuffix(day) == "st" <==> day == 1 || day == 21 || day == 31
    ensures OrdinalSuffix(day) == "nd" <==> day == 2 || day == 22
    ensures OrdinalSuffix(day) == "rd" <==> day == 3 || day == 23
    ensures OrdinalSuffix(day) == "th" <==> !(day in {1, 2, 3, 21, 22, 23, 31})
  {
  }

  /** Whether a stored "YYYY-MM-DD" transaction date falls in the given month
      (1..12) of the given year. */
  predicate InMonth(date: string, month: int, year: int)
  {
    var d := ParseIsoParts(date);
    d.Some? && IsValid(d.value) && d.value.month == month && d.value.year == year
  }

  /** The transactions that count as payments of `bill` in the month. */
  predicate PaysBillIn(t: Transaction, billId: string, month: int, year: int)
  {
    t.billId == Some(billId) && InMonth(t.date, month, year)
  }

  function AmountPaid(bill: Bill, transactions: seq<Transaction>, month: int, year: int): int
  {
    Sum((t: Transaction) => t.amount, Filter((t: Transaction) => PaysBillIn(t, bill.billId, month, year), transactions))
  }

  datatype PaymentStatus = PaymentStatus(amountPaid: int, isPaid: bool, progress: real, remaining: int)

  /** getPaymentStatus for the month `month` of `year` (the clock's, passed in). */
  function GetPaymentStatus(bill: Bill, transactions: seq<Transaction>, month: int, year: int): PaymentStatus
  {
    var paid := AmountPaid(bill, transactions, month, year);
    var progress := if bill.amount > 0 then paid as real / bill.amount as real * 100.0 else 100.0;
    PaymentStatus(paid, paid >= bill.amount, if progress <= 100.0 then progress else 100.0, bill.amount - paid)
  }

  /** The status agrees with itself: the bill is paid exactly when nothing
      remains, the progress never exceeds 100, is 100 for a bill of no
      amount, and for a positive amount reaches 100 exactly when the bill is
      paid. */
  lemma PaymentStatusConsistent(bill: Bill, transactions: seq<Transaction>, month: int, year: int)
    ensures var s := GetPaymentStatus(bill, transactions, month, year);
      (s.isPaid <==> s.remaining <= 0)
      && s.amountPaid + s.remaining == bill.amount
      && s.progress <= 100.0
      && (bill.amount <= 0 ==> s.progress == 100.0)
      && (bill.amount > 0 ==> (s.progress == 100.0 <==> s.isPaid))
  {
    var paid := AmountPaid(bill, transactions, month, year);
    if bill.amount > 0 {
      PercentReachesHundred(paid as real, bill.amount as real);
    }
  }

  /** A share of a positive whole reaches 100 percent exactly when the part
      reaches the whole. */
  lemma PercentReachesHundred(part: real, whole: real)
    requires whole > 0.0
    ensures part / whole * 100.0 >= 100.0 <==> part >= whole
  {
    var q := part / whole;
    assert q * whole == part;
    assert q * 100.0 >= 100.0 <==> q >= 1.0;
    if q >= 1.0 {
      assert q * whole >= 1.0 * whole;
    } else {
      assert q * whole < 1.0 * whole;
    }
  }

  /** Paid amounts only grow with more transactions, and transactions that are
      not payments of this bill in this month do not count. */
  lemma {:induction false} AmountPaidAppend(bill: Bill, a: seq<Transaction>, b: seq<Transaction>, month: int, year: int)
    ensures AmountPaid(bill, a + b, month, year) == AmountPaid(bill, a, month, year) + AmountPaid(bill, b, month, year)
  {
    var p := (t: Transaction) => PaysBillIn(t, bill.billId, month, year);
    FilterAppend(p, a, b);
    SumAppend((t: Transaction) => t.amount, Filter(p, a), Filter(p, b));
  }

  predicate SortedByDueDate(bills: seq<Bill>)
  {
    forall i, j :: 0 <= i < j < |bills| ==> bills[i].dueDate <= bills[j].dueDate
  }

  /** Places `b` before the first bill not due earlier. */
  function InsertByDueDate(b: Bill, sorted: seq<Bill>): (r: seq<Bill>)
    ensures multiset(r) == multiset(sorted) + multiset{b}
    ensures forall x :: x in r <==> x == b || x in sorted
    decreases |sorted|
  {
    if sorted == [] || b.dueDate <= sorted[0].dueDate then [b] + sorted
    else
      assert sorted == [sorted[0]] + sorted[1..];
      [sorted[0]] + InsertByDueDate(b, sorted[1..])
  }

  lemma {:induction false} InsertKeepsSorted(b: Bill, sorted: seq<Bill>)
    requires SortedByDueDate(sorted)
    ensures SortedByDueDate(InsertByDueDate(b, sorted))
    decreases |sorted|
  {
    var r := InsertByDueDate(b, sorted);
    if sorted == [] || b.dueDate <= sorted[0].dueDate {
      forall i, j | 0 <= i < j < |r|
        ensures r[i].dueDate <= r[j].dueDate
      {
        assert r[j] == sorted[j - 1];
        if i > 0 {
          assert r[i] == sorted[i - 1];
        }
      }
    } else {
      var tail := sorted[1..];
      InsertKeepsSorted(b, tail);
      var rest := InsertByDueDate(b, tail);
      assert r == [sorted[0]] + rest;
      forall i, j | 0 <= i < j < |r|
        ensures r[i].dueDate <= r[j].dueDate
      {
        assert r[j] == rest[j - 1];
        if i > 0 {
          assert r[i] == rest[i - 1];
        } else {
          assert rest[j - 1] in rest;
          if rest[j - 1] != b {
            var k :| 0 <= k < |tail| && tail[k] == rest[j - 1];
            assert tail[k] == sorted[k + 1];
          }
        }
      }
    }
  }

  /** sortedBills: `[...bills].sort((a, b) => a.dueDate - b.dueDate)`, a stable
      sort of a copy; the bills themselves keep their order. */
  function SortByDueDate(bills: seq<Bill>): (r: seq<Bill>)
    ensures multiset(r) == multiset(bills)
    ensures SortedByDueDate(r)
    decreases |bills|
  {
    if bills == [] then []
    else
      assert bills == [bills[0]] + bills[1..];
      var rest := SortByDueDate(bills[1..]);
      InsertKeepsSorted(bills[0], rest);
      InsertByDueDate(bills[0], rest)
  }

  /** The bills due on `day`. */
  function DueOn(day: int): Bill -> bool
  {
    (x: Bill) => x.dueDate == day
  }

  /** Inserting keeps the order among bills of `b`'s own due day: `b` goes
      before them all. */
  lemma {:induction false} InsertKeepsOrder(b: Bill, sorted: seq<Bill>, day: int)
    ensures Filter(DueOn(day), InsertByDueDate(b, sorted))
      == (if b.dueDate == day then [b] else []) + Filter(DueOn(day), sorted)
    decreases |sorted|
  {
    if sorted == [] || b.dueDate <= sorted[0].dueDate {
      FilterCons(DueOn(day), b, sorted);
    } else {
      var rest := InsertByDueDate(b, sorted[1..]);
      InsertKeepsOrder(b, sorted[1..], day);
      FilterPastHead(DueOn(day), sorted[0], rest, sorted[1..],
        if b.dueDate == day then [b] else []);
      assert sorted == [sorted[0]] + sorted[1..];
    }
  }

  /** One step of `InsertKeepsOrder` past a head that stays first: what the
      filter gains in the tail it gains behind the head, provided the head and
      the gained values are not both kept. */
  lemma FilterPastHead(p: Bill -> bool, head: Bill, rest: seq<Bill>, tail: seq<Bill>, gained: seq<Bill>)
    requires Filter(p, rest) == gained + Filter(p, tail)
    requires gained == [] || !p(head)
    ensures Filter(p, [head] + rest) == gained + Filter(p, [head] + tail)
  {
    FilterCons(p, head, rest);
    FilterCons(p, head, tail);
    ConcatSwap(if p(head) then [head] else [], gained, Filter(p, tail));
  }

  /** Two lists of which one is empty can be put before a third in either order. */
  lemma ConcatSwap(a: seq<Bill>, b: seq<Bill>, c: seq<Bill>)
    requires a == [] || b == []
    ensures a + (b + c) == b + (a + c)
  {
    if a == [] {
      assert a + (b + c) == b + c == b + (a + c);
    } else {
      assert a + (b + c) == a + c == b + (a + c);
    }
  }

  /** The sort is stable: the bills due on any one day appear in the order they
      have in the list. */
  lemma {:induction false} SortIsStable(bills: seq<Bill>, day: int)
    ensures Filter(DueOn(day), SortByDueDate(bills)) == Filter(DueOn(day), bills)
    decreases |bills|
  {
    if bills != [] {
      SortIsStable(bills[1..], day);
      InsertKeepsOrder(bills[0], SortByDueDate(bills[1..]), day);
      assert bills == [bills[0]] + bills[1..];
      FilterCons(DueOn(day), bills[0], bills[1..]);
    }
  }

  /** The bill modal's text fields. */
  datatype BillForm = BillForm(name: string, amount: string, dueDate: string, categoryId: string)

  datatype Validation = Invalid | Valid(cents: int, dueDay: int)

  /** handleSaveBill's checks: no field blank (the category must be non-empty),
      the amount read by `Math.round(parseFloat(amount) * 100)` a positive
      number of cents, the due day read by `parseInt` between 1 and 31. */
  function ValidateBillForm(form: BillForm): (r: Validation)
    ensures r.Valid? ==> r.cents > 0 && 1 <= r.dueDay <= 31
  {
    if Trim(form.name) == "" || Trim(form.amount) == "" || Trim(form.dueDate) == "" || form.categoryId == "" then Invalid
    else
      match ParseCents(form.amount)
      case None => Invalid
      case Some(cents) =>
        match ParseInt(form.dueDate)
        case None => Invalid
        case Some(day) =>
          if cents <= 0 || day < 1 || day > 31 then Invalid else Valid(cents, day)
  }

  /** A form passes exactly when its fields are filled in, the amount reads as
      a positive number of cents and the due day as a day 1..31. */
  lemma ValidateBillFormIff(form: BillForm)
    ensures ValidateBillForm(form).Valid? <==>
      !IsBlank(form.name) && !IsBlank(form.amount) && !IsBlank(form.dueDate) && form.categoryId != ""
      && ParseCents(form.amount).Some? && ParseCents(form.amount).value > 0
      && ParseInt(form.dueDate).Some? && 1 <= ParseInt(form.dueDate).value <= 31
    ensures ValidateBillForm(form).Valid? ==>
      ValidateBillForm(form) == Valid(ParseCents(form.amount).value, ParseInt(form.dueDate).value)
  {
    TrimEmptyIffBlank(form.name);
    TrimEmptyIffBlank(form.amount);
    TrimEmptyIffBlank(form.dueDate);
  }

  /** handleSaveBill: an invalid form changes nothing; editing replaces every
      bill with the edited bill's id by the edited bill with the form's
      values; adding puts a new bill with the fresh id first. */
  function WithSavedBill(bills: seq<Bill>, editing: Option<Bill>, form: BillForm, freshId: string): (r: seq<Bill>)
  {
    match ValidateBillForm(form)
    case Invalid => bills
    case Valid(cents, day) =>
      match editing
      case Some(edited) =>
        var updated := edited.(name := form.name, amount := cents, dueDate := day, categoryId := form.categoryId);
        seq(|bills|, i requires 0 <= i < |bills| => if bills[i].billId == updated.billId then updated else bills[i])
      case None => [Bill(freshId, form.name, cents, day, form.categoryId)] + bills
  }

  /** Saving keeps the bill list's shape: an edit keeps length, order and
      every bill of another id; an add puts exactly one bill in front. */
  lemma SaveBillShape(bills: seq<Bill>, editing: Option<Bill>, form: BillForm, freshId: string)
    ensures ValidateBillForm(form).Invalid? ==> WithSavedBill(bills, editing, form, freshId) == bills
    ensures ValidateBillForm(form).Valid? && editing.Some? ==>
      var r := WithSavedBill(bills, editing, form, freshId);
      var v := ValidateBillForm(form);
      |r| == |bills|
      && (forall i :: 0 <= i < |bills| && bills[i].billId != editing.value.billId ==> r[i] == bills[i])
      && (forall i :: 0 <= i < |bills| && bills[i].billId == editing.value.billId ==>
            r[i] == Bill(editing.value.billId, form.name, v.cents, v.dueDay, form.categoryId))
    ensures ValidateBillForm(form).Valid? && editing.None? ==>
      var r := WithSavedBill(bills, editing, form, freshId);
      |r| == |bills| + 1 && r[1..] == bills && r[0].billId == freshId && r[0].amount > 0
  {
  }

  /** handleOpenEditModal: the form of an existing bill, amount as
      `(amount / 100).toFixed(2)` and the day as `String(dueDate)`. */
  function EditForm(bill: Bill): BillForm
  {
    BillForm(bill.name, CentsToFixed(bill.amount), IntToString(bill.dueDate), bill.categoryId)
  }

  /** `toFixed(2)` text is never blank: it has its decimal point. */
  lemma FixedIsNotBlank(cents: int)
    ensures !IsBlank(CentsToFixed(cents))
  {
    var a := if cents < 0 then -cents else cents;
    var s := CentsToFixed(cents);
    var whole, fraction := NatToString(a / 100), TwoDigits(a % 100);
    assert s == (if cents < 0 then "-" else "") + whole + "." + fraction;
    assert s[|s| - 3] == '.';
  }

  /** The edit form reads back to the bill's own cents and due day. */
  lemma EditFormRoundTrip(bill: Bill)
    requires !IsBlank(bill.name) && bill.categoryId != ""
    requires bill.amount > 0 && 1 <= bill.dueDate <= 31
    ensures ValidateBillForm(EditForm(bill)) == Valid(bill.amount, bill.dueDate)
  {
    var form := EditForm(bill);
    CentsRoundTrip(bill.amount);
    IntRoundTrip(bill.dueDate);
    FixedIsNotBlank(bill.amount);
    assert form.dueDate == NatToString(bill.dueDate);
    assert IsDigit(form.dueDate[0]);
    ValidateBillFormIff(form);
  }

  /** Opening a bill for editing and saving without changes leaves the bills as
      they were, provided no other bill shares its id. */
  lemma UnchangedEditKeepsBills(bills: seq<Bill>, bill: Bill, freshId: string)
    requires !IsBlank(bill.name) && bill.categoryId != ""
    requires bill.amount > 0 && 1 <= bill.dueDate <= 31
    requires forall i :: 0 <= i < |bills| && bills[i].billId == bill.billId ==> bills[i] == bill
    ensures WithSavedBill(bills, Some(bill), EditForm(bill), freshId) == bills
  {
    EditFormRoundTrip(bill);
  }

  /** handleDeleteBill: drops every bill with the id. */
  function WithoutBill(bills: seq<Bill>, billId: string): (r: seq<Bill>)
    ensures forall b :: b in r <==> b in bills && b.billId != billId
    ensures forall b :: b in bills && b.billId != billId ==> multiset(r)[b] == multiset(bills)[b]
  {
    FilterCount((b: Bill) => b.billId != billId, bills);
    Filter((b: Bill) => b.billId != billId, bills)
  }

  /** handleAddPayment: `parseFloat(text) || 0` must be positive and a bill
      must be chosen; the payment is recorded first in the list as an expense
      of `Math.round(value * 100)` cents in the bill's category, dated today. */
  function WithPayment(transactions: seq<Transaction>, bill: Option<Bill>, text: string, today: Date, freshId: string): (r: seq<Transaction>)
    requires IsValid(today)
    ensures bill.None? || ParseFloatOrZero(text) <= 0.0 ==> r == transactions
    ensures bill.Some? && ParseFloatOrZero(text) > 0.0 ==>
      |r| == |transactions| + 1 && r[1..] == transactions
      && r[0].billId == Some(bill.value.billId) && r[0].categoryId == bill.value.categoryId
      && r[0].kind == Expense && r[0].amount == Round(ParseFloatOrZero(text) * 100.0)
      && r[0].date == FormatIso(today) && r[0].description == "Payment for " + bill.value.name
      && r[0].transactionId == freshId
  {
    var value := ParseFloatOrZero(text);
    if bill.None? || value <= 0.0 then transactions
    else
      var b := bill.value;
      [Transaction(freshId, b.categoryId, Round(value * 100.0), Expense, "Payment for " + b.name, FormatIso(today), Some(b.billId))]
        + transactions
  }

  /** A payment recorded today counts towards the bill's status for the current
      month: the amount paid grows by exactly the recorded cents. */
  lemma PaymentCountsThisMonth(transactions: seq<Transaction>, bill: Bill, text: string, today: Date, freshId: string)
    requires IsValid(today) && 0 <= today.year <= 9999
    requires ParseFloatOrZero(text) > 0.0
    ensures AmountPaid(bill, WithPayment(transactions, Some(bill), text, today, freshId), today.month, today.year)
      == AmountPaid(bill, transactions, today.month, today.year) + Round(ParseFloatOrZero(text) * 100.0)
  {
    var r := WithPayment(transactions, Some(bill), text, today, freshId);
    IsoRoundTrip(today);
    assert r == [r[0]] + transactions;
    AmountPaidAppend(bill, [r[0]], transactions, today.month, today.year);
    assert PaysBillIn(r[0], bill.billId, today.month, today.year);
    assert [r[0]][1..] == [];
  }

  /** `parseFloat("0.004")` is exactly 0.004. */
  lemma ParsesTinyAmount()
    ensures ParseFloatOrZero("0.004") == 0.004
  {
    assert DecimalValue("0", "004") == 0.004 by {
      assert DigitsValue("004") == 4 by {
        assert "004"[..2] == "00" && "00"[..1] == "0" && "0"[..0] == [];
      }
      assert DigitsValue("0") == 0;
      assert Pow10(3) == 1000;
    }
    assert ParseFloat("0.004") == Some(0.004) by {
      assert DecimalText(false, "0", "004") == "0.004";
      ParseFloatDecimal(false, "0", "004");
    }
  }

  /** A positive payment text so small that it rounds to no cents is still
      recorded, as a transaction of 0. */
  lemma TinyPaymentRecordsZero(transactions: seq<Transaction>, bill: Bill, today: Date)
    requires IsValid(today)
    ensures var r := WithPayment(transactions, Some(bill), "0.004", today, "t");
      |r| == |transactions| + 1 && r[0].amount == 0
  {
    ParsesTinyAmount();
  }

  /** The date the source compares, `new Date(date)` read in local time: the
      stored date is midnight UTC, so a zone behind UTC (`offsetMinutes < 0`)
      sees the evening of the day before. */
  predicate InMonthAsWritten(date: string, month: int, year: int, offsetMinutes: int)
    requires -1440 < offsetMinutes < 1440
  {
    var d := ParseIsoParts(date);
    d.Some? && IsValid(d.value)
    && var local := if offsetMinutes < 0 then PreviousDay(d.value) else d.value;
       local.month == month && local.year == year
  }

  /** The calendar day before `d`. */
  function PreviousDay(d: Date): (r: Date)
    requires IsValid(d)
    ensures IsValid(r) && NextDay(r) == d
  {
    if d.day > 1 then Date(d.year, d.month, d.day - 1)
    else if d.month > 1 then Date(d.year, d.month - 1, DaysInMonth(d.year, d.month - 1))
    else Date(d.year - 1, 12, 31)
  }

  /** In a zone five hours behind UTC, a payment stored as 2024-08-01 is not
      counted for August 2024 by the month test as written, though it is an
      August payment. */
  lemma FirstOfMonthPaymentMissed()
    ensures !InMonthAsWritten("2024-08-01", 8, 2024, -300)
    ensures InMonth("2024-08-01", 8, 2024)
  {
    assert FormatIso(Date(2024, 8, 1)) == "2024-08-01";
    IsoRoundTrip(Date(2024, 8, 1));
  }

  /** The bill component's state. */
  class BillBook {
    var bills: seq<Bill>
    var transactions: seq<Transaction>

    constructor(bills: seq<Bill>, transactions: seq<Transaction>)
      ensures this.bills == bills && this.transactions == transactions
    {
      this.bills := bills;
      this.transactions := transactions;
    }

    /** handleSaveBill, with the bill being edited (None when adding). */
    method SaveBill(editing: Option<Bill>, form: BillForm, freshId: string)
      modifies this
      ensures bills == WithSavedBill(old(bills), editing, form, freshId)
      ensures transactions == old(transactions)
    {
      bills := WithSavedBill(bills, editing, form, freshId);
    }

    /** handleAddPayment for the bill the payment modal was opened on. */
    method AddPayment(bill: Option<Bill>, text: string, today: Date, freshId: string)
      requires IsValid(today)
      modifies this
      ensures transactions == WithPayment(old(transactions), bill, text, today, freshId)
      ensures bills == old(bills)
    {
      transactions := WithPayment(transactions, bill, text, today, freshId);
    }

    /** handleDeleteBill for the bill the delete modal was opened on. */
    method DeleteBill(billId: string)
      modifies this
      ensures bills == WithoutBill(old(bills), billId)
      ensures transactions == old(transactions)
    {
      bills := WithoutBill(bills, billId);
    }
  }
}
