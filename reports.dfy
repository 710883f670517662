/** The sales report: revenue, the professionals' commission, profit and margin over
    the listed sales, the query the period and professional filters build, and the
    refund of a sale. */
module Reports {
  import opened Values
  import opened Text
  import Checkout

  /** A finalised sale as the report reads it back, with the commission rate of the
      joined professional when the query brings it. */
  datatype ReportRow = ReportRow(
    id: int,
    collaboratorId: int,
    finalValue: real,
    serviceValue: Option<real>,
    appointmentId: Option<int>,
    agendamentoId: Option<int>,
    commissionRate: Option<real>)

  // ---------------------------------------------------------------------------
  // Rows as the report query returns them

  /** As written, the report selects `users(name)` only, so the joined professional
      carries no commission rate; and no sale is ever stored with an
      `agendamento_id`. */
  function StoredRowAsWritten(id: int, s: Checkout.Sale, collaboratorRate: Option<real>): (r: ReportRow)
    ensures r.commissionRate == None && r.agendamentoId == None
    ensures r.finalValue == s.finalValue && r.serviceValue == Some(s.serviceValue)
  {
    ReportRow(id, s.collaboratorId, s.finalValue, Some(s.serviceValue), Some(s.appointmentId), None, None)
  }

  /** The row with the professional's rate joined, as the checkout query joins it. */
  function StoredRow(id: int, s: Checkout.Sale, collaboratorRate: Option<real>): (r: ReportRow)
    ensures r.commissionRate == collaboratorRate && r.appointmentId == Some(s.appointmentId)
    ensures r.finalValue == s.finalValue && r.serviceValue == Some(s.serviceValue)
  {
    ReportRow(id, s.collaboratorId, s.finalValue, Some(s.serviceValue), Some(s.appointmentId), None, collaboratorRate)
  }

  // ---------------------------------------------------------------------------
  // Totals

  /** `calculateTotal`: the sum of `final_value`, 0 for no rows. */
  function TotalRevenue(rows: seq<ReportRow>): real
  {
    if rows == [] then 0.0 else TotalRevenue(rows[..|rows| - 1]) + rows[|rows| - 1].finalValue
  }

  /** The professional's rate, 50 when missing or 0. */
  function RowRate(r: ReportRow): real
  {
    RealOr(r.commissionRate, 50.0)
  }

  /** The commission base: the recorded service value when present and positive, the
      final value for older rows without one. */
  function CommissionBase(r: ReportRow): (b: real)
    ensures r.serviceValue.Some? && r.serviceValue.value > 0.0 ==> b == r.serviceValue.value
    ensures r.serviceValue.None? || r.serviceValue.value <= 0.0 ==> b == r.finalValue
  {
    if r.serviceValue.Some? && r.serviceValue.value > 0.0 then r.serviceValue.value else r.finalValue
  }

  function RowCommission(r: ReportRow): real
  {
    CommissionBase(r) * (RowRate(r) / 100.0)
  }

  /** `calculateCommission`. */
  function TotalCommission(rows: seq<ReportRow>): real
  {
    if rows == [] then 0.0 else TotalCommission(rows[..|rows| - 1]) + RowCommission(rows[|rows| - 1])
  }

  /** `calculateProfit`: revenue less commission. */
  function Profit(rows: seq<ReportRow>): real
  {
    TotalRevenue(rows) - TotalCommission(rows)
  }

  /** What one sale leaves the salon: its final value less its commission. */
  function RowProfit(r: ReportRow): real
  {
    r.finalValue - RowCommission(r)
  }

  function SumRowProfits(rows: seq<ReportRow>): real
  {
    if rows == [] then 0.0 else SumRowProfits(rows[..|rows| - 1]) + RowProfit(rows[|rows| - 1])
  }

  /** The profit is the sum, sale by sale, of what each sale leaves the salon. */
  lemma {:induction false} ProfitIsSumOfRowProfits(rows: seq<ReportRow>)
    ensures Profit(rows) == SumRowProfits(rows)
  {
    if rows != [] {
      ProfitIsSumOfRowProfits(rows[..|rows| - 1]);
    }
  }

  /** Sales with non-negative values and rates: the commission is non-negative, so the
      profit never exceeds the revenue. */
  lemma {:induction false} ProfitAtMostRevenue(rows: seq<ReportRow>)
    requires forall i :: 0 <= i < |rows| ==> rows[i].finalValue >= 0.0
    requires forall i :: 0 <= i < |rows| ==> rows[i].commissionRate.Some? ==> rows[i].commissionRate.value >= 0.0
    ensures TotalCommission(rows) >= 0.0
    ensures Profit(rows) <= TotalRevenue(rows)
  {
    if rows != [] {
      var last := rows[|rows| - 1];
      ProfitAtMostRevenue(rows[..|rows| - 1]);
      assert CommissionBase(last) >= 0.0;
      assert RowRate(last) / 100.0 >= 0.0;
      assert RowCommission(last) >= 0.0;
    }
  }

  /** The margin badge: profit over `total || 1`, in percent. */
  function MarginPercent(rows: seq<ReportRow>): (m: real)
    ensures TotalRevenue(rows) != 0.0 ==> m * TotalRevenue(rows) == Profit(rows) * 100.0
    ensures TotalRevenue(rows) == 0.0 ==> m == Profit(rows) * 100.0
  {
    var total := TotalRevenue(rows);
    Profit(rows) / (if total != 0.0 then total else 1.0) * 100.0
  }

  /** The sale of the checkout example (service 100, products 35, 10 off, paying 125)
      reports a commission of 50 at the default rate, a profit of 75 and a margin of
      60%. */
  lemma CheckoutExampleReport(s: Checkout.Sale)
    requires s == Checkout.SaleRecord(Checkout.PendingAppointment(1, 7, Some(100.0), None), 100.0,
                                      [Checkout.Product(1, "A", 20.0), Checkout.Product(2, "B", 15.0)],
                                      10.0, Checkout.ByValue, "pix")
    ensures var rows := [StoredRow(1, s, None)];
      TotalRevenue(rows) == 125.0 && TotalCommission(rows) == 50.0
      && Profit(rows) == 75.0 && MarginPercent(rows) == 60.0
  {
    Checkout.FlatDiscountExample();
    var rows := [StoredRow(1, s, None)];
    assert rows[..0] == [];
  }

  // ---------------------------------------------------------------------------
  // The report query

  /** The dates the clock gives when the report is loaded, as `YYYY-MM-DD`: the first
      of this month, today, the first and last of last month, and the first of the
      year. */
  datatype Calendar = Calendar(
    monthStart: string,
    today: string,
    lastMonthStart: string,
    lastMonthEnd: string,
    yearStart: string)

  /** The bounds on `created_at` and the professional the query is restricted to. */
  datatype SalesQuery = SalesQuery(
    lower: Option<string>,
    upper: Option<string>,
    collaborator: Option<string>)

  function DayStart(day: string): string
  {
    day + "T00:00:00Z"
  }

  function DayEnd(day: string): string
  {
    day + "T23:59:59Z"
  }

  /** `fetchSales`' query: a period from `filterType` and a professional unless the
      selection is `'all'`. `start` and `end` are the custom range's dates. */
  function BuildQuery(filterType: string, cal: Calendar, start: string, end: string, selectedCollab: string): (q: SalesQuery)
    ensures q.collaborator.None? <==> selectedCollab == "all"
    ensures q.collaborator.Some? ==> q.collaborator.value == selectedCollab
    ensures filterType == "year" ==> q.lower.Some? && q.upper.None?
    ensures filterType == "month" || filterType == "last_month" || filterType == "custom" ==>
      q.lower.Some? && q.upper.Some?
    ensures filterType != "month" && filterType != "last_month" && filterType != "year" && filterType != "custom" ==>
      q.lower.None? && q.upper.None?
    ensures filterType == "custom" ==> q.lower == Some(DayStart(start)) && q.upper == Some(DayEnd(end))
    ensures filterType == "month" ==> q.lower == Some(DayStart(cal.monthStart)) && q.upper == Some(DayEnd(cal.today))
  {
    var period: (Option<string>, Option<string>) :=
      if filterType == "month" then (Some(DayStart(cal.monthStart)), Some(DayEnd(cal.today)))
      else if filterType == "last_month" then (Some(DayStart(cal.lastMonthStart)), Some(DayEnd(cal.lastMonthEnd)))
      else if filterType == "year" then (Some(DayStart(cal.yearStart)), None)
      else if filterType == "custom" then (Some(DayStart(start)), Some(DayEnd(end)))
      else (None, None);
    SalesQuery(period.0, period.1, if selectedCollab != "all" then Some(selectedCollab) else None)
  }

  // ---------------------------------------------------------------------------
  // Refund

  /** The appointment the refund reopens: as written, the row's `agendamento_id`. */
  function RefundTargetAsWritten(r: ReportRow): (t: Option<int>)
    ensures t.Some? <==> TruthyId(r.agendamentoId)
    ensures t.Some? ==> t == r.agendamentoId
  {
    if TruthyId(r.agendamentoId) then r.agendamentoId else None
  }

  /** The appointment the refund reopens: the `appointment_id` the checkout stores. */
  function RefundTarget(r: ReportRow): (t: Option<int>)
    ensures t.Some? <==> TruthyId(r.appointmentId)
    ensures t.Some? ==> t == r.appointmentId
  {
    if TruthyId(r.appointmentId) then r.appointmentId else None
  }

  /** As written, refunding any sale the checkout stored never reopens its booking,
      while the corrected target is the booking the sale was made for. */
  lemma RefundNeverReopensAsWritten(id: int, s: Checkout.Sale, rate: Option<real>)
    requires s.appointmentId != 0
    ensures RefundTargetAsWritten(StoredRowAsWritten(id, s, rate)) == None
    ensures RefundTargetAsWritten(StoredRow(id, s, rate)) == None
    ensures RefundTarget(StoredRow(id, s, rate)) == Some(s.appointmentId)
  {
  }

  /** As written, every reported commission uses the default 50%, whatever the
      professional's rate; with the rate joined, a 40% professional's commission on a
      service of 100 is 40. */
  lemma CommissionRateIgnoredAsWritten(id: int, s: Checkout.Sale, rate: Option<real>)
    requires s.serviceValue == 100.0 && rate == Some(40.0)
    ensures RowCommission(StoredRowAsWritten(id, s, rate)) == 50.0
    ensures RowCommission(StoredRow(id, s, rate)) == 40.0
  {
  }

  /** With the rate joined, the report charges every stored sale the commission the
      checkout computed for it; as written, it charges the default rate's. */
  lemma ReportedCommissionMatchesCheckout(id: int, s: Checkout.Sale, rate: Option<real>)
    requires s.serviceValue > 0.0
    ensures RowCommission(StoredRow(id, s, rate)) == Checkout.Commission(s.serviceValue, rate)
    ensures RowCommission(StoredRowAsWritten(id, s, rate)) == Checkout.Commission(s.serviceValue, None)
  {
    var rr := RealOr(rate, 50.0);
    assert s.serviceValue * (rr / 100.0) == s.serviceValue * rr / 100.0;
    assert s.serviceValue * (50.0 / 100.0) == s.serviceValue * 50.0 / 100.0;
  }

  /** With the corrected target, refunding a sale the checkout stored reopens the
      booking it was made for (when the update succeeds) and no other; as written, it
      leaves every status as it was. */
  lemma RefundReopensSaleBooking(id: int, s: Checkout.Sale, rate: Option<real>, status: map<int, string>)
    requires s.appointmentId != 0 && s.appointmentId in status
    ensures Reopen(status, RefundTarget(StoredRow(id, s, rate)), true)
      == status[s.appointmentId := "confirmed"]
    ensures Reopen(status, RefundTargetAsWritten(StoredRowAsWritten(id, s, rate)), true) == status
  {
    var m := Reopen(status, RefundTarget(StoredRow(id, s, rate)), true);
    assert RefundTarget(StoredRow(id, s, rate)) == Some(s.appointmentId);
    assert m.Keys == status[s.appointmentId := "confirmed"].Keys;
  }

  /** `sales.filter(s => s.id !== id)`: the rows the delete leaves. */
  function WithoutSale(rows: seq<ReportRow>, id: int): (r: seq<ReportRow>)
    ensures forall x :: x in r <==> x in rows && x.id != id
    ensures |r| <= |rows|
  {
    if rows == [] then []
    else if rows[0].id == id then WithoutSale(rows[1..], id)
    else [rows[0]] + WithoutSale(rows[1..], id)
  }

  /** `update({ status: 'confirmed' }).eq('id', target)`: a missing target, a failed
      update or an unknown id changes nothing. */
  function Reopen(status: map<int, string>, target: Option<int>, updateOk: bool): (m: map<int, string>)
    ensures m.Keys == status.Keys
    ensures forall k :: k in status && Some(k) != target ==> m[k] == status[k]
    ensures target.Some? && updateOk && target.value in status ==> m[target.value] == "confirmed"
    ensures target.None? || !updateOk ==> m == status
  {
    if target.Some? && updateOk && target.value in status then status[target.value := "confirmed"] else status
  }

  /** A notification `handleRefund` raises. */
  datatype Notice = Notice(title: string, message: string, kind: string)

  const RefundDone := Notice("Venda Estornada", "A movimenta\U{00E7}\U{00E3}o financeira foi removida e o agendamento reaberto.", "info")
  const RefundFailed := Notice("Erro", "N\U{00E3}o foi poss\U{00ED}vel processar o estorno.", "error")

  /** The finalised-sales table and the bookings' statuses, as the refund changes them. */
  class SalesLedger {
    var sales: seq<ReportRow>
    var appointmentStatus: map<int, string>
    var confirmOpen: bool

    constructor (sales0: seq<ReportRow>, status0: map<int, string>)
      ensures sales == sales0 && appointmentStatus == status0 && !confirmOpen
    {
      sales := sales0;
      appointmentStatus := status0;
      confirmOpen := false;
    }

    /** The confirmed refund: delete the sale; only when that succeeds, reopen its
        booking (the update's own failure is not reported). The dialog closes either
        way. */
    method Refund(sale: ReportRow, deleteOk: bool, updateOk: bool) returns (notice: Notice)
      modifies this
      ensures !confirmOpen
      ensures deleteOk ==>
        && sales == WithoutSale(old(sales), sale.id)
        && appointmentStatus == Reopen(old(appointmentStatus), RefundTarget(sale), updateOk)
        && notice == RefundDone
      ensures !deleteOk ==>
        sales == old(sales) && appointmentStatus == old(appointmentStatus) && notice == RefundFailed
    {
      if !deleteOk {
        notice := RefundFailed;
      } else {
        sales := WithoutSale(sales, sale.id);
        appointmentStatus := Reopen(appointmentStatus, RefundTarget(sale), updateOk);
        notice := RefundDone;
      }
      confirmOpen := false;
    }

    /** The refund as written, reopening the booking named by `agendamento_id`. */
    method RefundAsWritten(sale: ReportRow, deleteOk: bool, updateOk: bool) returns (notice: Notice)
      modifies this
      ensures !confirmOpen
      ensures deleteOk ==>
        && sales == WithoutSale(old(sales), sale.id)
        && appointmentStatus == Reopen(old(appointmentStatus), RefundTargetAsWritten(sale), updateOk)
        && notice == RefundDone
      ensures !deleteOk ==>
        sales == old(sales) && appointmentStatus == old(appointmentStatus) && notice == RefundFailed
    {
      if !deleteOk {
        notice := RefundFailed;
      } else {
        sales := WithoutSale(sales, sale.id);
        appointmentStatus := Reopen(appointmentStatus, RefundTargetAsWritten(sale), updateOk);
        notice := RefundDone;
      }
      confirmOpen := false;
    }
  }
}
