/** The billing screen (src/components/BillingInvoice.tsx): a fixed list of
    invoices split into a paid and an unpaid tab, and the status badge. */
module BillingInvoice {
  import opened Lists

  datatype Invoice = Invoice(
    id: string,
    student: string,
    grade: string,
    amount: string,
    dueDate: string,
    status: string,
    invoiceType: string)

  function SeedInvoices(): (r: seq<Invoice>)
    ensures |r| == 4
  {
    [ Invoice("INV-2023-001", "Andi Pratama", "7A", "Rp 750.000", "25 Mei 2023", "due", "SPP Mei 2023"),
      Invoice("INV-2023-002", "Budi Santoso", "8B", "Rp 1.250.000", "12 Mei 2023", "overdue", "SPP Mei 2023 + Denda"),
      Invoice("INV-2023-003", "Citra Dewi", "9C", "Rp 950.000", "30 Mei 2023", "due", "SPP Mei 2023"),
      Invoice("INV-2023-004", "Dian Permata", "7A", "Rp 750.000", "05 Mei 2023", "paid", "SPP Mei 2023") ]
  }

  function IsPaid(): Invoice -> bool
  {
    (inv: Invoice) => inv.status == "paid"
  }

  function IsUnpaid(): Invoice -> bool
  {
    (inv: Invoice) => inv.status != "paid"
  }

  /** `paidInvoices`: the invoices with status `paid`, in order. */
  function PaidInvoices(invoices: seq<Invoice>): (r: seq<Invoice>)
    ensures forall inv :: inv in r <==> inv in invoices && inv.status == "paid"
    ensures IsSubsequence(r, invoices)
  {
    FilterIsSubsequence(invoices, IsPaid());
    Filter(invoices, IsPaid())
  }

  /** `unpaidInvoices`: every other invoice, in order. */
  function UnpaidInvoices(invoices: seq<Invoice>): (r: seq<Invoice>)
    ensures forall inv :: inv in r <==> inv in invoices && inv.status != "paid"
    ensures IsSubsequence(r, invoices)
  {
    FilterIsSubsequence(invoices, IsUnpaid());
    Filter(invoices, IsUnpaid())
  }

  /** The two tabs split the invoices: together they hold every invoice
      exactly as often as the list does, their sizes add up to the total,
      and no invoice is on both tabs. */
  lemma TabsPartition(invoices: seq<Invoice>)
    ensures multiset(PaidInvoices(invoices)) + multiset(UnpaidInvoices(invoices)) == multiset(invoices)
    ensures |PaidInvoices(invoices)| + |UnpaidInvoices(invoices)| == |invoices|
    ensures forall inv :: inv in invoices ==> (inv in PaidInvoices(invoices) <==> inv !in UnpaidInvoices(invoices))
  {
    FilterPartition(invoices, IsPaid(), IsUnpaid());
  }

  /** Due and overdue invoices are both on the unpaid tab. */
  lemma DueAndOverdueUnpaid(invoices: seq<Invoice>, inv: Invoice)
    requires inv in invoices && inv.status in {"due", "overdue"}
    ensures inv in UnpaidInvoices(invoices) && inv !in PaidInvoices(invoices)
  {
  }

  /** The status label of the unpaid tab: "Lunas" for `paid`, "Jatuh Tempo"
      for `due`, "Terlambat" for anything else. */
  function StatusLabel(status: string): (r: string)
    ensures r == "Lunas" <==> status == "paid"
    ensures r == "Jatuh Tempo" <==> status == "due"
    ensures r == "Terlambat" <==> status != "paid" && status != "due"
  {
    if status == "paid" then "Lunas"
    else if status == "due" then "Jatuh Tempo"
    else "Terlambat"
  }

  /** The badge class, by the same three-way split. */
  function StatusBadge(status: string): (r: string)
    ensures r == "status-paid" <==> status == "paid"
    ensures r == "status-due" <==> status == "due"
    ensures r == "status-overdue" <==> status != "paid" && status != "due"
  {
    if status == "paid" then "status-paid"
    else if status == "due" then "status-due"
    else "status-overdue"
  }

  /** The paid tab always shows "Lunas", which is what the status label
      would give for its invoices. */
  lemma PaidTabLabel(invoices: seq<Invoice>)
    ensures forall inv :: inv in PaidInvoices(invoices) ==> StatusLabel(inv.status) == "Lunas"
  {
  }

  /** Of the four invoices of the screen, only the last is paid, and the
      other three are on the unpaid tab. */
  lemma SeedTabs()
    ensures PaidInvoices(SeedInvoices()) == [SeedInvoices()[3]]
    ensures |UnpaidInvoices(SeedInvoices())| == 3
  {
    var s := SeedInvoices();
    OnlyLastKept(s[0], s[1], s[2], s[3], IsPaid());
    assert s == [s[0], s[1], s[2], s[3]];
    TabsPartition(s);
  }

  lemma OnlyLastKept<T(!new)>(a: T, b: T, c: T, d: T, p: T -> bool)
    requires !p(a) && !p(b) && !p(c) && p(d)
    ensures Filter([a, b, c, d], p) == [d]
  {
    FilterCons(d, [], p);
    assert [d] + [] == [d];
    FilterCons(c, [d], p);
    assert [c] + [d] == [c, d];
    FilterCons(b, [c, d], p);
    assert [b] + [c, d] == [b, c, d];
    FilterCons(a, [b, c, d], p);
    assert [a] + [b, c, d] == [a, b, c, d];
  }
}
