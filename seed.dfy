/** The seed data the store starts from when local storage is empty
    (src/constants/mockData.ts), and witness lemmas: the model's
    invariants hold on it, and the pages compute from it what the seed
    was written to show. */
module Seed {
  import opened Text
  import opened Types
  import opened Seqs
  import opened GstCalc
  import opened Store
  import opened CreateInvoice
  import opened Months
  import opened InventoryPage
  import opened Reports
  import opened Sorting

  const Customers: seq<Customer> := [
    Customer("c1", "Rajesh Kumar", "9876543210", "rajesh@example.com", Some("27AAPFU0939F1ZV"), "12, MG Road, Pune", "Maharashtra"),
    Customer("c2", "Priya Sharma", "9876543211", "priya@example.com", None, "45, Park Street, Kolkata", "West Bengal"),
    Customer("c3", "Amit Patel", "9876543212", "amit@example.com", Some("24AADCB2230M1ZP"), "8, CG Road, Ahmedabad", "Gujarat"),
    Customer("c4", "Sunita Verma", "9876543213", "sunita@example.com", None, "23, Civil Lines, Jaipur", "Rajasthan"),
    Customer("c5", "Mohammed Irfan", "9876543214", "irfan@example.com", Some("29ABCDE1234F1Z5"), "78, Brigade Road, Bangalore", "Karnataka"),
    Customer("c6", "Lakshmi Nair", "9876543215", "lakshmi@example.com", None, "34, Marine Drive, Kochi", "Kerala"),
    Customer("c7", "Deepak Gupta", "9876543216", "deepak@example.com", Some("09AABCU9603R1ZM"), "56, Hazratganj, Lucknow", "Uttar Pradesh"),
    Customer("c8", "Ananya Das", "9876543217", "ananya@example.com", None, "12, Salt Lake, Kolkata", "West Bengal")
  ]
  const Inventory: seq<InventoryItem> := [
    InventoryItem("i1", "Samsung Galaxy A15", "EL-SAM-A15", "Electronics", "8517", "Pcs", 11000.0, 13499.0, 18.0, 24.0, 5.0, "2025-01-10"),
    InventoryItem("i2", "Realme Buds Air 5", "EL-RM-BA5", "Electronics", "8518", "Pcs", 2200.0, 2999.0, 18.0, 45.0, 10.0, "2025-01-12"),
    InventoryItem("i3", "Boat Rockerz 450", "EL-BOAT-R450", "Electronics", "8518", "Pcs", 1100.0, 1499.0, 18.0, 32.0, 8.0, "2025-01-15"),
    InventoryItem("i4", "Cotton Kurta Set", "CL-KRT-001", "Clothing", "6204", "Set", 650.0, 1199.0, 5.0, 60.0, 15.0, "2025-02-01"),
    InventoryItem("i5", "Men's Denim Jeans", "CL-DNM-001", "Clothing", "6203", "Pcs", 500.0, 899.0, 12.0, 80.0, 20.0, "2025-02-03"),
    InventoryItem("i6", "Tata Salt 1kg", "GR-SALT-1K", "Grocery", "2501", "Pcs", 18.0, 24.0, 0.0, 200.0, 50.0, "2025-02-10"),
    InventoryItem("i7", "Ashirvaad Atta 5kg", "GR-ATTA-5K", "Grocery", "1101", "Bag", 210.0, 265.0, 0.0, 120.0, 30.0, "2025-02-12"),
    InventoryItem("i8", "Classmate Notebook 200pg", "ST-NB-200", "Stationery", "4820", "Pcs", 38.0, 55.0, 12.0, 300.0, 50.0, "2025-02-15"),
    InventoryItem("i9", "Parker Pen Blue", "ST-PEN-PB", "Stationery", "9608", "Pcs", 150.0, 220.0, 18.0, 75.0, 15.0, "2025-02-18"),
    InventoryItem("i10", "Havells LED Bulb 9W", "HW-LED-9W", "Hardware", "9405", "Pcs", 65.0, 99.0, 18.0, 150.0, 30.0, "2025-03-01"),
    InventoryItem("i11", "Anchor Switch Board 6-way", "HW-SWB-6", "Hardware", "8536", "Pcs", 120.0, 189.0, 28.0, 40.0, 10.0, "2025-03-05"),
    InventoryItem("i12", "Lakme Foundation", "CS-LKM-FD", "Cosmetics", "3304", "Pcs", 280.0, 450.0, 28.0, 35.0, 8.0, "2025-03-10"),
    InventoryItem("i13", "Himalaya Face Wash", "CS-HIM-FW", "Cosmetics", "3304", "Pcs", 95.0, 145.0, 18.0, 65.0, 15.0, "2025-03-12"),
    InventoryItem("i14", "USB-C Cable 1m", "AC-USB-C1", "Accessories", "8544", "Pcs", 45.0, 99.0, 18.0, 200.0, 40.0, "2025-03-15"),
    InventoryItem("i15", "Phone Tempered Glass", "AC-TG-001", "Accessories", "7007", "Pcs", 20.0, 79.0, 18.0, 350.0, 60.0, "2025-03-18"),
    InventoryItem("i16", "Crocin Pain Relief", "PH-CRO-PR", "Pharma", "3004", "Pcs", 22.0, 30.0, 12.0, 180.0, 40.0, "2025-03-20"),
    InventoryItem("i17", "Dabur Honey 500g", "FB-DHN-500", "Food & Beverages", "0409", "Pcs", 180.0, 235.0, 0.0, 55.0, 12.0, "2025-04-01"),
    InventoryItem("i18", "Paper Cups 50pk", "GN-CUP-50", "General", "4823", "Pcs", 35.0, 60.0, 12.0, 90.0, 20.0, "2025-04-05"),
    InventoryItem("i19", "Wireless Mouse Logitech", "EL-LGT-WM", "Electronics", "8471", "Pcs", 500.0, 749.0, 18.0, 28.0, 8.0, "2025-04-10"),
    InventoryItem("i20", "Cotton Face Towel 6pk", "GN-TWL-6P", "General", "6302", "Set", 120.0, 199.0, 5.0, 70.0, 15.0, "2025-04-12"),
    InventoryItem("i21", "Borosil Lunch Box", "GN-BLB-001", "General", "7013", "Pcs", 350.0, 549.0, 18.0, 3.0, 5.0, "2025-04-15"),
    InventoryItem("i22", "Godrej Hair Colour", "CS-GHC-001", "Cosmetics", "3305", "Pcs", 48.0, 75.0, 28.0, 2.0, 10.0, "2025-04-18")
  ]
  const Inv1: Invoice := Invoice("inv1", "INV-2507-1001", Gst, Paid, Customers[0], [
      LineItem("li1", Some("i1"), "Samsung Galaxy A15", "8517", 2.0, "Pcs", 13499.0, 18.0, 26998.0, 2429.82, 2429.82, 0.0),
      LineItem("li2", Some("i14"), "USB-C Cable 1m", "8544", 2.0, "Pcs", 99.0, 18.0, 198.0, 17.82, 17.82, 0.0)
    ],
    27196.0, 2447.64, 2447.64, 0.0, 4895.28, 32091.28, 0.0, "", "2025-07-01", "2025-07-15", Some("2025-07-05"))
  const Inv2: Invoice := Invoice("inv2", "INV-2507-1002", Gst, Sent, Customers[2], [
      LineItem("li3", Some("i4"), "Cotton Kurta Set", "6204", 10.0, "Set", 1199.0, 5.0, 11990.0, 299.75, 299.75, 0.0)
    ],
    11990.0, 299.75, 299.75, 0.0, 599.50, 12589.50, 0.0, "Bulk order", "2025-07-03", "2025-07-18", None)
  const Inv3: Invoice := Invoice("inv3", "INV-2507-1003", NonGst, Paid, Customers[1], [
      LineItem("li4", None, "Tata Salt 1kg", "2501", 50.0, "Pcs", 24.0, 0.0, 1200.0, 0.0, 0.0, 0.0),
      LineItem("li5", None, "Ashirvaad Atta 5kg", "1101", 20.0, "Bag", 265.0, 0.0, 5300.0, 0.0, 0.0, 0.0)
    ],
    6500.0, 0.0, 0.0, 0.0, 0.0, 6500.0, 0.0, "", "2025-07-05", "2025-07-20", Some("2025-07-05"))
  const Inv4: Invoice := Invoice("inv4", "INV-2507-1004", Gst, Overdue, Customers[4], [
      LineItem("li6", Some("i11"), "Anchor Switch Board 6-way", "8536", 20.0, "Pcs", 189.0, 28.0, 3780.0, 529.2, 529.2, 0.0),
      LineItem("li7", Some("i10"), "Havells LED Bulb 9W", "9405", 50.0, "Pcs", 99.0, 18.0, 4950.0, 445.5, 445.5, 0.0)
    ],
    8730.0, 974.7, 974.7, 0.0, 1949.4, 10679.4, 0.0, "Delivery pending", "2025-06-10", "2025-06-25", None)
  const Inv5: Invoice := Invoice("inv5", "INV-2507-1005", Gst, Paid, Customers[6], [
      LineItem("li8", Some("i12"), "Lakme Foundation", "3304", 5.0, "Pcs", 450.0, 28.0, 2250.0, 315.0, 315.0, 0.0),
      LineItem("li9", Some("i13"), "Himalaya Face Wash", "3304", 10.0, "Pcs", 145.0, 18.0, 1450.0, 130.5, 130.5, 0.0)
    ],
    3700.0, 445.5, 445.5, 0.0, 891.0, 4591.0, 0.0, "", "2025-07-08", "2025-07-22", Some("2025-07-10"))
  const Inv6: Invoice := Invoice("inv6", "INV-2507-1006", NonGst, Draft, Customers[3], [
      LineItem("li10", None, "Custom Embroidery Work", "5810", 3.0, "Pcs", 2500.0, 0.0, 7500.0, 0.0, 0.0, 0.0)
    ],
    7500.0, 0.0, 0.0, 0.0, 0.0, 7500.0, 0.0, "Draft for review", "2025-07-12", "2025-07-27", None)
  const Inv7: Invoice := Invoice("inv7", "INV-2506-0987", Gst, Paid, Customers[5], [
      LineItem("li11", Some("i8"), "Classmate Notebook 200pg", "4820", 100.0, "Pcs", 55.0, 12.0, 5500.0, 330.0, 330.0, 0.0),
      LineItem("li12", Some("i9"), "Parker Pen Blue", "9608", 25.0, "Pcs", 220.0, 18.0, 5500.0, 495.0, 495.0, 0.0)
    ],
    11000.0, 825.0, 825.0, 0.0, 1650.0, 12650.0, 0.0, "School supply order", "2025-06-15", "2025-06-30", Some("2025-06-28"))
  const Inv8: Invoice := Invoice("inv8", "INV-2506-0988", Gst, Paid, Customers[7], [
      LineItem("li13", Some("i2"), "Realme Buds Air 5", "8518", 3.0, "Pcs", 2999.0, 18.0, 8997.0, 809.73, 809.73, 0.0)
    ],
    8997.0, 809.73, 809.73, 0.0, 1619.46, 10616.46, 0.0, "", "2025-06-20", "2025-07-05", Some("2025-06-25"))
  const E1: Expense := Expense("e1", "Rent", "Shop rent for July", 25000.0, "2025-07-01", "Ramesh Properties", "Bank Transfer", None)
  const E2: Expense := Expense("e2", "Electricity", "Electricity bill July", 4200.0, "2025-07-05", "MSEDCL", "UPI", None)
  const E3: Expense := Expense("e3", "Salary", "Staff salary - Suresh", 18000.0, "2025-07-01", "Suresh Kumar", "Bank Transfer", None)
  const E4: Expense := Expense("e4", "Salary", "Staff salary - Meena", 15000.0, "2025-07-01", "Meena Devi", "Bank Transfer", None)
  const E5: Expense := Expense("e5", "Transport", "Delivery charges", 3500.0, "2025-07-08", "Delhivery", "UPI", None)
  const E6: Expense := Expense("e6", "Packaging", "Bubble wrap & boxes", 2100.0, "2025-07-10", "Packwell", "Cash", None)
  const E7: Expense := Expense("e7", "Marketing", "Google Ads July", 5000.0, "2025-07-12", "Google", "Credit Card", None)
  const E8: Expense := Expense("e8", "Internet", "Jio Fiber monthly", 999.0, "2025-07-01", "Jio", "UPI", None)
  const E9: Expense := Expense("e9", "Maintenance", "AC repair shop", 1800.0, "2025-07-06", "Cool Services", "Cash", None)
  const E10: Expense := Expense("e10", "Office Supplies", "Printer ink & paper", 1200.0, "2025-07-09", "Staples", "UPI", None)
  const E11: Expense := Expense("e11", "Telephone", "Mobile recharge staff", 600.0, "2025-07-05", "Airtel", "UPI", None)
  const E12: Expense := Expense("e12", "Miscellaneous", "Tea & snacks", 900.0, "2025-07-10", "Local vendor", "Cash", None)
  const E13: Expense := Expense("e13", "Rent", "Shop rent for June", 25000.0, "2025-06-01", "Ramesh Properties", "Bank Transfer", None)
  const E14: Expense := Expense("e14", "Electricity", "Electricity bill June", 3800.0, "2025-06-05", "MSEDCL", "UPI", None)
  const E15: Expense := Expense("e15", "Salary", "Staff salary - Suresh June", 18000.0, "2025-06-01", "Suresh Kumar", "Bank Transfer", None)
  const E16: Expense := Expense("e16", "Salary", "Staff salary - Meena June", 15000.0, "2025-06-01", "Meena Devi", "Bank Transfer", None)
  const E17: Expense := Expense("e17", "Transport", "Courier charges June", 2800.0, "2025-06-12", "BlueDart", "UPI", None)
  const E18: Expense := Expense("e18", "Marketing", "Pamphlet printing", 3000.0, "2025-06-15", "Quick Print", "Cash", None)
  const E19: Expense := Expense("e19", "Raw Material", "Packaging material", 4500.0, "2025-06-18", "Packwell", "Cash", None)
  const E20: Expense := Expense("e20", "Insurance", "Shop insurance quarterly", 6000.0, "2025-06-20", "HDFC Ergo", "Bank Transfer", None)
  const Expenses: seq<Expense> := [E1, E2, E3, E4, E5, E6, E7, E8, E9, E10, E11, E12,
                                   E13, E14, E15, E16, E17, E18, E19, E20]


  const Invoices: seq<Invoice> := [Inv1, Inv2, Inv3, Inv4, Inv5, Inv6, Inv7, Inv8]

  // Lines and totals.

  /** A line of an invoice agrees with the invoice's type: its amount is
      quantity times rate, and its halves are the calculator's CGST on a
      GST invoice and zero on any other. */
  ghost predicate LineFits(inv: Invoice, li: LineItem)
  {
    RowConsistent(li) && li.cgst == HalfTax(li.amount, li.gstRate, inv.invoiceType == Gst)
  }

  ghost predicate LinesFit(inv: Invoice)
  {
    forall k :: 0 <= k < |inv.items| ==> LineFits(inv, inv.items[k])
  }

  /** Every seed line fits its invoice. */
  lemma SeedLinesFit()
    ensures LinesFit(Inv1) && LinesFit(Inv2) && LinesFit(Inv3) && LinesFit(Inv4)
    ensures LinesFit(Inv5) && LinesFit(Inv6) && LinesFit(Inv7) && LinesFit(Inv8)
  {
  }

  /** Every seed invoice carries the totals of its lines. */
  lemma SeedTotalsConsistent()
    ensures TotalsConsistent(Inv1) && TotalsConsistent(Inv2) && TotalsConsistent(Inv3)
    ensures TotalsConsistent(Inv4) && TotalsConsistent(Inv5) && TotalsConsistent(Inv6)
    ensures TotalsConsistent(Inv7) && TotalsConsistent(Inv8)
  {
    assert Inv1.items[..1][..0] == [] && Inv1.items[..1] == [Inv1.items[0]];
  }

  /** The first seed invoice: two phones at 13499 make a line of 26998,
      whose central half of 18% tax is 2429.82, and the totals of both
      lines give a grand total of 32091.28. */
  lemma SeedFirstInvoice()
    ensures Inv1.items[0].amount == Inv1.items[0].quantity * Inv1.items[0].rate == 26998.0
    ensures CalculateGst(26998.0, 18.0).cgst == Inv1.items[0].cgst == 2429.82
    ensures ComputeTotals(Inv1.items, Inv1.discount).grandTotal == Inv1.grandTotal == 32091.28
  {
    SeedTotalsConsistent();
  }

  // Inventory.

  /** Every seed item has non-negative stock and prices and a GST slab
      rate, and so does every seed line. */
  lemma SeedInventoryValid()
    ensures forall i :: 0 <= i < |Inventory| ==>
      Inventory[i].stock >= 0.0 && Inventory[i].sellingPrice >= 0.0 && IsGstRate(Inventory[i].gstRate)
    ensures forall i, k :: 0 <= i < |Invoices| && 0 <= k < |Invoices[i].items| ==> IsGstRate(Invoices[i].items[k].gstRate)
  {
  }

  /** The first twenty seed items are above their thresholds. */
  lemma SeedHealthyStock()
    ensures forall i :: 0 <= i < 20 ==> !IsLow(Inventory[i])
  {
  }

  /** Exactly the lunch box (i21) and the hair colour (i22) are low. */
  lemma SeedLowStock()
    ensures LowStockItems(Inventory) == [Inventory[20], Inventory[21]]
    ensures LowStockCount(Inventory) == 2
  {
    SeedHealthyStock();
    assert |Inventory| == 22 && IsLow(Inventory[20]) && IsLow(Inventory[21]);
    OnlyLastTwoLow(Inventory);
  }

  /** A 22-item list whose first twenty items are not low keeps only its
      last two. */
  lemma OnlyLastTwoLow(s: seq<InventoryItem>)
    requires |s| == 22 && IsLow(s[20]) && IsLow(s[21])
    requires forall i :: 0 <= i < 20 ==> !IsLow(s[i])
    ensures Filter(s, IsLowFn()) == [s[20], s[21]]
  {
    var healthy, low := s[..20], s[20..];
    assert s == healthy + low;
    forall x | x in healthy
      ensures !IsLowFn()(x)
    {
      var i :| 0 <= i < 20 && healthy[i] == x;
      assert x == s[i];
    }
    assert low == [s[20], s[21]];
    FilterAppend(healthy, low, IsLowFn());
    FilterDropsAll(healthy, IsLowFn());
    FilterKeepsAll(low, IsLowFn());
  }

  /** Selling five lunch boxes with three in stock empties the shelf
      instead of going negative. */
  lemma SeedSellFive()
    ensures StockUpdated(Inventory, "i21", 5.0)[20].stock == 0.0
  {
  }

  // The monthly report over the seed.

  /** The first four seed invoices: three in July 2025, one in June. */
  lemma SeedInvoicesToFour()
    ensures TotalsFor(Invoices[..4], [], "2025-06") == MonthTotals(10679.4, 0.0, 1, 0)
    ensures TotalsFor(Invoices[..4], [], "2025-07") == MonthTotals(51180.78, 0.0, 3, 2)
  {
    assert "2025-06"[6] != "2025-07"[6];
    assert Invoices[..0] == [];
    assert TotalsFor(Invoices[..1], [], "2025-06") == MonthTotals(0.0, 0.0, 0, 0)
        && TotalsFor(Invoices[..1], [], "2025-07") == MonthTotals(32091.28, 0.0, 1, 1) by {
      assert Invoices[..1] == Invoices[..0] + [Inv1] && InvoiceMonth(Inv1) == "2025-07";
      InvoiceTotalsSnoc(Invoices[..0], Inv1, "2025-06");
      InvoiceTotalsSnoc(Invoices[..0], Inv1, "2025-07");
    }
    assert TotalsFor(Invoices[..2], [], "2025-06") == MonthTotals(0.0, 0.0, 0, 0)
        && TotalsFor(Invoices[..2], [], "2025-07") == MonthTotals(44680.78, 0.0, 2, 1) by {
      assert Invoices[..2] == Invoices[..1] + [Inv2] && InvoiceMonth(Inv2) == "2025-07";
      InvoiceTotalsSnoc(Invoices[..1], Inv2, "2025-06");
      InvoiceTotalsSnoc(Invoices[..1], Inv2, "2025-07");
    }
    assert TotalsFor(Invoices[..3], [], "2025-06") == MonthTotals(0.0, 0.0, 0, 0)
        && TotalsFor(Invoices[..3], [], "2025-07") == MonthTotals(51180.78, 0.0, 3, 2) by {
      assert Invoices[..3] == Invoices[..2] + [Inv3] && InvoiceMonth(Inv3) == "2025-07";
      InvoiceTotalsSnoc(Invoices[..2], Inv3, "2025-06");
      InvoiceTotalsSnoc(Invoices[..2], Inv3, "2025-07");
    }
    assert TotalsFor(Invoices[..4], [], "2025-06") == MonthTotals(10679.4, 0.0, 1, 0)
        && TotalsFor(Invoices[..4], [], "2025-07") == MonthTotals(51180.78, 0.0, 3, 2) by {
      assert Invoices[..4] == Invoices[..3] + [Inv4] && InvoiceMonth(Inv4) == "2025-06";
      InvoiceTotalsSnoc(Invoices[..3], Inv4, "2025-06");
      InvoiceTotalsSnoc(Invoices[..3], Inv4, "2025-07");
    }
  }

  /** The seed invoices per month: June 2025 has three, two of them paid;
      July 2025 has five, three of them paid. */
  lemma SeedInvoiceTotals()
    ensures TotalsFor(Invoices, [], "2025-06") == MonthTotals(33945.86, 0.0, 3, 2)
    ensures TotalsFor(Invoices, [], "2025-07") == MonthTotals(63271.78, 0.0, 5, 3)
  {
    SeedInvoicesToFour();
    assert "2025-06"[6] != "2025-07"[6];
    assert TotalsFor(Invoices[..5], [], "2025-06") == MonthTotals(10679.4, 0.0, 1, 0)
        && TotalsFor(Invoices[..5], [], "2025-07") == MonthTotals(55771.78, 0.0, 4, 3) by {
      assert Invoices[..5] == Invoices[..4] + [Inv5] && InvoiceMonth(Inv5) == "2025-07";
      InvoiceTotalsSnoc(Invoices[..4], Inv5, "2025-06");
      InvoiceTotalsSnoc(Invoices[..4], Inv5, "2025-07");
    }
    assert TotalsFor(Invoices[..6], [], "2025-06") == MonthTotals(10679.4, 0.0, 1, 0)
        && TotalsFor(Invoices[..6], [], "2025-07") == MonthTotals(63271.78, 0.0, 5, 3) by {
      assert Invoices[..6] == Invoices[..5] + [Inv6] && InvoiceMonth(Inv6) == "2025-07";
      InvoiceTotalsSnoc(Invoices[..5], Inv6, "2025-06");
      InvoiceTotalsSnoc(Invoices[..5], Inv6, "2025-07");
    }
    assert TotalsFor(Invoices[..7], [], "2025-06") == MonthTotals(23329.4, 0.0, 2, 1)
        && TotalsFor(Invoices[..7], [], "2025-07") == MonthTotals(63271.78, 0.0, 5, 3) by {
      assert Invoices[..7] == Invoices[..6] + [Inv7] && InvoiceMonth(Inv7) == "2025-06";
      InvoiceTotalsSnoc(Invoices[..6], Inv7, "2025-06");
      InvoiceTotalsSnoc(Invoices[..6], Inv7, "2025-07");
    }
    assert TotalsFor(Invoices[..8], [], "2025-06") == MonthTotals(33945.86, 0.0, 3, 2)
        && TotalsFor(Invoices[..8], [], "2025-07") == MonthTotals(63271.78, 0.0, 5, 3) by {
      assert Invoices[..8] == Invoices[..7] + [Inv8] && InvoiceMonth(Inv8) == "2025-06";
      InvoiceTotalsSnoc(Invoices[..7], Inv8, "2025-06");
      InvoiceTotalsSnoc(Invoices[..7], Inv8, "2025-07");
    }
    assert Invoices[..8] == Invoices;
  }

  /** What one expense adds to the total of month `m`. */
  function Contribution(e: Expense, m: string): real
  {
    if ExpenseMonth(e) == m then e.amount else 0.0
  }

  lemma {:induction false} MonthExpenseAppend(a: seq<Expense>, b: seq<Expense>, m: string)
    ensures MonthExpense(a + b, m) == MonthExpense(a, m) + MonthExpense(b, m)
  {
    if b != [] {
      var init, last := b[..|b| - 1], b[|b| - 1];
      assert b == init + [last];
      assert a + b == (a + init) + [last];
      MonthExpenseAppend(a, init, m);
      SumWhereSnoc(a + init, last, ExpenseMonth, m, ExpenseAmount);
      SumWhereSnoc(init, last, ExpenseMonth, m, ExpenseAmount);
      assert MonthExpense(a + b, m) == MonthExpense(a + init, m) + Contribution(last, m);
      assert MonthExpense(b, m) == MonthExpense(init, m) + Contribution(last, m);
    } else {
      assert a + b == a;
    }
  }

  /** A month's total over five expenses is the sum of their contributions. */
  lemma MonthExpenseFive(e1: Expense, e2: Expense, e3: Expense, e4: Expense, e5: Expense, m: string)
    ensures MonthExpense([e1, e2, e3, e4, e5], m)
         == Contribution(e1, m) + Contribution(e2, m) + Contribution(e3, m) + Contribution(e4, m) + Contribution(e5, m)
  {
    assert [e1, e2, e3, e4, e5] == [e1, e2, e3, e4] + [e5];
    assert [e1, e2, e3, e4] == [e1, e2, e3] + [e4];
    assert [e1, e2, e3] == [e1, e2] + [e3];
    assert [e1, e2] == [e1] + [e2];
    assert [e1] == [] + [e1];
    SumWhereSnoc([], e1, ExpenseMonth, m, ExpenseAmount);
    SumWhereSnoc([e1], e2, ExpenseMonth, m, ExpenseAmount);
    SumWhereSnoc([e1, e2], e3, ExpenseMonth, m, ExpenseAmount);
    SumWhereSnoc([e1, e2, e3], e4, ExpenseMonth, m, ExpenseAmount);
    SumWhereSnoc([e1, e2, e3, e4], e5, ExpenseMonth, m, ExpenseAmount);
  }

  /** The seed expense list in four runs of five. */
  lemma SeedExpenseRuns()
    ensures Expenses == [E1, E2, E3, E4, E5] + [E6, E7, E8, E9, E10]
                      + [E11, E12, E13, E14, E15] + [E16, E17, E18, E19, E20]
  {
  }

  /** Expenses one to five, all dated July 2025. */
  lemma SeedRunOne()
    ensures MonthExpense([E1, E2, E3, E4, E5], "2025-06") == 0.0
    ensures MonthExpense([E1, E2, E3, E4, E5], "2025-07") == 65700.0
  {
    SeedExpenseMonthsA();
    MonthExpenseFive(E1, E2, E3, E4, E5, "2025-06");
    MonthExpenseFive(E1, E2, E3, E4, E5, "2025-07");
  }

  /** Expenses six to ten, all dated July 2025. */
  lemma SeedRunTwo()
    ensures MonthExpense([E6, E7, E8, E9, E10], "2025-06") == 0.0
    ensures MonthExpense([E6, E7, E8, E9, E10], "2025-07") == 11099.0
  {
    SeedExpenseMonthsA();
    MonthExpenseFive(E6, E7, E8, E9, E10, "2025-06");
    MonthExpenseFive(E6, E7, E8, E9, E10, "2025-07");
  }

  /** Expenses eleven to fifteen: two in July 2025, three in June. */
  lemma SeedRunThree()
    ensures MonthExpense([E11, E12, E13, E14, E15], "2025-06") == 46800.0
    ensures MonthExpense([E11, E12, E13, E14, E15], "2025-07") == 1500.0
  {
    SeedExpenseMonthsB();
    MonthExpenseFive(E11, E12, E13, E14, E15, "2025-06");
    MonthExpenseFive(E11, E12, E13, E14, E15, "2025-07");
  }

  /** Expenses sixteen to twenty, all dated June 2025. */
  lemma SeedRunFour()
    ensures MonthExpense([E16, E17, E18, E19, E20], "2025-06") == 31300.0
    ensures MonthExpense([E16, E17, E18, E19, E20], "2025-07") == 0.0
  {
    SeedExpenseMonthsB();
    MonthExpenseFive(E16, E17, E18, E19, E20, "2025-06");
    MonthExpenseFive(E16, E17, E18, E19, E20, "2025-07");
  }

  /** The seed expenses per month: 78100 in June 2025 and 78299 in July 2025. */
  lemma SeedExpenseTotals()
    ensures MonthExpense(Expenses, "2025-06") == 78100.0 && MonthExpense(Expenses, "2025-07") == 78299.0
  {
    var r1, r2, r3, r4 := [E1, E2, E3, E4, E5], [E6, E7, E8, E9, E10],
                          [E11, E12, E13, E14, E15], [E16, E17, E18, E19, E20];
    SeedExpenseRuns();
    SeedRunOne();
    SeedRunTwo();
    SeedRunThree();
    SeedRunFour();
    forall m | m == "2025-06" || m == "2025-07"
      ensures MonthExpense(Expenses, m) == MonthExpense(r1, m) + MonthExpense(r2, m) + MonthExpense(r3, m) + MonthExpense(r4, m)
    {
      MonthExpenseAppend(r1, r2, m);
      MonthExpenseAppend(r1 + r2, r3, m);
      MonthExpenseAppend(r1 + r2 + r3, r4, m);
    }
  }

  /** The report's totals for the two seed months. */
  lemma SeedMonthTotals()
    ensures TotalsFor(Invoices, Expenses, "2025-06") == MonthTotals(33945.86, 78100.0, 3, 2)
    ensures TotalsFor(Invoices, Expenses, "2025-07") == MonthTotals(63271.78, 78299.0, 5, 3)
  {
    SeedInvoiceTotals();
    SeedExpenseTotals();
  }

  /** Each seed invoice is dated June or July 2025. */
  lemma SeedInvoiceMonths()
    ensures InvoiceMonth(Inv1) == "2025-07"
    ensures InvoiceMonth(Inv2) == "2025-07"
    ensures InvoiceMonth(Inv3) == "2025-07"
    ensures InvoiceMonth(Inv4) == "2025-06"
    ensures InvoiceMonth(Inv5) == "2025-07"
    ensures InvoiceMonth(Inv6) == "2025-07"
    ensures InvoiceMonth(Inv7) == "2025-06"
    ensures InvoiceMonth(Inv8) == "2025-06"
  {
  }

  /** The July 2025 GST invoices of the seed are inv1, inv2 and inv5. */
  lemma SeedGstInJuly()
    ensures IsGstIn(Inv1, "2025-07") && IsGstIn(Inv2, "2025-07") && IsGstIn(Inv5, "2025-07")
    ensures !IsGstIn(Inv3, "2025-07") && !IsGstIn(Inv4, "2025-07") && !IsGstIn(Inv6, "2025-07")
    ensures !IsGstIn(Inv7, "2025-07") && !IsGstIn(Inv8, "2025-07")
  {
    assert Inv4.createdAt[..7] != "2025-07" by { assert Inv4.createdAt[6] != "2025-07"[6]; }
    assert Inv7.createdAt[..7] != "2025-07" by { assert Inv7.createdAt[6] != "2025-07"[6]; }
    assert Inv8.createdAt[..7] != "2025-07" by { assert Inv8.createdAt[6] != "2025-07"[6]; }
  }

  /** The GST summary of July 2025 over the seed: inv1, inv2 and inv5,
      with 3192.89 each of central and state tax and 6385.78 of tax. */
  lemma SeedGstSummary()
    ensures SummarizeGst(Invoices, "2025-07") == GstSummary(3192.89, 3192.89, 6385.78, 3)
  {
    SeedGstInJuly();
    GstTwoThenTwoOther(Inv1, Inv2, Inv3, Inv4, "2025-07");
    GstOneThenThreeOther(Inv5, Inv6, Inv7, Inv8, "2025-07");
    SummarizeGstAppend([Inv1, Inv2, Inv3, Inv4], [Inv5, Inv6, Inv7, Inv8], "2025-07");
    assert [Inv1, Inv2, Inv3, Inv4] + [Inv5, Inv6, Inv7, Inv8] == Invoices;
  }

  /** Four invoices of which the first two are GST invoices of the month. */
  lemma GstTwoThenTwoOther(a: Invoice, b: Invoice, c: Invoice, d: Invoice, m: string)
    requires IsGstIn(a, m) && IsGstIn(b, m) && !IsGstIn(c, m) && !IsGstIn(d, m)
    ensures SummarizeGst([a, b, c, d], m)
         == GstSummary(a.totalCgst + b.totalCgst, a.totalSgst + b.totalSgst, a.totalTax + b.totalTax, 2)
  {
    GstPair(a, b, m);
    NoGstPair(c, d, m);
    SummarizeGstAppend([a, b], [c, d], m);
    assert [a, b] + [c, d] == [a, b, c, d];
  }

  /** Four invoices of which only the first is a GST invoice of the month. */
  lemma GstOneThenThreeOther(a: Invoice, b: Invoice, c: Invoice, d: Invoice, m: string)
    requires IsGstIn(a, m) && !IsGstIn(b, m) && !IsGstIn(c, m) && !IsGstIn(d, m)
    ensures SummarizeGst([a, b, c, d], m) == GstSummary(a.totalCgst, a.totalSgst, a.totalTax, 1)
  {
    GstThenOther(a, b, m);
    NoGstPair(c, d, m);
    SummarizeGstAppend([a, b], [c, d], m);
    assert [a, b] + [c, d] == [a, b, c, d];
  }

  /** Two GST invoices of the month. */
  lemma GstPair(a: Invoice, b: Invoice, m: string)
    requires IsGstIn(a, m) && IsGstIn(b, m)
    ensures SummarizeGst([a, b], m)
         == GstSummary(a.totalCgst + b.totalCgst, a.totalSgst + b.totalSgst, a.totalTax + b.totalTax, 2)
  {
    SummarizeGstSnoc([], a, m);
    assert [] + [a] == [a];
    SummarizeGstSnoc([a], b, m);
    assert [a] + [b] == [a, b];
  }

  /** A GST invoice of the month followed by one that is not. */
  lemma GstThenOther(a: Invoice, b: Invoice, m: string)
    requires IsGstIn(a, m) && !IsGstIn(b, m)
    ensures SummarizeGst([a, b], m) == GstSummary(a.totalCgst, a.totalSgst, a.totalTax, 1)
  {
    SummarizeGstSnoc([], a, m);
    assert [] + [a] == [a];
    SummarizeGstSnoc([a], b, m);
    assert [a] + [b] == [a, b];
  }

  /** Two invoices neither of which is a GST invoice of the month. */
  lemma NoGstPair(c: Invoice, d: Invoice, m: string)
    requires !IsGstIn(c, m) && !IsGstIn(d, m)
    ensures SummarizeGst([c, d], m) == GstSummary(0.0, 0.0, 0.0, 0)
  {
    SummarizeGstSnoc([], c, m);
    assert [] + [c] == [c];
    SummarizeGstSnoc([c], d, m);
    assert [c] + [d] == [c, d];
  }

  /** The first ten seed expenses are dated July 2025. */
  lemma SeedExpenseMonthsA()
    ensures ExpenseMonth(E1) == "2025-07"
    ensures ExpenseMonth(E2) == "2025-07"
    ensures ExpenseMonth(E3) == "2025-07"
    ensures ExpenseMonth(E4) == "2025-07"
    ensures ExpenseMonth(E5) == "2025-07"
    ensures ExpenseMonth(E6) == "2025-07"
    ensures ExpenseMonth(E7) == "2025-07"
    ensures ExpenseMonth(E8) == "2025-07"
    ensures ExpenseMonth(E9) == "2025-07"
    ensures ExpenseMonth(E10) == "2025-07"
  {
  }

  /** The last ten seed expenses: two in July 2025, then eight in June. */
  lemma SeedExpenseMonthsB()
    ensures ExpenseMonth(E11) == "2025-07"
    ensures ExpenseMonth(E12) == "2025-07"
    ensures ExpenseMonth(E13) == "2025-06"
    ensures ExpenseMonth(E14) == "2025-06"
    ensures ExpenseMonth(E15) == "2025-06"
    ensures ExpenseMonth(E16) == "2025-06"
    ensures ExpenseMonth(E17) == "2025-06"
    ensures ExpenseMonth(E18) == "2025-06"
    ensures ExpenseMonth(E19) == "2025-06"
    ensures ExpenseMonth(E20) == "2025-06"
  {
  }

  /** The seed has activity in exactly two months. */
  lemma SeedActiveMonths()
    ensures ActiveMonths(Invoices, Expenses) == {"2025-06", "2025-07"}
  {
    SeedInvoiceMonths();
    SeedExpenseMonthsA();
    SeedExpenseMonthsB();
    forall i | 0 <= i < |Invoices|
      ensures InvoiceMonth(Invoices[i]) in {"2025-06", "2025-07"}
    {
      assert Invoices[i] in {Inv1, Inv2, Inv3, Inv4, Inv5, Inv6, Inv7, Inv8};
    }
    forall i | 0 <= i < |Expenses|
      ensures ExpenseMonth(Expenses[i]) in {"2025-06", "2025-07"}
    {
      assert Expenses[i] in {E1, E2, E3, E4, E5, E6, E7, E8, E9, E10, E11, E12,
                             E13, E14, E15, E16, E17, E18, E19, E20};
    }
    KeySetMembers(Invoices, InvoiceMonth);
    KeySetMembers(Expenses, ExpenseMonth);
    assert Invoices[3] == Inv4 && Invoices[0] == Inv1;
  }

  /** The monthly series of the seed: June 2025, then July 2025, each with
      its income, expense, profit, invoice count and paid count. */
  lemma SeedSeries(rows: seq<MonthRow>)
    requires IsMonthlySeries(Invoices, Expenses, rows)
    ensures |rows| == 2
    ensures rows[0] == MonthRow("2025-06", 33945.86, 78100.0, 33945.86 - 78100.0, 3, 2)
    ensures rows[1] == MonthRow("2025-07", 63271.78, 78299.0, 63271.78 - 78299.0, 5, 3)
  {
    SeedActiveMonths();
    SeedMonthTotals();
    StrLessAt("2025-06", "2025-07", 6);
    SeriesOfTwo(Invoices, Expenses, rows, "2025-06", "2025-07");
  }

  /** With activity in exactly two months, the series has one row per
      month, the earlier month first. */
  lemma SeriesOfTwo(invoices: seq<Invoice>, expenses: seq<Expense>, rows: seq<MonthRow>, a: string, b: string)
    requires IsMonthlySeries(invoices, expenses, rows)
    requires ActiveMonths(invoices, expenses) == {a, b} && StrLess(a, b)
    ensures |rows| == 2
    ensures rows[0] == ToRow((a, TotalsFor(invoices, expenses, a)))
    ensures rows[1] == ToRow((b, TotalsFor(invoices, expenses, b)))
  {
    AscendingUnique(MonthsOf(rows), [a, b]);
  }
}
