/** The field extraction of `main.py`: the decision table that turns the
    matches of a handful of regular expressions on a document's text into
    one record of fifteen fields.

    Each regular expression is an oracle: `Patterns` gives, for a text, the
    capture groups of all its matches, leftmost first, so that `re.search`
    is the head of that list and `re.findall(...)[0]` is too. What the
    pattern itself guarantees about a capture is kept in its type (twelve
    groups of shape `$<digits>.<2 digits>` for the grand totals). */
module Eob {
  import opened Wrappers
  import opened Strings
  import opened Values

  const NA: string := "N/A"

  /** The shape `[0-9,]+\.[0-9]{2}` of the EFT amount capture. */
  predicate IsEftAmount(s: string) {
    && |s| >= 4
    && s[|s| - 3] == '.'
    && (forall i | 0 <= i < |s| - 3 :: IsDigit(s[i]) || s[i] == ',')
    && AllDigits(s[|s| - 2..])
  }

  type EftAmountText = s: string | IsEftAmount(s) witness "0.00"

  /** An EFT amount capture holds digits, commas and one point: no letter. */
  lemma EftAmountNoLetter(s: EftAmountText, x: char)
    requires !IsDigit(x) && x != ',' && x != '.'
    ensures x !in s
  {
  }

  /** Groups 1-3 of the EFT pattern: number, date, amount. */
  datatype EftGroups = EftGroups(number: string, date: string, amount: EftAmountText)

  /** The twelve money captures of the grand-totals pattern. */
  type TotalsGroups = g: seq<MoneyText> | |g| == 12
    witness ["$0.00", "$0.00", "$0.00", "$0.00", "$0.00", "$0.00",
             "$0.00", "$0.00", "$0.00", "$0.00", "$0.00", "$0.00"]

  /** The matches of each pattern of `main.py` on a text, leftmost first. */
  datatype Patterns = Patterns(
    eft: string -> seq<EftGroups>,
    claim: string -> seq<string>,
    totals: string -> seq<TotalsGroups>,
    names: string -> seq<string>,
    dates: string -> seq<(string, string)>)

  /** The first match, or `None` when there is none. */
  function FirstMatch<G>(matches: seq<G>): (r: Option<G>)
    ensures r.None? <==> matches == []
    ensures r.Some? ==> r.value == matches[0]
  {
    if matches == [] then None else Some(matches[0])
  }

  /** What `extract_payment_info` returns: check/EFT number, EFT date and
      EFT amount, each a string or `None`. */
  datatype Payment = Payment(number: Option<string>, date: Option<string>, amount: Option<string>)

  const Unpaid: Payment := Payment(Some(NA), Some(NA), Some(NA))

  /** `extract_payment_info(text, paid)`, with the amount paid in cents. */
  function ExtractPaymentInfo(text: string, paid: int, eft: string -> seq<EftGroups>): (r: Payment)
    // nothing paid: "N/A" three times, whatever the text says
    ensures paid <= 0 ==> r == Unpaid
    // something paid: either all three fields are found or none is
    ensures paid > 0 ==> (r.number.None? <==> eft(text) == [])
    ensures paid > 0 ==> (r.number.None? <==> r.date.None?) && (r.number.None? <==> r.amount.None?)
    // found fields are the first match's groups, trimmed; the amount loses every comma
    ensures paid > 0 && eft(text) != [] ==>
      && r.number == Some(Strip(eft(text)[0].number, Whitespace))
      && r.date == Some(Strip(eft(text)[0].date, Whitespace))
      && r.amount == Some(RemoveChar(Strip(eft(text)[0].amount, Whitespace), ','))
      && multiset(r.amount.value) == multiset(Strip(eft(text)[0].amount, Whitespace))[',' := 0]
    ensures r.amount.Some? && r.amount != Some(NA) ==> ',' !in r.amount.value
  {
    if paid > 0 then
      var m := FirstMatch(eft(text));
      if m.Some? then
        RemoveCharCounts(Strip(m.value.amount, Whitespace), ',');
        Payment(
          Some(Strip(m.value.number, Whitespace)),
          Some(Strip(m.value.date, Whitespace)),
          Some(RemoveChar(Strip(m.value.amount, Whitespace), ',')))
      else Payment(None, None, None)
    else Unpaid
  }

  /** `extract_claim_number(text)`: group 1 of the first match, or `None`. */
  function ExtractClaimNumber(text: string, claim: string -> seq<string>): (r: Option<string>)
    ensures r.None? <==> claim(text) == []
    ensures r.Some? ==> r.value == claim(text)[0]
  {
    FirstMatch(claim(text))
  }

  const Categories: seq<string> := [
    "Line Charge", "Allowed", "QPA", "Contractual", "Payer Initiated", "OA", "Copay",
    "Deductible", "Coinsurance", "Responsibility", "Withhold", "Paid"]

  lemma CategoriesDistinct()
    ensures Distinct(Categories)
  {
  }

  /** `["$0.00"] * 12` */
  const ZeroTotals: TotalsGroups := [
    "$0.00", "$0.00", "$0.00", "$0.00", "$0.00", "$0.00",
    "$0.00", "$0.00", "$0.00", "$0.00", "$0.00", "$0.00"]

  /** `extract_grand_totals(text)`: the twelve categories in their fixed
      order, category k holding capture group k of the first match, or
      `"$0.00"` everywhere when the table is not found. */
  function ExtractGrandTotals(text: string, totals: string -> seq<TotalsGroups>): (r: Dict<MoneyText>)
    ensures Keys(r) == Categories
    ensures totals(text) == [] ==> forall k | 0 <= k < 12 :: r[k].1 == "$0.00"
    ensures totals(text) != [] ==> forall k | 0 <= k < 12 :: r[k].1 == totals(text)[0][k]
  {
    var m := FirstMatch(totals(text));
    var groups := if m.Some? then m.value else ZeroTotals;
    var r := Zip(Categories, groups);
    assert Keys(r) == Categories;
    r
  }

  /** `extract_corrected_patient_name(text)`: the first match, or `None`. */
  function ExtractCorrectedPatientName(text: string, names: string -> seq<string>): (r: Option<string>)
    ensures r.None? <==> names(text) == []
    ensures r.Some? ==> r.value == names(text)[0]
  {
    FirstMatch(names(text))
  }

  /** `extract_date_of_service(text)`: the first (start, end) match, or
      `(None, None)`. */
  function ExtractDateOfService(text: string, dates: string -> seq<(string, string)>): (r: (Option<string>, Option<string>))
    ensures r.0.None? <==> dates(text) == []
    ensures r.1.None? <==> dates(text) == []
    ensures dates(text) != [] ==> r == (Some(dates(text)[0].0), Some(dates(text)[0].1))
  {
    var m := FirstMatch(dates(text));
    if m.Some? then (Some(m.value.0), Some(m.value.1)) else (None, None)
  }

  /** Python truthiness of an optional string. */
  predicate NonEmpty(s: Option<string>) {
    s.Some? && s.value != ""
  }

  /** `{key: float(value.strip('$')) for key, value in grand_totals.items()}`,
      in cents. */
  function AmountsOf(totals: Dict<MoneyText>): (r: Dict<int>)
    ensures Keys(r) == Keys(totals)
    ensures forall i | 0 <= i < |r| :: r[i].1 == Cents(totals[i].1)
  {
    seq(|totals|, i requires 0 <= i < |totals| => (totals[i].0, Cents(totals[i].1)))
  }

  /** `grand_totals_mapped[key]`. */
  function AmountAt(amounts: Dict<int>, key: string): int
    requires key in Keys(amounts)
  {
    Get(amounts, key).value
  }

  /** `grand_totals_mapped[key]` for the text's grand totals. */
  function Amount(text: string, p: Patterns, key: string): int
    requires key in Categories
  {
    var amounts := AmountsOf(ExtractGrandTotals(text, p.totals));
    assert Keys(amounts) == Categories;
    AmountAt(amounts, key)
  }

  /** The record `extract_pdf_data` builds, one constructor field per key. */
  datatype EobRecord = EobRecord(
    patientName: Field,
    dateOfService: Field,
    lineCharge: Field,
    allowed: Field,
    contractual: Field,
    copay: Field,
    deductible: Field,
    coinsurance: Field,
    paid: Field,
    totalPtr: Field,
    checkEftNumber: Field,
    eftAmount: Field,
    eftDate: Field,
    processedDate: Field,
    payerClaimNumber: Field)

  const RecordKeys: seq<string> := [
    "Patient Name", "Date of Service", "Line Charge", "Allowed", "Contractual", "Copay",
    "Deductible", "Coinsurance", "Paid", "Total PTR", "Check/EFT Number", "EFT Amount",
    "EFT Date", "Processed/Denial Date", "Payer Claim Number"]

  /** The record as the `dict` literal of `extract_pdf_data`, keys in order. */
  function ToDict(r: EobRecord): (d: Dict<Field>)
    ensures Keys(d) == RecordKeys
  {
    var d := [
      ("Patient Name", r.patientName),
      ("Date of Service", r.dateOfService),
      ("Line Charge", r.lineCharge),
      ("Allowed", r.allowed),
      ("Contractual", r.contractual),
      ("Copay", r.copay),
      ("Deductible", r.deductible),
      ("Coinsurance", r.coinsurance),
      ("Paid", r.paid),
      ("Total PTR", r.totalPtr),
      ("Check/EFT Number", r.checkEftNumber),
      ("EFT Amount", r.eftAmount),
      ("EFT Date", r.eftDate),
      ("Processed/Denial Date", r.processedDate),
      ("Payer Claim Number", r.payerClaimNumber)];
    assert Keys(d) == RecordKeys;
    d
  }

  /** The steps of `extract_pdf_data` after the text is known. */
  function BuildRecord(text: string, p: Patterns): EobRecord {
    var claimNumber := ExtractClaimNumber(text, p.claim);
    var (startDate, _) := ExtractDateOfService(text, p.dates);
    var totalPtr := Amount(text, p, "Copay") + Amount(text, p, "Coinsurance") + Amount(text, p, "Deductible");
    var payment := ExtractPaymentInfo(text, Amount(text, p, "Paid"), p.eft);
    var claimNumberStr := if NonEmpty(claimNumber) then claimNumber.value else NA;
    var correctedPatientName := ExtractCorrectedPatientName(text, p.names);
    EobRecord(
      patientName := OrNull(correctedPatientName),
      dateOfService := Str(if NonEmpty(startDate) then startDate.value else NA),
      lineCharge := Money(Amount(text, p, "Line Charge")),
      allowed := Money(Amount(text, p, "Allowed")),
      contractual := Money(Amount(text, p, "Contractual")),
      copay := Money(Amount(text, p, "Copay")),
      deductible := Money(Amount(text, p, "Deductible")),
      coinsurance := Money(Amount(text, p, "Coinsurance")),
      paid := Money(Amount(text, p, "Paid")),
      totalPtr := Money(totalPtr),
      checkEftNumber := OrNull(payment.number),
      eftAmount := if payment.amount != Some(NA) then OrNull(payment.amount) else Int(0),
      eftDate := OrNull(payment.date),
      processedDate := OrNull(payment.date),
      payerClaimNumber := Str(claimNumberStr))
  }

  /** `extract_pdf_data(path)`, given the texts of the documents the parser
      returned for that path. */
  function ExtractPdfData(documents: seq<string>, p: Patterns): (r: Option<Dict<Field>>)
    ensures r.None? <==> documents == []
    ensures r.Some? ==> Keys(r.value) == RecordKeys
    ensures Truthy(r) <==> documents != []
  {
    if |documents| > 0 then Some(ToDict(BuildRecord(documents[0], p))) else None
  }

  lemma RecordKeysDistinct()
    ensures Distinct(RecordKeys)
  {
  }

  /** Looking up the name of field i of the record gives that field. */
  lemma RecordField(r: EobRecord, i: nat)
    requires i < |RecordKeys|
    ensures Get(ToDict(r), RecordKeys[i]) == Some(ToDict(r)[i].1)
  {
    RecordKeysDistinct();
  }

  lemma RecordKeyNames()
    ensures RecordKeys[0] == "Patient Name" && RecordKeys[1] == "Date of Service"
    ensures RecordKeys[2] == "Line Charge" && RecordKeys[3] == "Allowed" && RecordKeys[4] == "Contractual"
    ensures RecordKeys[5] == "Copay" && RecordKeys[6] == "Deductible" && RecordKeys[7] == "Coinsurance"
    ensures RecordKeys[8] == "Paid" && RecordKeys[9] == "Total PTR" && RecordKeys[10] == "Check/EFT Number"
    ensures RecordKeys[11] == "EFT Amount" && RecordKeys[12] == "EFT Date"
    ensures RecordKeys[13] == "Processed/Denial Date" && RecordKeys[14] == "Payer Claim Number"
  {
  }

  /** Every key of the dictionary finds the record field of that name. */
  lemma RecordFields(r: EobRecord)
    ensures Get(ToDict(r), "Patient Name") == Some(r.patientName)
    ensures Get(ToDict(r), "Date of Service") == Some(r.dateOfService)
    ensures Get(ToDict(r), "Line Charge") == Some(r.lineCharge)
    ensures Get(ToDict(r), "Allowed") == Some(r.allowed)
    ensures Get(ToDict(r), "Contractual") == Some(r.contractual)
    ensures Get(ToDict(r), "Copay") == Some(r.copay)
    ensures Get(ToDict(r), "Deductible") == Some(r.deductible)
    ensures Get(ToDict(r), "Coinsurance") == Some(r.coinsurance)
    ensures Get(ToDict(r), "Paid") == Some(r.paid)
    ensures Get(ToDict(r), "Total PTR") == Some(r.totalPtr)
    ensures Get(ToDict(r), "Check/EFT Number") == Some(r.checkEftNumber)
    ensures Get(ToDict(r), "EFT Amount") == Some(r.eftAmount)
    ensures Get(ToDict(r), "EFT Date") == Some(r.eftDate)
    ensures Get(ToDict(r), "Processed/Denial Date") == Some(r.processedDate)
    ensures Get(ToDict(r), "Payer Claim Number") == Some(r.payerClaimNumber)
  {
    RecordKeyNames();
    RecordField(r, 0);
    RecordField(r, 1);
    RecordField(r, 2);
    RecordField(r, 3);
    RecordField(r, 4);
    RecordField(r, 5);
    RecordField(r, 6);
    RecordField(r, 7);
    RecordField(r, 8);
    RecordField(r, 9);
    RecordField(r, 10);
    RecordField(r, 11);
    RecordField(r, 12);
    RecordField(r, 13);
    RecordField(r, 14);
  }

  /** The positions of the categories the record reads. */
  lemma CategoryNames()
    ensures Categories[0] == "Line Charge" && Categories[1] == "Allowed" && Categories[3] == "Contractual"
    ensures Categories[6] == "Copay" && Categories[7] == "Deductible" && Categories[8] == "Coinsurance"
    ensures Categories[11] == "Paid"
  {
  }

  /** Capture group k of the first grand-totals match, or the `"$0.00"`
      default when there is no match. */
  function Group(text: string, p: Patterns, k: nat): MoneyText
    requires k < 12
  {
    if p.totals(text) != [] then p.totals(text)[0][k] else "$0.00"
  }

  /** Category k of the grand totals holds group k, looked up by its name,
      and its amount is that group's value in cents. */
  lemma GrandTotalsLookup(text: string, p: Patterns, k: nat)
    requires k < 12
    ensures Get(ExtractGrandTotals(text, p.totals), Categories[k]) == Some(Group(text, p, k))
    ensures Amount(text, p, Categories[k]) == Cents(Group(text, p, k))
  {
    CategoriesDistinct();
    var gt := ExtractGrandTotals(text, p.totals);
    assert gt[k].0 == Categories[k];
    assert AmountsOf(gt)[k].0 == Categories[k];
  }

  /** The amounts the record reads, each the value of its capture group. */
  lemma AmountsByName(text: string, p: Patterns)
    ensures Amount(text, p, "Line Charge") == Cents(Group(text, p, 0))
    ensures Amount(text, p, "Allowed") == Cents(Group(text, p, 1))
    ensures Amount(text, p, "Contractual") == Cents(Group(text, p, 3))
    ensures Amount(text, p, "Copay") == Cents(Group(text, p, 6))
    ensures Amount(text, p, "Deductible") == Cents(Group(text, p, 7))
    ensures Amount(text, p, "Coinsurance") == Cents(Group(text, p, 8))
    ensures Amount(text, p, "Paid") == Cents(Group(text, p, 11))
  {
    CategoryNames();
    GrandTotalsLookup(text, p, 0);
    GrandTotalsLookup(text, p, 1);
    GrandTotalsLookup(text, p, 3);
    GrandTotalsLookup(text, p, 6);
    GrandTotalsLookup(text, p, 7);
    GrandTotalsLookup(text, p, 8);
    GrandTotalsLookup(text, p, 11);
  }

  /** Which amount each charge field of the record reads. */
  lemma RecordReadsCharges(text: string, p: Patterns)
    ensures BuildRecord(text, p).lineCharge == Money(Amount(text, p, "Line Charge"))
    ensures BuildRecord(text, p).allowed == Money(Amount(text, p, "Allowed"))
    ensures BuildRecord(text, p).contractual == Money(Amount(text, p, "Contractual"))
    ensures BuildRecord(text, p).paid == Money(Amount(text, p, "Paid"))
  {
  }

  /** Which amount each patient-share field of the record reads. */
  lemma RecordReadsShares(text: string, p: Patterns)
    ensures BuildRecord(text, p).copay == Money(Amount(text, p, "Copay"))
    ensures BuildRecord(text, p).deductible == Money(Amount(text, p, "Deductible"))
    ensures BuildRecord(text, p).coinsurance == Money(Amount(text, p, "Coinsurance"))
  {
  }

  /** Total PTR adds the three patient shares up. */
  lemma RecordTotalPtr(text: string, p: Patterns)
    ensures BuildRecord(text, p).totalPtr ==
      Money(Amount(text, p, "Copay") + Amount(text, p, "Coinsurance") + Amount(text, p, "Deductible"))
  {
  }

  /** The charge fields hold the amounts of their categories' captures. */
  lemma RecordCharges(text: string, p: Patterns)
    ensures BuildRecord(text, p).lineCharge == Money(Cents(Group(text, p, 0)))
    ensures BuildRecord(text, p).allowed == Money(Cents(Group(text, p, 1)))
    ensures BuildRecord(text, p).contractual == Money(Cents(Group(text, p, 3)))
    ensures BuildRecord(text, p).paid == Money(Cents(Group(text, p, 11)))
  {
    RecordReadsCharges(text, p);
    AmountsByName(text, p);
  }

  /** The patient-share fields hold the amounts of their categories'
      captures, and Total PTR is copay plus coinsurance plus deductible. */
  lemma RecordShares(text: string, p: Patterns)
    ensures BuildRecord(text, p).copay == Money(Cents(Group(text, p, 6)))
    ensures BuildRecord(text, p).deductible == Money(Cents(Group(text, p, 7)))
    ensures BuildRecord(text, p).coinsurance == Money(Cents(Group(text, p, 8)))
    ensures BuildRecord(text, p).totalPtr ==
      Money(Cents(Group(text, p, 6)) + Cents(Group(text, p, 8)) + Cents(Group(text, p, 7)))
  {
    RecordReadsShares(text, p);
    RecordTotalPtr(text, p);
    AmountsByName(text, p);
  }

  /** What `extract_payment_info` is asked: the text and its Paid amount. */
  function PaymentOf(text: string, p: Patterns): Payment {
    ExtractPaymentInfo(text, Cents(Group(text, p, 11)), p.eft)
  }

  /** The payment fields of the record: number and date pass through, the
      processed date repeats the EFT date, and an "N/A" amount becomes 0. */
  lemma RecordPayment(text: string, p: Patterns)
    ensures BuildRecord(text, p).checkEftNumber == OrNull(PaymentOf(text, p).number)
    ensures BuildRecord(text, p).eftDate == OrNull(PaymentOf(text, p).date)
    ensures BuildRecord(text, p).processedDate == BuildRecord(text, p).eftDate
    ensures BuildRecord(text, p).eftAmount == Int(0) <==> PaymentOf(text, p).amount == Some(NA)
    ensures PaymentOf(text, p).amount != Some(NA) ==> BuildRecord(text, p).eftAmount == OrNull(PaymentOf(text, p).amount)
  {
    CategoryNames();
    GrandTotalsLookup(text, p, 11);
  }

  /** The text fields: the corrected name passes through, the service date
      and the claim number fall back to "N/A" when missing or empty. */
  lemma RecordText(text: string, p: Patterns)
    ensures BuildRecord(text, p).patientName == OrNull(FirstMatch(p.names(text)))
    ensures p.dates(text) == [] || p.dates(text)[0].0 == "" ==> BuildRecord(text, p).dateOfService == Str(NA)
    ensures p.dates(text) != [] && p.dates(text)[0].0 != "" ==> BuildRecord(text, p).dateOfService == Str(p.dates(text)[0].0)
    ensures p.claim(text) == [] || p.claim(text)[0] == "" ==> BuildRecord(text, p).payerClaimNumber == Str(NA)
    ensures p.claim(text) != [] && p.claim(text)[0] != "" ==> BuildRecord(text, p).payerClaimNumber == Str(p.claim(text)[0])
  {
  }

  /** `data[key]` on what `extract_pdf_data` returned for a non-empty parse. */
  function Lookup(documents: seq<string>, p: Patterns, key: string): Option<Field>
    requires documents != []
  {
    Get(ExtractPdfData(documents, p).value, key)
  }

  /** Each key of the returned dictionary finds the field of that name of
      the first document's record. */
  lemma Entries(documents: seq<string>, p: Patterns)
    requires documents != []
    ensures Lookup(documents, p, "Patient Name") == Some(BuildRecord(documents[0], p).patientName)
    ensures Lookup(documents, p, "Date of Service") == Some(BuildRecord(documents[0], p).dateOfService)
    ensures Lookup(documents, p, "Line Charge") == Some(BuildRecord(documents[0], p).lineCharge)
    ensures Lookup(documents, p, "Allowed") == Some(BuildRecord(documents[0], p).allowed)
    ensures Lookup(documents, p, "Contractual") == Some(BuildRecord(documents[0], p).contractual)
    ensures Lookup(documents, p, "Copay") == Some(BuildRecord(documents[0], p).copay)
    ensures Lookup(documents, p, "Deductible") == Some(BuildRecord(documents[0], p).deductible)
    ensures Lookup(documents, p, "Coinsurance") == Some(BuildRecord(documents[0], p).coinsurance)
    ensures Lookup(documents, p, "Paid") == Some(BuildRecord(documents[0], p).paid)
    ensures Lookup(documents, p, "Total PTR") == Some(BuildRecord(documents[0], p).totalPtr)
    ensures Lookup(documents, p, "Check/EFT Number") == Some(BuildRecord(documents[0], p).checkEftNumber)
    ensures Lookup(documents, p, "EFT Amount") == Some(BuildRecord(documents[0], p).eftAmount)
    ensures Lookup(documents, p, "EFT Date") == Some(BuildRecord(documents[0], p).eftDate)
    ensures Lookup(documents, p, "Processed/Denial Date") == Some(BuildRecord(documents[0], p).processedDate)
    ensures Lookup(documents, p, "Payer Claim Number") == Some(BuildRecord(documents[0], p).payerClaimNumber)
  {
    RecordFields(BuildRecord(documents[0], p));
  }

  /** Only the first document's text is read: two parses that agree on it
      give the same record. */
  lemma FirstDocumentOnly(documents: seq<string>, others: seq<string>, p: Patterns)
    requires documents != [] && others != [] && documents[0] == others[0]
    ensures ExtractPdfData(documents, p) == ExtractPdfData(others, p)
  {
  }

  /** The money entries of the dictionary hold the amounts of their
      categories' captures. */
  lemma MoneyEntries(documents: seq<string>, p: Patterns)
    requires documents != []
    ensures Lookup(documents, p, "Line Charge") == Some(Money(Cents(Group(documents[0], p, 0))))
    ensures Lookup(documents, p, "Allowed") == Some(Money(Cents(Group(documents[0], p, 1))))
    ensures Lookup(documents, p, "Contractual") == Some(Money(Cents(Group(documents[0], p, 3))))
    ensures Lookup(documents, p, "Copay") == Some(Money(Cents(Group(documents[0], p, 6))))
    ensures Lookup(documents, p, "Deductible") == Some(Money(Cents(Group(documents[0], p, 7))))
    ensures Lookup(documents, p, "Coinsurance") == Some(Money(Cents(Group(documents[0], p, 8))))
    ensures Lookup(documents, p, "Paid") == Some(Money(Cents(Group(documents[0], p, 11))))
  {
    Entries(documents, p);
    RecordCharges(documents[0], p);
    RecordShares(documents[0], p);
  }

  /** Total PTR is the patient's share: the copay, coinsurance and
      deductible entries added up. */
  lemma TotalPtrEntry(documents: seq<string>, p: Patterns)
    requires documents != []
    ensures Lookup(documents, p, "Total PTR").Some? && Lookup(documents, p, "Total PTR").value.Money?
    ensures Lookup(documents, p, "Copay").Some? && Lookup(documents, p, "Copay").value.Money?
    ensures Lookup(documents, p, "Coinsurance").Some? && Lookup(documents, p, "Coinsurance").value.Money?
    ensures Lookup(documents, p, "Deductible").Some? && Lookup(documents, p, "Deductible").value.Money?
    ensures Lookup(documents, p, "Total PTR").value.cents ==
      Lookup(documents, p, "Copay").value.cents + Lookup(documents, p, "Coinsurance").value.cents
      + Lookup(documents, p, "Deductible").value.cents
  {
    Entries(documents, p);
    RecordReadsShares(documents[0], p);
    RecordTotalPtr(documents[0], p);
  }

  /** The text entries: the corrected name passes through, the service date
      and the claim number fall back to "N/A" when missing or empty. */
  lemma TextEntries(documents: seq<string>, p: Patterns)
    requires documents != []
    ensures Lookup(documents, p, "Patient Name") == Some(OrNull(FirstMatch(p.names(documents[0]))))
    ensures Lookup(documents, p, "Date of Service") == Some(Str(
      if p.dates(documents[0]) != [] && p.dates(documents[0])[0].0 != "" then p.dates(documents[0])[0].0 else NA))
    ensures Lookup(documents, p, "Payer Claim Number") == Some(Str(
      if p.claim(documents[0]) != [] && p.claim(documents[0])[0] != "" then p.claim(documents[0])[0] else NA))
  {
    Entries(documents, p);
    RecordText(documents[0], p);
  }

  /** The processed date is always the EFT date. */
  lemma ProcessedIsEftDate(documents: seq<string>, p: Patterns)
    requires documents != []
    ensures Lookup(documents, p, "Processed/Denial Date") == Lookup(documents, p, "EFT Date")
  {
    Entries(documents, p);
    RecordPayment(documents[0], p);
  }

  /** A zero Paid amount sets the payment entries to "N/A" and the EFT
      amount to 0, whatever the EFT block of the text says. */
  lemma NothingPaid(documents: seq<string>, p: Patterns)
    requires documents != [] && Cents(Group(documents[0], p, 11)) == 0
    ensures Lookup(documents, p, "Check/EFT Number") == Some(Str(NA))
    ensures Lookup(documents, p, "EFT Date") == Some(Str(NA))
    ensures Lookup(documents, p, "Processed/Denial Date") == Some(Str(NA))
    ensures Lookup(documents, p, "EFT Amount") == Some(Int(0))
  {
    Entries(documents, p);
    RecordPayment(documents[0], p);
  }

  /** A positive Paid amount with no EFT block leaves all payment entries `None`. */
  lemma PaidWithoutEft(documents: seq<string>, p: Patterns)
    requires documents != [] && Cents(Group(documents[0], p, 11)) > 0 && p.eft(documents[0]) == []
    ensures Lookup(documents, p, "Check/EFT Number") == Some(Null)
    ensures Lookup(documents, p, "EFT Date") == Some(Null)
    ensures Lookup(documents, p, "Processed/Denial Date") == Some(Null)
    ensures Lookup(documents, p, "EFT Amount") == Some(Null)
  {
    Entries(documents, p);
    RecordPayment(documents[0], p);
  }

  /** A positive Paid amount with an EFT block: the number and date are
      the trimmed captures, and the amount is the trimmed capture without
      its commas, kept as a string. */
  lemma PaidWithEft(documents: seq<string>, p: Patterns)
    requires documents != [] && Cents(Group(documents[0], p, 11)) > 0 && p.eft(documents[0]) != []
    ensures Lookup(documents, p, "Check/EFT Number") == Some(Str(Strip(p.eft(documents[0])[0].number, Whitespace)))
    ensures Lookup(documents, p, "EFT Date") == Some(Str(Strip(p.eft(documents[0])[0].date, Whitespace)))
    ensures Lookup(documents, p, "Processed/Denial Date") == Some(Str(Strip(p.eft(documents[0])[0].date, Whitespace)))
    ensures Lookup(documents, p, "EFT Amount") ==
      Some(Str(RemoveChar(Strip(p.eft(documents[0])[0].amount, Whitespace), ',')))
    ensures ',' !in Lookup(documents, p, "EFT Amount").value.s
    ensures multiset(Lookup(documents, p, "EFT Amount").value.s)
      == multiset(Strip(p.eft(documents[0])[0].amount, Whitespace))[',' := 0]
  {
    var text := documents[0];
    var m := p.eft(text)[0];
    var a := PaymentOf(text, p).amount.value;
    EftAmountNoLetter(m.amount, 'N');
    StripKeeps(m.amount, Whitespace);
    assert multiset(a)['N'] == 0;
    assert NA[0] == 'N';
    assert a != NA;
    Entries(documents, p);
    RecordPayment(text, p);
  }

  /** The EFT amount entry is 0 exactly when nothing was paid. */
  lemma EftAmountZero(documents: seq<string>, p: Patterns)
    requires documents != []
    ensures Lookup(documents, p, "EFT Amount") == Some(Int(0)) <==> Cents(Group(documents[0], p, 11)) == 0
  {
    if Cents(Group(documents[0], p, 11)) == 0 {
      NothingPaid(documents, p);
    } else if p.eft(documents[0]) == [] {
      PaidWithoutEft(documents, p);
    } else {
      PaidWithEft(documents, p);
    }
  }

  /** Without a grand-totals table every category reads "$0.00", which is 0. */
  lemma NoTotalsAmounts(text: string, p: Patterns)
    requires p.totals(text) == []
    ensures Amount(text, p, "Line Charge") == 0
    ensures Amount(text, p, "Allowed") == 0
    ensures Amount(text, p, "Contractual") == 0
    ensures Amount(text, p, "Copay") == 0
    ensures Amount(text, p, "Deductible") == 0
    ensures Amount(text, p, "Coinsurance") == 0
    ensures Amount(text, p, "Paid") == 0
  {
    ZeroToken();
    AmountsByName(text, p);
  }

  /** ... so every money field of the record is 0 and nothing is paid. */
  lemma RecordNoTotals(text: string, p: Patterns)
    requires p.totals(text) == []
    ensures BuildRecord(text, p).lineCharge == Money(0)
    ensures BuildRecord(text, p).allowed == Money(0)
    ensures BuildRecord(text, p).contractual == Money(0)
    ensures BuildRecord(text, p).copay == Money(0)
    ensures BuildRecord(text, p).deductible == Money(0)
    ensures BuildRecord(text, p).coinsurance == Money(0)
    ensures BuildRecord(text, p).paid == Money(0)
    ensures BuildRecord(text, p).totalPtr == Money(0)
  {
    NoTotalsAmounts(text, p);
    RecordReadsCharges(text, p);
    RecordReadsShares(text, p);
    RecordTotalPtr(text, p);
  }

  /** Without grand totals nothing counts as paid, so the payment fields
      are all "N/A". */
  lemma NoTotalsUnpaid(text: string, p: Patterns)
    requires p.totals(text) == []
    ensures PaymentOf(text, p) == Unpaid
  {
    ZeroToken();
  }

  /** No grand-totals table: every amount is 0, and so the payment entries
      are "N/A" and the EFT amount is 0. */
  lemma NoTotalsTable(documents: seq<string>, p: Patterns)
    requires documents != [] && p.totals(documents[0]) == []
    ensures Lookup(documents, p, "Line Charge") == Some(Money(0))
    ensures Lookup(documents, p, "Allowed") == Some(Money(0))
    ensures Lookup(documents, p, "Contractual") == Some(Money(0))
    ensures Lookup(documents, p, "Copay") == Some(Money(0))
    ensures Lookup(documents, p, "Deductible") == Some(Money(0))
    ensures Lookup(documents, p, "Coinsurance") == Some(Money(0))
    ensures Lookup(documents, p, "Paid") == Some(Money(0))
    ensures Lookup(documents, p, "Total PTR") == Some(Money(0))
    ensures Lookup(documents, p, "Check/EFT Number") == Some(Str(NA))
    ensures Lookup(documents, p, "EFT Date") == Some(Str(NA))
    ensures Lookup(documents, p, "Processed/Denial Date") == Some(Str(NA))
    ensures Lookup(documents, p, "EFT Amount") == Some(Int(0))
  {
    Entries(documents, p);
    RecordNoTotals(documents[0], p);
    NoTotalsUnpaid(documents[0], p);
    RecordPayment(documents[0], p);
  }
}
