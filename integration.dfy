/** The import of one month of invoices from the sales system (`sales/integration.py`).

    The result set of the sales system's query is a sequence of rows, one per invoice and
    ticket, in the order the query returns them. The importer folds over it with one
    invoice in progress: a row repeating that invoice's number only adds its ticket (to a
    sale) and is otherwise dropped; a row with a new number first saves the invoice in
    progress and then starts a new one, classified as canceled, denied, or by the
    operation code of its parsed document. The last invoice is saved after the loop. The
    whole run is one transaction: any failure leaves the invoice table as it was.

    Outside the model, and passed in instead: the query itself (`query`), the HTML
    tokenizer with the byte decoding (`tokenize`) and the field validation of Django's
    `full_clean` (`clean`). The primary-key check that `full_clean` makes for a new
    record (its number must not be in the table yet) is modelled. */
module Integration {
  import opened Wrappers
  import opened Text
  import opened Dates
  import opened Models
  import opened NfeParser

  /** `CODE_NATURE`: the nature of each known fiscal operation code (CFOP). */
  const CodeNature: map<string, Nature> := map[
    "1202" := SaleReturn,
    "1411" := SaleReturn,
    "2202" := SaleReturn,
    "2411" := SaleReturn,
    "5929" := Sale,
    "6929" := Sale,
    "5202" := PurchaseReturn,
    "5411" := PurchaseReturn,
    "6202" := PurchaseReturn,
    "6411" := PurchaseReturn,
    "6915" := RMA,
    "6949" := RMA
  ]

  const SaleReturnCodes: set<string> := {"1202", "1411", "2202", "2411"}
  const SaleCodes: set<string> := {"5929", "6929"}
  const PurchaseReturnCodes: set<string> := {"5202", "5411", "6202", "6411"}
  const RmaCodes: set<string> := {"6915", "6949"}

  /** The table knows exactly the twelve codes of the four families. */
  lemma CodeNatureKeys()
    ensures CodeNature.Keys == SaleReturnCodes + SaleCodes + PurchaseReturnCodes + RmaCodes
  {
  }

  /** Each family maps to its nature, so no code yields a nature that the importer assigns
      by other means (canceled, denied) or never (skipped). */
  lemma CodeNatureFamilies(c: string)
    requires c in CodeNature
    ensures c in SaleReturnCodes ==> CodeNature[c] == SaleReturn
    ensures c in SaleCodes ==> CodeNature[c] == Sale
    ensures c in PurchaseReturnCodes ==> CodeNature[c] == PurchaseReturn
    ensures c in RmaCodes ==> CodeNature[c] == RMA
    ensures CodeNature[c] !in {Canceled, Denied, Skipped}
  {
    CodeNatureKeys();
  }

  datatype ImportError =
    | InvalidPeriod(year: int, month: int)       // datetime.date raises ValueError
    | NotAnInteger(text: string)                 // int() raises ValueError
    | Undecodable                                // the document's bytes do not decode
    | ParseFailed(cause: ParseError)             // a document field is missing
    | NumberMismatch(row: int, document: int)    // the document's number is not the row's
    | DateMismatch(rowDate: string, documentDate: string)
    | UnknownOperation(code: string)             // the code is not in CODE_NATURE
    | TicketsUnset(number: int)                  // appending a ticket to no tickets
    | Rejected(invoice: Invoice)                 // full_clean refuses the invoice
    | NoInvoice                                  // no row at all: nothing to save at the end

  /** The first and last day of the month, as `datetime.date(year, month, 1)` and
      `datetime.date(year, month, calendar.monthlen(year, month))`. */
  function PeriodBounds(year: int, month: int): (r: Result<(Date, Date), ImportError>)
    ensures r.Success? <==> MinYear <= year <= MaxYear && 1 <= month <= 12
    ensures r.Failure? ==> r.error == InvalidPeriod(year, month)
    ensures r.Success? ==>
      var (first, last) := r.value;
      && first == Date(year, month, 1) && last.year == year && last.month == month
      && ValidDate(first) && ValidDate(last) && 28 <= last.day <= 31
      && forall day :: ValidDate(Date(year, month, day)) <==> first.day <= day <= last.day
  {
    if MinYear <= year <= MaxYear && 1 <= month <= 12 then
      Success((Date(year, month, 1), Date(year, month, MonthLen(year, month))))
    else
      Failure(InvalidPeriod(year, month))
  }

  /** One row of the query's result: `NUMERO, DATA_EMISSAO, XML, RECIBO_CODSTATUS,
      CANCELA_CODSTATUS, NUMERO_IMP`. */
  datatype Row = Row(
    number: string,
    date: Date,
    xml: seq<bv8>,
    status: string,
    cancelStatus: string,
    ticket: string)

  /** What the importer is given besides the rows: the tokenizer of a document's bytes
      (None when they do not decode), the field checks of `full_clean`, and the numbers
      already in the invoice table when the run starts. */
  datatype Env = Env(
    tokenize: seq<bv8> -> Option<seq<Event>>,
    clean: Invoice -> bool,
    stored: set<int>)

  /** An invoice carries tickets exactly when it is a sale. */
  predicate Consistent(v: Invoice) { v.tickets.Some? <==> v.nature == Sale }

  /** An invoice that is not parsed: only number, date and nature are set. */
  function Unparsed(number: int, date: Date, nature: Nature): Invoice
  {
    Invoice(number, date, None, nature, None, None, None, None)
  }

  /** A new invoice from the first row of its number. A canceled row is never parsed,
      nor is a row whose receipt status is not "100"; any other row's document must
      parse, agree with the row on number and date, and carry a known operation code. */
  function NewRecord(number: int, row: Row, tokenize: seq<bv8> -> Option<seq<Event>>): (r: Result<Invoice, ImportError>)
    ensures r.Success? ==> Consistent(r.value) && r.value.nature != Skipped
    ensures r.Success? ==> r.value.number == number && r.value.date == row.date && r.value.comment.None?
    ensures r.Success? && r.value.nature in {Canceled, Denied} ==>
              r.value == Unparsed(number, row.date, r.value.nature)
    ensures r.Success? && r.value.customer.Some? ==> HasNoLower(r.value.customer.value)
    ensures row.cancelStatus != "" ==> r == Success(Unparsed(number, row.date, Canceled))
    ensures row.cancelStatus == "" && row.status != "100" ==> r == Success(Unparsed(number, row.date, Denied))
    ensures row.cancelStatus == "" && row.status == "100" && r.Success? ==>
              r.value.nature !in {Canceled, Denied} && r.value.total.Some? && r.value.tax.Some?
  {
    if row.cancelStatus != "" then Success(Unparsed(number, row.date, Canceled))
    else if row.status != "100" then Success(Unparsed(number, row.date, Denied))
    else
      match tokenize(row.xml)
      case None => Failure(Undecodable)
      case Some(events) =>
        match ParseEvents(events)
        case Failure(e) => Failure(ParseFailed(e))
        case Success(pix) =>
          match ParseInt(pix.number)
          case None => Failure(NotAnInteger(pix.number))
          case Some(n) =>
            if n != number then Failure(NumberMismatch(number, n))
            else if pix.date != IsoFormat(row.date) then Failure(DateMismatch(IsoFormat(row.date), pix.date))
            else if pix.operation !in CodeNature then Failure(UnknownOperation(pix.operation))
            else
              var nature := CodeNature[pix.operation];
              CodeNatureFamilies(pix.operation);
              Success(Invoice(number, row.date, Some(Upper(pix.customer)), nature,
                              Some(pix.total), Some(pix.tax),
                              if nature == Sale then Some(row.ticket) else None, None))
  }

  /** For a row that is neither canceled nor denied, the new invoice exists exactly when its
      document decodes and parses, carries the row's number, the row's date in ISO form and
      a known operation code; the invoice then takes its nature from that code and its
      customer (in capitals), total and tax from the document. */
  lemma DocumentChecks(number: int, row: Row, tokenize: seq<bv8> -> Option<seq<Event>>)
    requires row.cancelStatus == "" && row.status == "100"
    ensures NewRecord(number, row, tokenize).Success? <==>
      && tokenize(row.xml).Some?
      && ParseEvents(tokenize(row.xml).value).Success?
      && var pix := ParseEvents(tokenize(row.xml).value).value;
      && ParseInt(pix.number) == Some(number)
      && pix.date == IsoFormat(row.date)
      && pix.operation in CodeNature
    ensures NewRecord(number, row, tokenize).Success? ==>
      var pix := ParseEvents(tokenize(row.xml).value).value;
      var v := NewRecord(number, row, tokenize).value;
      && v.nature == CodeNature[pix.operation]
      && v.customer == Some(Upper(pix.customer))
      && v.total == Some(pix.total) && v.tax == Some(pix.tax)
      && v.tickets == (if v.nature == Sale then Some(row.ticket) else None)
  {
  }

  /** The saved invoices so far and the invoice in progress. */
  datatype FoldState = FoldState(saved: seq<Invoice>, current: Option<Invoice>)

  /** `full_clean` accepts v: its fields pass, and its number is neither in the table
      nor among the invoices this run has saved. */
  predicate Admissible(env: Env, saved: seq<Invoice>, v: Invoice)
  {
    env.clean(v) && v.number !in env.stored && forall i :: 0 <= i < |saved| ==> saved[i].number != v.number
  }

  /** What the invoices saved by a run have in common: each passed `full_clean`, each
      number was new to the table, and no two share a number. */
  predicate Accepted(env: Env, saved: seq<Invoice>)
  {
    && (forall i :: 0 <= i < |saved| ==> env.clean(saved[i]) && saved[i].number !in env.stored)
    && forall i, j :: 0 <= i < j < |saved| ==> saved[i].number != saved[j].number
  }

  /** The invoice in progress, if any, carries tickets exactly when it is a sale. */
  predicate CurrentConsistent(st: FoldState)
  {
    st.current.Some? ==> Consistent(st.current.value)
  }

  /** `v.full_clean(); v.save()`: v is saved after the others exactly when `full_clean`
      accepts it, and the saved invoices stay accepted. */
  function Flush(env: Env, saved: seq<Invoice>, v: Invoice): (r: Result<seq<Invoice>, ImportError>)
    ensures r.Success? <==> Admissible(env, saved, v)
    ensures r.Success? ==> r.value == saved + [v]
    ensures r.Failure? ==> r.error == Rejected(v)
    ensures r.Success? && Accepted(env, saved) ==> Accepted(env, r.value)
  {
    if Admissible(env, saved, v) then Success(saved + [v]) else Failure(Rejected(v))
  }

  /** One turn of the loop. A row whose number is not an integer fails; otherwise the
      row's number is in progress afterwards, and the invoice that was in progress is
      saved exactly when the row has another number. The saved invoices stay accepted,
      and the invoice in progress keeps tickets exactly when it is a sale, so appending a
      ticket never finds them unset. */
  function Step(env: Env, st: FoldState, row: Row): (r: Result<FoldState, ImportError>)
    ensures ParseInt(row.number).None? ==> r == Failure(NotAnInteger(row.number))
    ensures r.Success? ==>
      && ParseInt(row.number).Some? && r.value.current.Some?
      && r.value.current.value.number == ParseInt(row.number).value
      && if st.current.Some? && st.current.value.number == ParseInt(row.number).value
         then r.value.saved == st.saved && r.value.current.value.nature == st.current.value.nature
         else r.value.saved == st.saved + (if st.current.Some? then [st.current.value] else [])
    ensures r.Success? && Accepted(env, st.saved) ==> Accepted(env, r.value.saved)
    ensures r.Success? && CurrentConsistent(st) ==> CurrentConsistent(r.value)
    ensures r.Failure? && CurrentConsistent(st) ==> !r.error.TicketsUnset?
  {
    match ParseInt(row.number)
    case None => Failure(NotAnInteger(row.number))
    case Some(number) =>
      if st.current.Some? && st.current.value.number == number then
        var v := st.current.value;
        if v.nature != Sale then Success(st)
        else if v.tickets.None? then Failure(TicketsUnset(number))
        else Success(st.(current := Some(v.(tickets := Some(v.tickets.value + "," + row.ticket)))))
      else
        var flushed := if st.current.Some? then Flush(env, st.saved, st.current.value) else Success(st.saved);
        match flushed
        case Failure(e) => Failure(e)
        case Success(saved) =>
          match NewRecord(number, row, env.tokenize)
          case Failure(e) => Failure(e)
          case Success(v) => Success(FoldState(saved, Some(v)))
  }

  /** After the loop: save the last invoice, of which there is none when there was no row. */
  function Finish(env: Env, st: FoldState): (r: Result<seq<Invoice>, ImportError>)
    ensures st.current.None? ==> r == Failure(NoInvoice)
    ensures r.Success? <==> st.current.Some? && Admissible(env, st.saved, st.current.value)
    ensures r.Success? ==> r.value == st.saved + [st.current.value]
    ensures r.Success? && Accepted(env, st.saved) ==> Accepted(env, r.value)
  {
    match st.current
    case None => Failure(NoInvoice)
    case Some(v) => Flush(env, st.saved, v)
  }

  /** The rest of the loop from state st, then the final save. A success extends what was
      saved by at least one invoice and by at most one per row, plus the one in progress;
      accepted invoices stay accepted; tickets are never found unset. */
  function Run(env: Env, st: FoldState, rows: seq<Row>): (r: Result<seq<Invoice>, ImportError>)
    ensures r.Success? ==> |st.saved| < |r.value| && r.value[..|st.saved|] == st.saved
    ensures r.Success? ==> |r.value| <= |st.saved| + |rows| + (if st.current.Some? then 1 else 0)
    ensures r.Success? && Accepted(env, st.saved) ==> Accepted(env, r.value)
    ensures r.Failure? && CurrentConsistent(st) ==> !r.error.TicketsUnset?
    decreases |rows|
  {
    if rows == [] then Finish(env, st)
    else
      match Step(env, st, rows[0])
      case Failure(e) => Failure(e)
      case Success(next) => Run(env, next, rows[1..])
  }

  /** The invoices a run saves, in order, or the error that aborts it. No row fails at the
      final save; a success saves between one invoice and one per row, all accepted by
      `full_clean` with pairwise different numbers new to the table. */
  function ImportRows(env: Env, rows: seq<Row>): (r: Result<seq<Invoice>, ImportError>)
    ensures rows == [] ==> r == Failure(NoInvoice)
    ensures r.Success? ==> 1 <= |r.value| <= |rows| && Accepted(env, r.value)
    ensures r.Failure? ==> !r.error.TicketsUnset?
  {
    Run(env, FoldState([], None), rows)
  }

  /** `import_invoices(year, month)`, with `query` standing for the sales system's query
      between two dates. */
  function Import(year: int, month: int, query: (Date, Date) -> seq<Row>, env: Env): (r: Result<seq<Invoice>, ImportError>)
    ensures !(MinYear <= year <= MaxYear && 1 <= month <= 12) ==> r == Failure(InvalidPeriod(year, month))
    ensures MinYear <= year <= MaxYear && 1 <= month <= 12
            && query(Date(year, month, 1), Date(year, month, MonthLen(year, month))) == [] ==>
              r == Failure(NoInvoice)
    ensures MinYear <= year <= MaxYear && 1 <= month <= 12 ==>
              r == ImportRows(env, query(Date(year, month, 1), Date(year, month, MonthLen(year, month))))
    ensures r.Success? ==> r.value != [] && Accepted(env, r.value)
  {
    match PeriodBounds(year, month)
    case Failure(e) => Failure(e)
    case Success(bounds) => ImportRows(env, query(bounds.0, bounds.1))
  }

  /** The invoice table after saving `batch` in order, each keyed by its number. */
  function Commit(table: map<int, Invoice>, batch: seq<Invoice>): (r: map<int, Invoice>)
    ensures forall n :: n in r <==> n in table || exists i :: 0 <= i < |batch| && batch[i].number == n
    decreases |batch|
  {
    if batch == [] then table
    else
      var last := batch[|batch| - 1];
      var r := Commit(table, batch[..|batch| - 1])[last.number := last];
      assert forall i :: 0 <= i < |batch| - 1 ==> batch[..|batch| - 1][i] == batch[i];
      r
  }

  /** The invoice table, keyed by number. */
  class InvoiceTable {
    var records: map<int, Invoice>

    constructor (records: map<int, Invoice>)
      ensures this.records == records
    {
      this.records := records;
    }

    /** `save()` of an invoice. */
    method Save(inv: Invoice)
      modifies this
      ensures records == old(records)[inv.number := inv]
    {
      records := records[inv.number := inv];
    }

    /** The rollback of the enclosing transaction. */
    method Restore(snapshot: map<int, Invoice>)
      modifies this
      ensures records == snapshot
    {
      records := snapshot;
    }
  }

  /** The body of the loop for a row that starts a new invoice: `Invoice(number=number,
      date=date)` classified and, for an accepted row, filled from its document. */
  method NewInvoice(number: int, row: Row, tokenize: seq<bv8> -> Option<seq<Event>>)
    returns (r: Result<Invoice, ImportError>)
    ensures r == NewRecord(number, row, tokenize)
  {
    var nature: Nature;
    var customer: Option<string> := None;
    var total: Option<string> := None;
    var tax: Option<string> := None;
    var tickets: Option<string> := None;
    if row.cancelStatus != "" {
      nature := Canceled;
    } else if row.status != "100" {
      nature := Denied;
    } else {
      var events := tokenize(row.xml);
      if events.None? {
        return Failure(Undecodable);
      }
      var pix := InvoiceParser.Parse(events.value);
      if pix.Failure? {
        return Failure(ParseFailed(pix.error));
      }
      var documentNumber := ParseInt(pix.value.number);
      if documentNumber.None? {
        return Failure(NotAnInteger(pix.value.number));
      }
      if documentNumber.value != number {
        return Failure(NumberMismatch(number, documentNumber.value));
      }
      if pix.value.date != IsoFormat(row.date) {
        return Failure(DateMismatch(IsoFormat(row.date), pix.value.date));
      }
      if pix.value.operation !in CodeNature {
        return Failure(UnknownOperation(pix.value.operation));
      }
      nature := CodeNature[pix.value.operation];
      customer := Some(Upper(pix.value.customer));
      total := Some(pix.value.total);
      tax := Some(pix.value.tax);
      if nature == Sale {
        tickets := Some(row.ticket);
      }
    }
    r := Success(Invoice(number, row.date, customer, nature, total, tax, tickets, None));
  }

  /** `import_invoices`: on success every invoice of the run is in the table; on any
      failure the table is as it was. */
  method ImportInvoices(year: int, month: int, query: (Date, Date) -> seq<Row>,
                        tokenize: seq<bv8> -> Option<seq<Event>>, clean: Invoice -> bool,
                        table: InvoiceTable)
    returns (outcome: Result<seq<Invoice>, ImportError>)
    modifies table
    ensures outcome == Import(year, month, query, Env(tokenize, clean, old(table.records).Keys))
    ensures outcome.Failure? ==> table.records == old(table.records)
    ensures outcome.Success? ==> table.records == Commit(old(table.records), outcome.value)
  {
    if !(MinYear <= year <= MaxYear && 1 <= month <= 12) {
      return Failure(InvalidPeriod(year, month));
    }
    var beginDate := Date(year, month, 1);
    var endDate := Date(year, month, MonthLen(year, month));
    var rows := query(beginDate, endDate);
    ghost var env := Env(tokenize, clean, table.records.Keys);
    var before := table.records;
    var saved: seq<Invoice> := [];
    var v: Option<Invoice> := None;
    var i := 0;
    while i < |rows|
      invariant 0 <= i <= |rows|
      invariant table.records == Commit(before, saved)
      invariant Run(env, FoldState(saved, v), rows[i..]) == ImportRows(env, rows)
      invariant CurrentConsistent(FoldState(saved, v))
    {
      var row := rows[i];
      assert rows[i..][0] == row && rows[i..][1..] == rows[i + 1..];
      var parsed := ParseInt(row.number);
      if parsed.None? {
        table.Restore(before);
        return Failure(NotAnInteger(row.number));
      }
      var number := parsed.value;

      if v.Some? {
        // A repeated number only adds the row's ticket to a sale.
        if v.value.number == number {
          if v.value.nature == Sale {
            v := Some(v.value.(tickets := Some(v.value.tickets.value + "," + row.ticket)));
          }
          i := i + 1;
          continue;
        }
        // Otherwise the invoice in progress is saved.
        if !clean(v.value) || v.value.number in table.records {
          table.Restore(before);
          return Failure(Rejected(v.value));
        }
        table.Save(v.value);
        saved := saved + [v.value];
      }

      var record := NewInvoice(number, row, tokenize);
      if record.Failure? {
        table.Restore(before);
        return Failure(record.error);
      }
      v := Some(record.value);
      i := i + 1;
    }

    // The last invoice is saved after the loop.
    if v.None? {
      table.Restore(before);
      return Failure(NoInvoice);
    }
    if !clean(v.value) || v.value.number in table.records {
      table.Restore(before);
      return Failure(Rejected(v.value));
    }
    table.Save(v.value);
    saved := saved + [v.value];
    return Success(saved);
  }
}
