# Invoice import of the sales application, modelled in Dafny

The sales application keeps one row per invoice (NF-e, the Brazilian electronic invoice)
in an `Invoice` table. Each row holds a nature, its customer, total, tax and, for a sale,
the comma-joined list of the cash-register tickets (cupons) it covers. Once a month,
`import_invoices(year, month)` reads that month's invoices from the sales system's
database. It queries one row per invoice and ticket, then walks the rows with one invoice
in progress:

- A row with the number in progress only adds its ticket, and only to a sale.
- A row with a new number first saves the invoice in progress. It then starts a new
  invoice, which is one of:
  - canceled, when the row has a cancellation status;
  - denied, when the receipt status is not `100`;
  - otherwise filled from the invoice's XML document. `InvoiceParser` extracts six fields
    from the document, and the importer checks that its number and date agree with the
    row. The operation code (CFOP) gives the nature through `CODE_NATURE`.
- The last invoice is saved after the loop.

The whole run is one database transaction.

The project models and proves the following:

- **`wrappers.dfy`**: `Option` and `Result`.
- **`text.dfy`**: the Python text operations the code relies on: `int()` on decimal text,
  `"%0Nd"`, slicing and ASCII `upper()`. It proves that formatting a number is undone by
  parsing it.
- **`dates.dfy`**: `datetime.date` validity, `calendar.monthlen` and `date.isoformat()`.
- **`models.dfy`**: `sales/models.py`. It covers:
  - the nature codes and choices;
  - the record;
  - `tickets_list` and its inverse, the comma join the importer builds;
  - `__str__`.
- **`parser.dfy`**: `InvoiceParser`. Each handler is a pure function of the parser state:
  section flags, current tag and captured fields. Path scoping is proved over these
  functions. The class `InvoiceParser` has the source's three fields, and its methods are
  proved to follow the functions.
- **`integration.dfy`**: `CODE_NATURE`, the period bounds, the classification of a new
  invoice, and the row fold as a function (`Run`). `ImportInvoices` is the imperative loop
  over a mutable `InvoiceTable`. It is proved to return what the fold returns, to leave
  the table as it was on every failure, and to commit exactly the saved invoices on
  success.
- **`runs.dfy`**: an independent description of the fold. The rows are grouped into
  *runs*, maximal blocks of adjacent rows with the same number. The import is proved equal
  to saving one invoice per run, made from the run's first row, in run order, with the
  run's tickets joined for a sale. Corollaries:
  - the saved numbers are pairwise different and new to the table;
  - a number that comes back after another number makes the import fail;
  - a sale's `tickets_list` gives back its run's tickets;
  - importing the same period a second time fails.

Four behaviours of the code worth noting:

- **Empty month.** The code saves the last invoice unconditionally, and with no row at all
  that is `None.full_clean()`. An empty month is therefore an error (`NoInvoice`), not an
  empty import.
- **Repeated numbers.** The query is `SELECT DISTINCT`, so identical rows come back once,
  but nothing groups the rows by number: only adjacent rows with the same number collapse
  into one invoice. There is no second query for tickets: a ticket is appended within the
  same loop.
- **`CODE_NATURE` keys.** They are four-character strings, looked up with the raw text of
  the document's `CFOP` field. Nothing is converted to a number.
- **Re-import.** A saved invoice is a new model instance, so `full_clean` runs Django's
  primary-key uniqueness check. Re-importing an already imported number is rejected, not
  overwritten.

## Model

| member | source | states |
|---|---|---|
| Text.FormatInt | sales/models.py:42 | `"%0Nd" % n`: the digits of n, after a `-` when n is negative, left-padded with zeros to exactly N characters when shorter and unpadded otherwise |
| Text.PaddedValue | sales/models.py:42 | zero padding keeps a digit string all digits and keeps its value |
| Text.FormatIntParses | sales/models.py:42 | `int("%0Nd" % n) == n` for every integer and width: the padded number reads back as the number |
| Text.ParseInt | sales/integration.py:148 | `int()` on text: accepted exactly when it is a nonempty digit string, or a `+` or `-` followed by one; the value is the decimal value of the digits, negated after `-` |
| Text.Prefix | sales/integration.py:52 | `s[0:n]` has at most n characters, is a prefix of s, is all of s when s is short and exactly n long otherwise |
| Text.UpperChar | sales/integration.py:179 | a lower-case ASCII letter becomes its capital (32 code points lower), any other character is kept |
| Text.Upper | sales/integration.py:179 | the customer in capitals: same length, no lower-case letter left, each character capitalised in place |
| Text.UpperIdempotent | sales/integration.py:179 | capitalising twice is capitalising once |
| Dates.MonthLen | sales/integration.py:130 | `calendar.monthlen`: 31 days exactly for months 1,3,5,7,8,10,12, 30 for 4,6,9,11, 29 for a leap February, 28 otherwise |
| Dates.IsLeap | sales/integration.py:130 | `calendar.isleap`, on which `monthlen` decides February: a year divisible by 4, and not by 100 unless by 400 |
| Dates.FixedWidth | sales/integration.py:175 | a number below 10^k formatted to width k is exactly k digits that read back as the number |
| Dates.IsoFormat | sales/integration.py:175 | `date.isoformat()` of a valid date is ten characters `YYYY-MM-DD`: dashes at positions 4 and 7, and three all-digit parts that read back as year, month and day |
| Models.CodesDistinct | sales/models.py:7-13 | the seven nature codes are pairwise different: two natures share a code exactly when they are the same |
| Models.ChoicesListEachNatureOnce | sales/models.py:15-23 | the choices list seven entries with pairwise different codes, each nature's code among them, and the display of each listed code is the label beside it |
| Models.Display | sales/models.py:42 | `get_nature_display()`: the label the choices pair with the stored code, or the code itself when it is no nature's code |
| Models.DisplayIn | sales/models.py:42 | the lookup in `dict(choices)`: the label of the last pair with the code, or the code itself when no pair has it |
| Models.Split | sales/models.py:38-39 | `split(",")` yields at least one piece and no piece contains a comma |
| Models.SplitAtComma | sales/models.py:38-39 | splitting `a + "," + b` is splitting a, then splitting b |
| Models.SplitJoin | sales/models.py:38-39 | splitting the comma join of comma-free pieces gives back the pieces |
| Models.JoinSplit | sales/models.py:38-39 | joining the pieces of a split with commas gives back the text |
| Models.Join | sales/integration.py:155 | `",".join`, the form the importer gives the ticket list; its contract is carried by `SplitJoin` and `JoinSplit`, which show it undone by `split(",")` |
| Models.JoinSnoc | sales/integration.py:155 | appending `"," + t` to a joined list is joining one more piece |
| Models.TicketsList | sales/models.py:38-39 | `tickets_list()` is defined exactly when tickets are set; its pieces join back to the tickets, and a comma-free value is a single ticket |
| Models.Party | sales/models.py:42 | `self.customer or '[%s]' % ...`: the part after the separator; its contract is carried by `PartyShape` |
| Models.Render | sales/models.py:41-42 | `__str__`; its contract is carried by `RenderShape`: `"%06d"` of the number, `" - "`, then the party |
| Models.RenderShape | sales/models.py:41-42 | `__str__` starts with `"%06d"` of the number: at least six characters (exactly six below a million), all digits for a non-negative number and a `-` before digits otherwise, reading back as the number; then `" - "`, then the party |
| Models.PartyShape | sales/models.py:42 | the party is the customer when it is set and nonempty; otherwise it is `[`, the nature's label from the choices upper-cased, `]`, with no lower-case letter inside |
| NfeParser.InitialState | sales/integration.py:27-31 | after `reset()` the seven sections are tracked and closed, no tag is current and nothing is captured |
| NfeParser.AfterStart | sales/integration.py:33-36 | a start tag becomes current; a section opens and every other flag and every field is unchanged |
| NfeParser.AfterEnd | sales/integration.py:38-41 | an end tag clears the current tag; a section closes and every other flag and every field is unchanged |
| NfeParser.Within | sales/integration.py:71-75 | `is_prev(*tags)`: every named section is open and none of them is the current tag |
| NfeParser.Close | sales/integration.py:81-82 | closing tags sets exactly those flags to closed and keeps the others |
| NfeParser.AfterFree | sales/integration.py:77-82 | `free` changes nothing while one of its required fields is missing; otherwise it closes the named sections and keeps every other flag |
| NfeParser.AfterData | sales/integration.py:43-69 | text outside `infNFe` changes nothing; text never opens a section, never removes a field and only adds the six known fields |
| NfeParser.DataScoped | sales/integration.py:43-69 | path scoping: a text event changes at most one field, only one whose sections are open and not current and whose leaf tag is current, and that field takes the text (a timestamp cut to its date) |
| NfeParser.DataFlags | sales/integration.py:47-69 | the complete new section flags after a text event in each branch: identification closes once number and date are both in, destination on `xNome`, product on `CFOP`, totals once total and tax are both in, and otherwise every flag stays as it was |
| NfeParser.DataCaptures | sales/integration.py:47-69 | the complete new captured fields after a text event: the first branch whose sections are open takes the text, its own leaf tag fills its field and any other tag captures nothing, no later branch is tried, and text in no branch captures nothing; with when each section closes |
| NfeParser.SectionTextIgnored | sales/integration.py:43-69 | text directly inside a section tag captures nothing |
| NfeParser.DateVariantsAgree | sales/integration.py:51-54 | a timestamp in `dhEmi` and its first ten characters in `dEmi` capture the same fields |
| NfeParser.AfterEvent | sales/integration.py:33-69 | one event: a start tag becomes current and an end tag clears it, both keeping every field; a text event keeps the current tag; fields are only added and only known ones |
| NfeParser.AfterEvents | sales/integration.py:96 | feeding events keeps the seven flags, never removes a captured field and only adds known ones |
| NfeParser.Captured | sales/integration.py:95-98 | what a fresh parser captures from a document: only the six known fields, and nothing from a document without text |
| NfeParser.TagsCaptureNothing | sales/integration.py:33-41 | tag events alone never capture a field |
| NfeParser.ParseEvents | sales/integration.py:88-107 | `parse` succeeds exactly when all six fields were captured; a failure names a missing field; on success the date is the captured date cut to ten characters and the other fields are the captured text |
| NfeParser.InvoiceParser.constructor | sales/integration.py:27-31 | a new parser is in the reset state |
| NfeParser.InvoiceParser.Reset | sales/integration.py:27-31 | the parser returns to the reset state |
| NfeParser.InvoiceParser.HandleStartTag | sales/integration.py:33-36 | the fields change as `AfterStart` says |
| NfeParser.InvoiceParser.HandleEndTag | sales/integration.py:38-41 | the fields change as `AfterEnd` says |
| NfeParser.InvoiceParser.IsPrev | sales/integration.py:71-75 | true exactly when every named section is open and none of them is the current tag |
| NfeParser.InvoiceParser.Free | sales/integration.py:77-82 | the fields change as `AfterFree` says |
| NfeParser.InvoiceParser.HandleData | sales/integration.py:43-69 | the fields change as `AfterData` says |
| NfeParser.InvoiceParser.Feed | sales/integration.py:96 | after the events, the state is `AfterEvents` of the state before |
| NfeParser.InvoiceParser.Parse | sales/integration.py:88-107 | a fresh parser fed the document returns `ParseEvents` of it |
| Integration.CodeNatureKeys | sales/integration.py:110-123 | `CODE_NATURE` knows exactly the twelve codes of the sale-return, sale, purchase-return and RMA families |
| Integration.CodeNatureFamilies | sales/integration.py:110-123 | each family maps to its nature, and no code yields canceled, denied or skipped |
| Integration.PeriodBounds | sales/integration.py:129-130 | the bounds exist exactly for years 1 to 9999 and months 1 to 12, otherwise the error names the period; they are the first and last valid day of the month, and a day of the month is valid exactly between them |
| Integration.NewRecord | sales/integration.py:163-185 | a new invoice has the row's number and date and carries tickets exactly when it is a sale; on a canceled row it is canceled and on a non-100 row denied, with nothing else set and whatever the document holds; a parsed one has total, tax and a customer in capitals |
| Integration.DocumentChecks | sales/integration.py:173-185 | a row neither canceled nor denied yields an invoice exactly when its document decodes and parses, has the row's number, the row's ISO date and a known code; the invoice then takes nature, customer, total and tax from the document and the row's ticket when it is a sale |
| Integration.Flush | sales/integration.py:159-160 | `full_clean(); save()`: the invoice is saved after the others exactly when it is admissible, otherwise the error names it; saved invoices stay accepted (clean, new to the table, pairwise different numbers) |
| Integration.Step | sales/integration.py:146-185 | a turn of the loop: a non-integer number fails; otherwise the row's number is in progress afterwards, and the invoice in progress is saved exactly when the row has another number; accepted stays accepted and a sale in progress always has tickets, so appending is never refused |
| Integration.Finish | sales/integration.py:188-189 | the final save: no invoice in progress fails with `NoInvoice`, otherwise the last invoice is saved when admissible |
| Integration.Run | sales/integration.py:146-189 | the rest of the loop: a success extends what was saved by at least one invoice and at most one per row plus the one in progress, keeps it accepted, and never fails on unset tickets |
| Integration.ImportRows | sales/integration.py:142-189 | the whole loop: no row fails with `NoInvoice`; a success saves between one invoice and one per row, all accepted |
| Integration.Import | sales/integration.py:126-189 | `import_invoices`: an invalid period fails with the period named; a valid one imports exactly the rows the query returns between the month's first and last day; an empty month fails with `NoInvoice`; a success saves accepted invoices |
| Integration.Commit | sales/integration.py:160 | after saving a batch the table holds exactly the numbers it held and those of the batch |
| Integration.InvoiceTable.Save | sales/integration.py:160 | `save()` stores the invoice under its number and leaves every other record |
| Integration.InvoiceTable.Restore | sales/integration.py:145 | the rollback puts back the snapshot |
| Integration.NewInvoice | sales/integration.py:163-185 | the loop body for a new number returns `NewRecord` of it |
| Integration.ImportInvoices | sales/integration.py:126-189 | the import returns the fold's result for the month; on failure the table is as before, on success it is the old table with the saved invoices committed |
| ImportRuns.Runs | sales/integration.py:150-163 | the runs of the rows: no more runs than rows, none exactly when there is no row; each run starts at a row whose number it carries and lists at least that row's ticket first; adjacent runs have different numbers |
| ImportRuns.RunsPartition | sales/integration.py:150-163 | the runs partition the rows: their rows, run after run, are exactly the rows; each run is nonempty, starts at its head, lists its rows' tickets, and every one of its rows carries the run's number |
| ImportRuns.RunsCoverRows | sales/integration.py:146-156 | the runs' tickets, run after run, are every row's ticket in row order |
| ImportRuns.SortedRowsGiveIncreasingRuns | sales/integration.py:150-160 | rows sorted by number give runs with strictly increasing numbers |
| ImportRuns.ExtendByOne | sales/integration.py:154-155 | appending one ticket to a sale and then more is extending it by all of them |
| ImportRuns.RunPending | sales/integration.py:146-189 | with an invoice in progress, the rest of the loop merges the first run if it has that number, saves the invoice, and saves each further run's invoice in turn |
| ImportRuns.FromHead | sales/integration.py:162-189 | starting an invoice at a row and running the loop to the end is the reference import of the runs from that row |
| ImportRuns.ImportRowsIsExpected | sales/integration.py:142-189 | for numbered rows, the loop saves exactly one invoice per run, in run order, and fails where the reference fails |
| ImportRuns.ImportMonth | sales/integration.py:126-189 | for a valid month, the import of the query's rows fails with `NoInvoice` when there are none, fails when a number is not an integer, and otherwise is the reference import of the rows' runs |
| ImportRuns.ImportRowsFails | sales/integration.py:146-189 | a row whose number is not an integer fails the import |
| ImportRuns.ExpectedShape | sales/integration.py:159-160 | a successful reference import lists the runs' invoices after what was saved before, each accepted by `full_clean` against everything before it |
| ImportRuns.RunRecordContents | sales/integration.py:153-185 | a run's invoice has the first row's number, date and classification; a sale carries all the run's tickets joined with commas; canceled and denied invoices carry nothing else |
| ImportRuns.ImportByRuns | sales/integration.py:142-189 | a successful import has numbered rows, and saves one invoice per run, each the run's invoice and accepted when saved |
| ImportRuns.SavedNumbers | sales/integration.py:159-160 | the saved invoices carry the runs' numbers, pairwise different and none already in the table |
| ImportRuns.SeparatedRepeatFails | sales/integration.py:153-160 | a number that reappears after another number fails the import |
| ImportRuns.SavedSaleTickets | sales/models.py:38-39 | a saved sale's `tickets_list()` is its run's tickets in row order, when no ticket contains a comma |
| ImportRuns.ReimportFails | sales/integration.py:145-189 | running the same rows again once their invoices are in the table fails |
| ImportRuns.CommitKeepsEach | sales/integration.py:160 | committing invoices with different numbers puts each under its number and keeps every other record |

## Left out

- The HTML tokenizer and the byte decoding of the XML are not modelled; the model takes a
  `tokenize` function that gives the document's start, end and text events, or `None` when
  the bytes do not decode. `HTMLParser`'s own lexing (entities, self-closing tags reported as
  a start and an end, comments) is part of that function.
- `InvoiceParser.error` (raising on a tokenizer error) belongs to the tokenizer and is not
  modelled.
- The SQL query and the database connection are a `query` parameter from the month's first
  and last day to the rows, taken in the order the query returns them. Database NULLs are not
  modelled: the ticket and the cancellation status are strings, with the empty string as the
  falsy status.
- Dates.MonthLen: the model assumes `calendar.monthlen` as Python 3.7 exposes it; later
  versions only have the private `calendar._monthlen`, and there the code raises
  `AttributeError` before reading any row, which the model does not capture.
- Import: `query` is an unconstrained parameter, so the model does not capture the
  `DISTINCT` of the query; it may return identical rows, which the real query would give
  only once.
- The `ParsedInvoice` fields are the text the parser captured; the type hints of the dataclass
  (`int`, `date`, `float`) are not what the code stores, as it converts nothing there.
- `float(pix.total)` and `float(pix.tax)`: total and tax are kept as the document's text,
  since floating-point parsing is out of scope. So the `ValueError` that `float()` raises on
  a non-numeric total or tax is not modelled: where the code fails, the model still
  imports the invoice.
- Text.ParseInt: Python's `int()` also accepts surrounding whitespace, `_` separators and
  non-ASCII digits; the model accepts only an optional sign and ASCII digits.
- Text.Upper: only ASCII letters are capitalised; Unicode case mapping is not modelled.
- `full_clean`'s field checks (lengths, the comma-separated integer list of `tickets`, a
  non-negative number, the nature among the choices) are a `clean` parameter; only the
  primary-key uniqueness check for a new record is modelled.
- The translation of labels (`gettext_lazy`) is left out; labels are the untranslated text.
- The transaction is modelled as a snapshot of the table restored on failure; concurrent
  writers and the database's isolation are not modelled.
- Running Python with assertions disabled would skip the number and date checks; the model
  keeps them, as the code is written.
- `Meta`, the template tags, the views and the app configuration are outside the importer
  and are not modelled.
