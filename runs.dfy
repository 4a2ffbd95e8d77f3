/** What the importer's fold amounts to. The rows are grouped into runs, maximal blocks
    of adjacent rows whose numbers are equal; each run yields one invoice, made from its
    first row, whose tickets (for a sale) are the tickets of all its rows joined with
    commas in row order. The fold saves exactly those invoices, in the order of the runs. */
module ImportRuns {
  import opened Wrappers
  import opened Text
  import opened Models
  import opened Dates
  import opened Integration

  /** Every row's number reads as an integer. */
  predicate Numbered(rows: seq<Row>)
  {
    forall i :: 0 <= i < |rows| ==> ParseInt(rows[i].number).Some?
  }

  lemma NumberedTail(rows: seq<Row>)
    requires Numbered(rows) && rows != []
    ensures Numbered(rows[1..])
  {
    assert forall i :: 0 <= i < |rows| - 1 ==> rows[1..][i] == rows[i + 1];
  }

  /** A block of adjacent rows with the same number: the number, its first row, its rows
      and every row's ticket. */
  datatype RowRun = RowRun(number: int, head: Row, rows: seq<Row>, tickets: seq<string>)

  /** The runs of the rows, from the front. */
  function Runs(rows: seq<Row>): (runs: seq<RowRun>)
    requires Numbered(rows)
    ensures |runs| <= |rows| && (runs == [] <==> rows == [])
    ensures rows != [] ==> runs[0].head == rows[0] && Some(runs[0].number) == ParseInt(rows[0].number)
    ensures forall j :: 0 <= j < |runs| ==>
              1 <= |runs[j].tickets| && runs[j].tickets[0] == runs[j].head.ticket
              && ParseInt(runs[j].head.number) == Some(runs[j].number)
    ensures forall j :: 0 < j < |runs| ==> runs[j - 1].number != runs[j].number
    decreases |rows|
  {
    if rows == [] then []
    else
      var n := ParseInt(rows[0].number).value;
      NumberedTail(rows);
      var rest := Runs(rows[1..]);
      if rest != [] && rest[0].number == n then
        [RowRun(n, rows[0], [rows[0]] + rest[0].rows, [rows[0].ticket] + rest[0].tickets)] + rest[1..]
      else
        [RowRun(n, rows[0], [rows[0]], [rows[0].ticket])] + rest
  }

  /** How the first row joins the runs of the rest: it opens the first run when that run
      has its number, and otherwise forms a run of its own. */
  lemma RunsCons(rows: seq<Row>)
    requires Numbered(rows) && rows != []
    ensures Numbered(rows[1..])
    ensures var n := ParseInt(rows[0].number).value; var rest := Runs(rows[1..]); var runs := Runs(rows);
      if rest != [] && rest[0].number == n then
        runs[0] == RowRun(n, rows[0], [rows[0]] + rest[0].rows, [rows[0].ticket] + rest[0].tickets)
        && runs[1..] == rest[1..]
      else
        runs[0] == RowRun(n, rows[0], [rows[0]], [rows[0].ticket]) && runs[1..] == rest
  {
    NumberedTail(rows);
  }

  function Tickets(rows: seq<Row>): (ts: seq<string>)
    ensures |ts| == |rows| && forall i :: 0 <= i < |rows| ==> ts[i] == rows[i].ticket
  {
    seq(|rows|, i requires 0 <= i < |rows| => rows[i].ticket)
  }

  function AllTickets(runs: seq<RowRun>): seq<string>
  {
    if runs == [] then [] else runs[0].tickets + AllTickets(runs[1..])
  }

  lemma TicketsCons(rows: seq<Row>)
    requires rows != []
    ensures Tickets(rows) == [rows[0].ticket] + Tickets(rows[1..])
  {
  }

  /** The runs cover the rows: their tickets, run after run, are the rows' tickets in
      order, repetitions included. */
  lemma {:induction false} RunsCoverRows(rows: seq<Row>)
    requires Numbered(rows)
    ensures AllTickets(Runs(rows)) == Tickets(rows)
    decreases |rows|
  {
    if rows != [] {
      RunsCons(rows);
      RunsCoverRows(rows[1..]);
      TicketsCons(rows);
      var rest := Runs(rows[1..]);
      if rest != [] && rest[0].number == ParseInt(rows[0].number).value {
        MergedTickets(rows[0].ticket, Runs(rows), rest);
      } else {
        OwnTickets(rows[0].ticket, Runs(rows), rest);
      }
    }
  }

  lemma MergedTickets(t: string, runs: seq<RowRun>, rest: seq<RowRun>)
    requires runs != [] && rest != [] && runs[0].tickets == [t] + rest[0].tickets && runs[1..] == rest[1..]
    ensures AllTickets(runs) == [t] + AllTickets(rest)
  {
    calc {
      AllTickets(runs);
      runs[0].tickets + AllTickets(runs[1..]);
      ([t] + rest[0].tickets) + AllTickets(rest[1..]);
      [t] + (rest[0].tickets + AllTickets(rest[1..]));
      [t] + AllTickets(rest);
    }
  }

  lemma OwnTickets(t: string, runs: seq<RowRun>, rest: seq<RowRun>)
    requires runs != [] && runs[0].tickets == [t] && runs[1..] == rest
    ensures AllTickets(runs) == [t] + AllTickets(rest)
  {
  }

  /** The rows of the runs, run after run. */
  function AllRows(runs: seq<RowRun>): seq<Row>
  {
    if runs == [] then [] else runs[0].rows + AllRows(runs[1..])
  }

  /** A run holds at least one row, starts with its head, lists its rows' tickets in
      order, and every one of its rows carries its number. */
  predicate RunOf(run: RowRun)
  {
    && run.rows != [] && run.rows[0] == run.head && Tickets(run.rows) == run.tickets
    && forall i :: 0 <= i < |run.rows| ==> ParseInt(run.rows[i].number) == Some(run.number)
  }

  /** The runs partition the rows: put back together, run after run, they are the rows,
      and each run is a block of rows that carry its number. */
  lemma {:induction false} RunsPartition(rows: seq<Row>)
    requires Numbered(rows)
    ensures AllRows(Runs(rows)) == rows
    ensures forall j :: 0 <= j < |Runs(rows)| ==> RunOf(Runs(rows)[j])
    decreases |rows|
  {
    if rows != [] {
      RunsCons(rows);
      RunsPartition(rows[1..]);
      var n := ParseInt(rows[0].number).value;
      var runs := Runs(rows);
      var rest := Runs(rows[1..]);
      if rest != [] && rest[0].number == n {
        MergedRun(rows[0], n, rest[0], runs[0]);
        MergedRows(rows[0], runs, rest);
        assert forall j :: 0 < j < |runs| ==> runs[j] == rest[j];
      } else {
        OwnRun(rows[0], n, runs[0]);
        assert forall j :: 0 < j < |runs| ==> runs[j] == rest[j - 1];
      }
      assert [rows[0]] + rows[1..] == rows;
    }
  }

  lemma MergedRun(r: Row, n: int, first: RowRun, run: RowRun)
    requires RunOf(first) && first.number == n && ParseInt(r.number) == Some(n)
    requires run == RowRun(n, r, [r] + first.rows, [r.ticket] + first.tickets)
    ensures RunOf(run)
  {
    TicketsCons(run.rows);
    assert run.rows[1..] == first.rows;
    assert forall i :: 0 < i < |run.rows| ==> run.rows[i] == first.rows[i - 1];
  }

  lemma OwnRun(r: Row, n: int, run: RowRun)
    requires ParseInt(r.number) == Some(n) && run == RowRun(n, r, [r], [r.ticket])
    ensures RunOf(run)
  {
    TicketsCons(run.rows);
  }

  lemma MergedRows(r: Row, runs: seq<RowRun>, rest: seq<RowRun>)
    requires runs != [] && rest != [] && runs[0].rows == [r] + rest[0].rows && runs[1..] == rest[1..]
    ensures AllRows(runs) == [r] + AllRows(rest)
  {
    assert AllRows(rest) == rest[0].rows + AllRows(rest[1..]);
    assert AllRows(runs) == ([r] + rest[0].rows) + AllRows(rest[1..]);
  }

  /** The number a numbered row carries. */
  function RowNumber(row: Row): int
    requires ParseInt(row.number).Some?
  {
    ParseInt(row.number).value
  }

  predicate SortedByNumber(rows: seq<Row>)
    requires Numbered(rows)
  {
    forall i :: 0 < i < |rows| ==> RowNumber(rows[i - 1]) <= RowNumber(rows[i])
  }

  predicate Increasing(runs: seq<RowRun>)
  {
    forall j :: 0 < j < |runs| ==> runs[j - 1].number < runs[j].number
  }

  predicate AtLeast(runs: seq<RowRun>, m: int)
  {
    forall j :: 0 <= j < |runs| ==> m <= runs[j].number
  }

  /** Rows sorted by number give runs with strictly increasing numbers, none below the
      first row's. */
  lemma {:induction false} SortedRowsGiveIncreasingRuns(rows: seq<Row>)
    requires Numbered(rows) && SortedByNumber(rows)
    ensures Increasing(Runs(rows))
    ensures rows != [] ==> AtLeast(Runs(rows), RowNumber(rows[0]))
    decreases |rows|
  {
    if rows != [] {
      RunsCons(rows);
      var tail := rows[1..];
      assert forall i :: 0 < i < |tail| ==> tail[i - 1] == rows[i] && tail[i] == rows[i + 1];
      SortedRowsGiveIncreasingRuns(tail);
      var n := RowNumber(rows[0]);
      var rest := Runs(tail);
      if rest != [] && rest[0].number == n {
        MergedIncreasing(Runs(rows), rest, n);
      } else {
        var m := if tail == [] then n else RowNumber(tail[0]);
        assert tail != [] ==> tail[0] == rows[1];
        OwnIncreasing(Runs(rows), rest, n, m);
      }
    }
  }

  lemma MergedIncreasing(runs: seq<RowRun>, rest: seq<RowRun>, n: int)
    requires runs != [] && rest != [] && runs[0].number == n && rest[0].number == n && runs[1..] == rest[1..]
    requires Increasing(rest) && AtLeast(rest, n)
    ensures Increasing(runs) && AtLeast(runs, n)
  {
    assert forall j :: 0 < j < |runs| ==> runs[j] == rest[j];
  }

  lemma OwnIncreasing(runs: seq<RowRun>, rest: seq<RowRun>, n: int, m: int)
    requires runs != [] && runs[0].number == n && runs[1..] == rest && n <= m
    requires rest != [] ==> rest[0].number != n
    requires Increasing(rest) && AtLeast(rest, m)
    ensures Increasing(runs) && AtLeast(runs, n)
  {
    assert forall j :: 0 < j < |runs| ==> runs[j] == rest[j - 1];
  }

  /** A sale's tickets after the further tickets `ts` have been appended. */
  function Extend(x: Invoice, ts: seq<string>): Invoice
  {
    if x.nature == Sale && x.tickets.Some? then x.(tickets := Some(Join([x.tickets.value] + ts))) else x
  }

  /** The invoice a run yields. */
  function RunRecord(env: Env, run: RowRun): Result<Invoice, ImportError>
    requires 1 <= |run.tickets|
  {
    match NewRecord(run.number, run.head, env.tokenize)
    case Failure(e) => Failure(e)
    case Success(y) => Success(Extend(y, run.tickets[1..]))
  }

  /** The reference import: each run's invoice in turn, saved after `acc`. */
  function Expected(env: Env, acc: seq<Invoice>, runs: seq<RowRun>): Result<seq<Invoice>, ImportError>
    requires forall j :: 0 <= j < |runs| ==> 1 <= |runs[j].tickets|
    decreases |runs|
  {
    if runs == [] then Success(acc)
    else
      match RunRecord(env, runs[0])
      case Failure(e) => Failure(e)
      case Success(y) =>
        match Flush(env, acc, y)
        case Failure(e) => Failure(e)
        case Success(acc') => Expected(env, acc', runs[1..])
  }

  function FlushThen(env: Env, saved: seq<Invoice>, y: Invoice, runs: seq<RowRun>): Result<seq<Invoice>, ImportError>
    requires forall j :: 0 <= j < |runs| ==> 1 <= |runs[j].tickets|
  {
    match Flush(env, saved, y)
    case Failure(e) => Failure(e)
    case Success(acc) => Expected(env, acc, runs)
  }

  /** The rest of the import while x is in progress: x absorbs the first run if that run
      has its number, and is saved before the next. */
  function Pending(env: Env, saved: seq<Invoice>, x: Invoice, runs: seq<RowRun>): Result<seq<Invoice>, ImportError>
    requires forall j :: 0 <= j < |runs| ==> 1 <= |runs[j].tickets|
  {
    if runs != [] && runs[0].number == x.number then FlushThen(env, saved, Extend(x, runs[0].tickets), runs[1..])
    else FlushThen(env, saved, x, runs)
  }

  /** Appending one ticket is extending by it, and extensions compose. */
  lemma ExtendByOne(x: Invoice, t: string, ts: seq<string>)
    requires Consistent(x) && x.nature == Sale
    ensures Extend(x.(tickets := Some(x.tickets.value + "," + t)), ts) == Extend(x, [t] + ts)
  {
    var v := x.tickets.value;
    var x' := x.(tickets := Some(v + "," + t));
    if ts == [] {
      assert [v + "," + t] + ts == [v + "," + t];
      assert [v] + ([t] + ts) == [v, t];
      assert [v, t][1..] == [t];
      assert Join([v, t]) == v + "," + t;
      assert Extend(x', ts) == x'.(tickets := Some(Join([v + "," + t])));
      assert Extend(x, [t] + ts) == x.(tickets := Some(Join([v, t])));
    } else {
      assert ([v + "," + t] + ts)[1..] == ts;
      assert ([v] + ([t] + ts))[1..] == [t] + ts;
      assert ([t] + ts)[1..] == ts;
      calc {
        Join([v] + ([t] + ts));
        v + "," + Join([t] + ts);
        v + "," + (t + "," + Join(ts));
        (v + "," + t) + "," + Join(ts);
        Join([v + "," + t] + ts);
      }
    }
  }

  lemma ExtendByNothing(x: Invoice)
    ensures Extend(x, []) == x
  {
    if x.nature == Sale && x.tickets.Some? {
      assert [x.tickets.value] + [] == [x.tickets.value];
    }
  }

  /** Starting an invoice from the first row of `rows` and folding the rest is the
      reference import of the runs of `rows`. */
  lemma {:induction false} FromHead(env: Env, acc: seq<Invoice>, rows: seq<Row>)
    requires Numbered(rows) && rows != []
    ensures var n := ParseInt(rows[0].number).value;
      match NewRecord(n, rows[0], env.tokenize)
      case Failure(e) => Expected(env, acc, Runs(rows)) == Failure(e)
      case Success(y) => Run(env, FoldState(acc, Some(y)), rows[1..]) == Expected(env, acc, Runs(rows))
    decreases |rows|, 0
  {
    var n := ParseInt(rows[0].number).value;
    NumberedTail(rows);
    var rest := Runs(rows[1..]);
    var runs := Runs(rows);
    match NewRecord(n, rows[0], env.tokenize)
    case Failure(e) =>
    case Success(y) =>
      RunPending(env, acc, y, rows[1..]);
      if rest != [] && rest[0].number == n {
        assert runs[0].tickets[1..] == rest[0].tickets;
        assert runs[1..] == rest[1..];
      } else {
        assert runs[0].tickets[1..] == [];
        assert runs[1..] == rest;
        ExtendByNothing(y);
      }
  }

  /** The fold with x in progress over `rows` is `Pending` over the runs of `rows`. */
  lemma {:induction false} RunPending(env: Env, saved: seq<Invoice>, x: Invoice, rows: seq<Row>)
    requires Numbered(rows) && Consistent(x)
    ensures Run(env, FoldState(saved, Some(x)), rows) == Pending(env, saved, x, Runs(rows))
    decreases |rows|, 1
  {
    if rows != [] {
      if ParseInt(rows[0].number).value == x.number {
        MergeTurn(env, saved, x, rows);
      } else {
        FromHead(env, saved + [x], rows);
        SaveTurn(env, saved, x, rows);
      }
    }
  }

  /** The first row has the number in progress: its ticket joins x's. */
  lemma {:induction false} MergeTurn(env: Env, saved: seq<Invoice>, x: Invoice, rows: seq<Row>)
    requires Numbered(rows) && Consistent(x) && rows != [] && ParseInt(rows[0].number).value == x.number
    ensures Run(env, FoldState(saved, Some(x)), rows) == Pending(env, saved, x, Runs(rows))
    decreases |rows|, 0
  {
    var r := rows[0];
    NumberedTail(rows);
    var rest := Runs(rows[1..]);
    var runs := Runs(rows);
    var x' := if x.nature == Sale then x.(tickets := Some(x.tickets.value + "," + r.ticket)) else x;
    assert Step(env, FoldState(saved, Some(x)), r) == Success(FoldState(saved, Some(x')));
    assert Run(env, FoldState(saved, Some(x)), rows) == Run(env, FoldState(saved, Some(x')), rows[1..]);
    RunPending(env, saved, x', rows[1..]);
    if rest != [] && rest[0].number == x.number {
      assert runs[0].tickets == [r.ticket] + rest[0].tickets && runs[1..] == rest[1..];
      if x.nature == Sale { ExtendByOne(x, r.ticket, rest[0].tickets); }
    } else {
      assert runs[0].tickets == [r.ticket] && runs[1..] == rest;
      ExtendByNothing(x');
      assert [r.ticket] + [] == [r.ticket];
      if x.nature == Sale { ExtendByOne(x, r.ticket, []); }
      assert x'.number == x.number;
      assert Pending(env, saved, x', rest) == FlushThen(env, saved, x', rest);
    }
  }

  /** The first row starts a new number: x is saved first. */
  lemma SaveTurn(env: Env, saved: seq<Invoice>, x: Invoice, rows: seq<Row>)
    requires Numbered(rows) && rows != [] && ParseInt(rows[0].number).value != x.number
    requires var n := ParseInt(rows[0].number).value;
      match NewRecord(n, rows[0], env.tokenize)
      case Failure(e) => Expected(env, saved + [x], Runs(rows)) == Failure(e)
      case Success(y) => Run(env, FoldState(saved + [x], Some(y)), rows[1..]) == Expected(env, saved + [x], Runs(rows))
    ensures Run(env, FoldState(saved, Some(x)), rows) == Pending(env, saved, x, Runs(rows))
  {
  }

  /** The importer saves exactly the reference import of the runs, failing where it fails:
      one invoice per run, in the order the runs appear. */
  lemma ImportRowsIsExpected(env: Env, rows: seq<Row>)
    requires Numbered(rows) && rows != []
    ensures ImportRows(env, rows) == Expected(env, [], Runs(rows))
  {
    FromHead(env, [], rows);
  }

  /** For a valid month, `import_invoices` saves one invoice per run of the rows the query
      returns between the month's first and last day, as the reference import does when
      every number reads as an integer. */
  lemma ImportMonth(year: int, month: int, query: (Date, Date) -> seq<Row>, env: Env)
    requires MinYear <= year <= MaxYear && 1 <= month <= 12
    ensures var rows := query(Date(year, month, 1), Date(year, month, MonthLen(year, month)));
      && (rows == [] ==> Import(year, month, query, env) == Failure(NoInvoice))
      && (!Numbered(rows) ==> Import(year, month, query, env).Failure?)
      && (Numbered(rows) && rows != [] ==> Import(year, month, query, env) == Expected(env, [], Runs(rows)))
  {
    var rows := query(Date(year, month, 1), Date(year, month, MonthLen(year, month)));
    ImportRowsFails(env, rows);
    if Numbered(rows) && rows != [] {
      ImportRowsIsExpected(env, rows);
    }
  }

  /** A row whose number does not read as an integer fails the import. */
  lemma ImportRowsFails(env: Env, rows: seq<Row>)
    ensures !Numbered(rows) ==> ImportRows(env, rows).Failure?
  {
    if !Numbered(rows) {
      var i :| 0 <= i < |rows| && ParseInt(rows[i].number).None?;
      UnnumberedFails(env, FoldState([], None), rows, i);
    }
  }

  lemma {:induction false} UnnumberedFails(env: Env, st: FoldState, rows: seq<Row>, i: int)
    requires 0 <= i < |rows| && ParseInt(rows[i].number).None?
    ensures Run(env, st, rows).Failure?
    decreases |rows|
  {
    if i > 0 {
      match Step(env, st, rows[0])
      case Failure(_) =>
      case Success(next) =>
        assert rows[1..][i - 1] == rows[i];
        UnnumberedFails(env, next, rows[1..], i - 1);
    }
  }

  /** A successful reference import consists of the runs' invoices after `acc`, each
      accepted by `full_clean` when it was saved. */
  lemma {:induction false} ExpectedShape(env: Env, acc: seq<Invoice>, runs: seq<RowRun>)
    requires forall j :: 0 <= j < |runs| ==> 1 <= |runs[j].tickets|
    requires Expected(env, acc, runs).Success?
    ensures var out := Expected(env, acc, runs).value;
      && |out| == |acc| + |runs| && out[..|acc|] == acc
      && forall j :: 0 <= j < |runs| ==>
           RunRecord(env, runs[j]) == Success(out[|acc| + j])
           && Admissible(env, out[..|acc| + j], out[|acc| + j])
    decreases |runs|
  {
    if runs != [] {
      var y := RunRecord(env, runs[0]).value;
      var acc' := acc + [y];
      ExpectedShape(env, acc', runs[1..]);
      var out := Expected(env, acc, runs).value;
      assert out == Expected(env, acc', runs[1..]).value;
      assert out[..|acc'|] == acc';
      assert out[..|acc|] == acc' [..|acc|];
      forall j | 0 <= j < |runs|
        ensures RunRecord(env, runs[j]) == Success(out[|acc| + j])
        ensures Admissible(env, out[..|acc| + j], out[|acc| + j])
      {
        if j == 0 {
          assert out[|acc|] == acc'[|acc|];
        } else {
          assert runs[1..][j - 1] == runs[j];
          assert |acc'| + (j - 1) == |acc| + j;
        }
      }
    }
  }

  /** The invoice of a run: number and date of its first row, nature as classified from
      that row, and for a sale the tickets of all its rows joined with commas. */
  lemma RunRecordContents(env: Env, run: RowRun)
    requires 1 <= |run.tickets| && run.tickets[0] == run.head.ticket
    requires RunRecord(env, run).Success?
    ensures var v := RunRecord(env, run).value;
      && NewRecord(run.number, run.head, env.tokenize).Success?
      && v.nature == NewRecord(run.number, run.head, env.tokenize).value.nature
      && v.number == run.number && v.date == run.head.date && Consistent(v)
      && (v.nature == Sale ==> v.tickets == Some(Join(run.tickets)))
      && (v.nature in {Canceled, Denied} ==> v == Unparsed(run.number, run.head.date, v.nature))
      && (run.head.cancelStatus != "" ==> v.nature == Canceled)
      && (run.head.cancelStatus == "" && run.head.status != "100" ==> v.nature == Denied)
  {
    assert [run.tickets[0]] + run.tickets[1..] == run.tickets;
  }

  /** A successful import saves one invoice per run, each the run's invoice. */
  lemma ImportByRuns(env: Env, rows: seq<Row>)
    requires ImportRows(env, rows).Success?
    ensures Numbered(rows) && rows != []
    ensures var saved := ImportRows(env, rows).value; var runs := Runs(rows);
      && |saved| == |runs|
      && forall j :: 0 <= j < |runs| ==>
           RunRecord(env, runs[j]) == Success(saved[j]) && Admissible(env, saved[..j], saved[j])
  {
    ImportRowsFails(env, rows);
    ImportRowsIsExpected(env, rows);
    ExpectedShape(env, [], Runs(rows));
  }

  /** The saved invoices carry the runs' numbers, pairwise different and none of them
      in the table before. */
  lemma SavedNumbers(env: Env, rows: seq<Row>)
    requires ImportRows(env, rows).Success?
    ensures Numbered(rows)
    ensures var saved := ImportRows(env, rows).value; var runs := Runs(rows);
      && |saved| == |runs|
      && (forall j :: 0 <= j < |runs| ==> saved[j].number == runs[j].number && saved[j].number !in env.stored)
      && (forall j, k :: 0 <= j < k < |saved| ==> saved[j].number != saved[k].number)
  {
    ImportByRuns(env, rows);
    var runs := Runs(rows);
    var saved := ImportRows(env, rows).value;
    forall j | 0 <= j < |runs| ensures saved[j].number == runs[j].number && saved[j].number !in env.stored {
      RunRecordContents(env, runs[j]);
      assert Admissible(env, saved[..j], saved[j]);
    }
    forall j, k | 0 <= j < k < |saved| ensures saved[j].number != saved[k].number {
      assert Admissible(env, saved[..k], saved[k]);
      assert saved[..k][j] == saved[j];
    }
  }

  /** Only adjacent rows collapse: a number that comes back after another number fails
      the import, since its second invoice repeats a saved primary key. */
  lemma SeparatedRepeatFails(env: Env, rows: seq<Row>, j: int, k: int)
    requires Numbered(rows) && 0 <= j < k < |Runs(rows)| && Runs(rows)[j].number == Runs(rows)[k].number
    ensures ImportRows(env, rows).Failure?
  {
    if ImportRows(env, rows).Success? {
      SavedNumbers(env, rows);
    }
  }

  /** A sale saved by the import lists, through `tickets_list`, the tickets of its run in
      row order, provided no ticket contains a comma. */
  lemma SavedSaleTickets(env: Env, rows: seq<Row>, j: int)
    requires ImportRows(env, rows).Success?
    requires forall i :: 0 <= i < |rows| ==> ',' !in rows[i].ticket
    requires 0 <= j < |ImportRows(env, rows).value|
    requires ImportRows(env, rows).value[j].nature == Sale
    ensures Numbered(rows) && j < |Runs(rows)|
    ensures TicketsList(ImportRows(env, rows).value[j]) == Some(Runs(rows)[j].tickets)
  {
    ImportByRuns(env, rows);
    var runs := Runs(rows);
    var v := ImportRows(env, rows).value[j];
    assert RunRecord(env, runs[j]) == Success(v);
    RunRecordContents(env, runs[j]);
    assert v.tickets == Some(Join(runs[j].tickets));
    RunTicketsCommaFree(rows, j);
    SplitJoin(runs[j].tickets);
  }

  lemma RunTicketsCommaFree(rows: seq<Row>, j: int)
    requires Numbered(rows) && 0 <= j < |Runs(rows)|
    requires forall i :: 0 <= i < |rows| ==> ',' !in rows[i].ticket
    ensures forall i :: 0 <= i < |Runs(rows)[j].tickets| ==> ',' !in Runs(rows)[j].tickets[i]
  {
    var runs := Runs(rows);
    RunsCoverRows(rows);
    TicketsOfRunAreRowTickets(runs, j);
    forall i | 0 <= i < |runs[j].tickets| ensures ',' !in runs[j].tickets[i] {
      assert runs[j].tickets[i] in Tickets(rows);
    }
  }

  lemma {:induction false} TicketsOfRunAreRowTickets(runs: seq<RowRun>, j: int)
    requires 0 <= j < |runs|
    ensures forall t :: t in runs[j].tickets ==> t in AllTickets(runs)
    decreases |runs|
  {
    if j > 0 {
      TicketsOfRunAreRowTickets(runs[1..], j - 1);
      assert runs[1..][j - 1] == runs[j];
    }
  }

  /** Re-importing a period whose invoices are already in the table fails: the first
      invoice's number is taken. */
  lemma ReimportFails(env: Env, rows: seq<Row>)
    requires ImportRows(env, rows).Success?
    ensures var saved := ImportRows(env, rows).value;
      ImportRows(env.(stored := env.stored + set i | 0 <= i < |saved| :: saved[i].number), rows).Failure?
  {
    var saved := ImportRows(env, rows).value;
    var env2 := env.(stored := env.stored + set i | 0 <= i < |saved| :: saved[i].number);
    ImportByRuns(env, rows);
    var runs := Runs(rows);
    ImportRowsIsExpected(env2, rows);
    assert RunRecord(env2, runs[0]) == RunRecord(env, runs[0]);
    assert saved[0].number in env2.stored;
  }

  /** Saving invoices with pairwise different numbers puts each under its number and keeps
      every other record. */
  lemma {:induction false} CommitKeepsEach(table: map<int, Invoice>, batch: seq<Invoice>)
    requires forall j, k :: 0 <= j < k < |batch| ==> batch[j].number != batch[k].number
    ensures forall j :: 0 <= j < |batch| ==> Commit(table, batch)[batch[j].number] == batch[j]
    ensures forall n :: n in table && (forall j :: 0 <= j < |batch| ==> batch[j].number != n) ==>
              Commit(table, batch)[n] == table[n]
    decreases |batch|
  {
    if batch != [] {
      var init := batch[..|batch| - 1];
      assert forall j :: 0 <= j < |init| ==> init[j] == batch[j];
      CommitKeepsEach(table, init);
    }
  }
}
