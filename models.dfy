/** The invoice record of the sales application: the closed nature enumeration with its
    one-letter database codes and display labels, the record itself, the split of its
    comma-joined ticket list and its text rendering. */
module Models {
  import opened Wrappers
  import opened Text
  import opened Dates

  datatype Nature = Sale | Skipped | Canceled | Denied | SaleReturn | PurchaseReturn | RMA

  /** The one-character value stored in the `nature` column. */
  function Code(n: Nature): char
  {
    match n
    case Sale => 'S'
    case Skipped => 'K'
    case Canceled => 'C'
    case Denied => 'D'
    case SaleReturn => 'U'
    case PurchaseReturn => 'P'
    case RMA => 'R'
  }

  /** The seven natures are told apart by their codes. */
  lemma CodesDistinct(a: Nature, b: Nature)
    ensures Code(a) == Code(b) <==> a == b
  {
  }

  /** The choices of the `nature` column: each code with its (untranslated) label. */
  const NatureChoices: seq<(char, string)> := [
    (Code(Sale), "Sale"),
    (Code(Skipped), "Skipped"),
    (Code(Canceled), "Canceled"),
    (Code(Denied), "Denied"),
    (Code(SaleReturn), "Sale return"),
    (Code(PurchaseReturn), "Purchase return"),
    (Code(RMA), "RMA")
  ]

  /** Django's `get_nature_display()`: the label paired with the stored code in the
      choices, or the code itself when it is not among them. */
  function Display(code: char): (shown: string)
    ensures forall i :: 0 <= i < |NatureChoices| && NatureChoices[i].0 == code ==> shown == NatureChoices[i].1
    ensures (forall n: Nature :: Code(n) != code) ==> shown == [code]
  {
    assert forall i, j :: 0 <= i < j < |NatureChoices| ==> NatureChoices[i].0 != NatureChoices[j].0;
    assert forall i :: 0 <= i < |NatureChoices| ==> exists n: Nature :: NatureChoices[i].0 == Code(n) by {
      forall i | 0 <= i < |NatureChoices| ensures exists n: Nature :: NatureChoices[i].0 == Code(n) {
        var n := [Sale, Skipped, Canceled, Denied, SaleReturn, PurchaseReturn, RMA][i];
        assert NatureChoices[i].0 == Code(n);
      }
    }
    DisplayIn(NatureChoices, code)
  }

  /** The lookup in `dict(choices)`: the label of the last pair with the code, or the code
      itself when no pair has it. */
  function DisplayIn(choices: seq<(char, string)>, code: char): (shown: string)
    ensures (forall i :: 0 <= i < |choices| ==> choices[i].0 != code) ==> shown == [code]
    ensures forall i :: (0 <= i < |choices| && choices[i].0 == code
                         && forall j :: i < j < |choices| ==> choices[j].0 != code) ==> shown == choices[i].1
    decreases |choices|
  {
    if choices == [] then [code]
    else
      var init := choices[..|choices| - 1];
      assert forall i :: 0 <= i < |init| ==> init[i] == choices[i];
      if choices[|choices| - 1].0 == code then choices[|choices| - 1].1
      else DisplayIn(init, code)
  }

  /** Every nature appears in the choices exactly once, so its display label is the one
      written beside it. */
  lemma ChoicesListEachNatureOnce(n: Nature)
    ensures |NatureChoices| == 7
    ensures exists i :: 0 <= i < |NatureChoices| && NatureChoices[i].0 == Code(n)
    ensures forall i, j :: 0 <= i < j < |NatureChoices| ==> NatureChoices[i].0 != NatureChoices[j].0
    ensures forall i :: 0 <= i < |NatureChoices| ==> Display(NatureChoices[i].0) == NatureChoices[i].1
  {
    var i := match n
      case Sale => 0 case Skipped => 1 case Canceled => 2 case Denied => 3
      case SaleReturn => 4 case PurchaseReturn => 5 case RMA => 6;
    assert NatureChoices[i].0 == Code(n);
  }

  /** One row of the invoice table. `number` is the primary key. The shape of the other
      fields (lengths, the comma-separated integer list of `tickets`) is checked by the
      store's validation, outside this model; `total` and `tax` are kept as the text the
      document carried. */
  datatype Invoice = Invoice(
    number: int,
    date: Date,
    customer: Option<string>,
    nature: Nature,
    total: Option<string>,
    tax: Option<string>,
    tickets: Option<string>,
    comment: Option<string>)

  /** `str.split(",")`. */
  function Split(s: string): (pieces: seq<string>)
    ensures |pieces| >= 1
    ensures forall i :: 0 <= i < |pieces| ==> ',' !in pieces[i]
    decreases |s|
  {
    if s == [] then [""]
    else
      var rest := Split(s[1..]);
      if s[0] == ',' then [""] + rest else [[s[0]] + rest[0]] + rest[1..]
  }

  /** `",".join(pieces)`: how the importer builds the ticket list. */
  function Join(pieces: seq<string>): string
    requires |pieces| >= 1
  {
    if |pieces| == 1 then pieces[0] else pieces[0] + "," + Join(pieces[1..])
  }

  /** Appending `"," + t` to a joined list joins one more piece. */
  lemma {:induction false} JoinSnoc(pieces: seq<string>, t: string)
    requires |pieces| >= 1
    ensures Join(pieces + [t]) == Join(pieces) + "," + t
  {
    if |pieces| > 1 {
      assert (pieces + [t])[1..] == pieces[1..] + [t];
      JoinSnoc(pieces[1..], t);
    }
  }

  lemma {:induction false} SplitCommaFree(s: string)
    requires ',' !in s
    ensures Split(s) == [s]
    decreases |s|
  {
    if s != [] {
      assert ',' !in s[1..] by {
        forall c | c in s[1..] ensures c != ',' { assert c in s; }
      }
      SplitCommaFree(s[1..]);
      assert [s[0]] + s[1..] == s;
    }
  }

  lemma {:induction false} SplitAtComma(a: string, b: string)
    ensures Split(a + "," + b) == Split(a) + Split(b)
    decreases |a|
  {
    var s := a + "," + b;
    if a == [] {
      assert s[0] == ',' && s[1..] == b;
    } else {
      assert s[0] == a[0] && s[1..] == a[1..] + "," + b;
      SplitAtComma(a[1..], b);
      if a[0] != ',' {
        ExtendFirstPiece(a[0], Split(a[1..]), Split(b));
      }
    }
  }

  /** Adding a character to the first piece commutes with appending more pieces. */
  lemma ExtendFirstPiece(c: char, front: seq<string>, back: seq<string>)
    requires |front| >= 1
    ensures [[c] + (front + back)[0]] + (front + back)[1..] == ([[c] + front[0]] + front[1..]) + back
  {
    assert (front + back)[0] == front[0];
    assert (front + back)[1..] == front[1..] + back;
  }

  /** Splitting a list joined from comma-free pieces gives back exactly those pieces, in
      order and with repetitions. */
  lemma {:induction false} SplitJoin(pieces: seq<string>)
    requires |pieces| >= 1
    requires forall i :: 0 <= i < |pieces| ==> ',' !in pieces[i]
    ensures Split(Join(pieces)) == pieces
    decreases |pieces|
  {
    SplitCommaFree(pieces[0]);
    if |pieces| > 1 {
      SplitAtComma(pieces[0], Join(pieces[1..]));
      SplitJoin(pieces[1..]);
    }
  }

  /** Joining the pieces of a split gives back the string. */
  lemma {:induction false} JoinSplit(s: string)
    ensures Join(Split(s)) == s
    decreases |s|
  {
    if s != [] {
      JoinSplit(s[1..]);
      var rest := Split(s[1..]);
      if s[0] == ',' {
        assert Split(s)[1..] == rest;
      } else if |rest| > 1 {
        assert Split(s)[1..] == rest[1..];
      }
    }
  }

  /** `Invoice.tickets_list()`; None stands for the AttributeError raised when `tickets`
      is unset. */
  function TicketsList(inv: Invoice): (r: Option<seq<string>>)
    ensures r.Some? <==> inv.tickets.Some?
    ensures r.Some? ==> 1 <= |r.value| && Join(r.value) == inv.tickets.value
    ensures r.Some? && ',' !in inv.tickets.value ==> r.value == [inv.tickets.value]
  {
    match inv.tickets
    case None => None
    case Some(t) =>
      JoinSplit(t);
      if ',' !in t then SplitCommaFree(t); Some(Split(t)) else Some(Split(t))
  }

  /** The part of `Invoice.__str__` after the separator: the customer when it is set and
      not empty, otherwise the upper-cased nature label in brackets. */
  function Party(inv: Invoice): string
  {
    if inv.customer.Some? && inv.customer.value != "" then inv.customer.value
    else "[" + Upper(Display(Code(inv.nature))) + "]"
  }

  /** `Invoice.__str__`: `"%06d - %s" % (number, customer or "[NATURE]")`. */
  function Render(inv: Invoice): string
  {
    FormatInt(inv.number, 6) + " - " + Party(inv)
  }

  /** The rendering starts with the number padded to at least six characters (exactly six
      for a number below a million), which reads back as the number, then " - ", then the
      party. */
  lemma RenderShape(inv: Invoice)
    ensures var k := |FormatInt(inv.number, 6)|;
      && 6 <= k && k + 3 <= |Render(inv)|
      && (0 <= inv.number < 1000000 ==> k == 6)
      && Render(inv)[..k] == FormatInt(inv.number, 6)
      && (inv.number >= 0 ==> AllDigits(Render(inv)[..k]))
      && (inv.number < 0 ==> Render(inv)[0] == '-' && AllDigits(Render(inv)[1..k]))
      && ParseInt(Render(inv)[..k]) == Some(inv.number)
      && Render(inv)[k..k + 3] == " - "
      && Render(inv)[k + 3..] == Party(inv)
  {
    var f := FormatInt(inv.number, 6);
    var r := Render(inv);
    assert r[..|f|] == f;
    assert r[|f|..|f| + 3] == " - ";
    assert r[|f| + 3..] == Party(inv);
    FormatIntParses(inv.number, 6);
    if 0 <= inv.number < 1000000 {
      assert Pow10(6) == 1000000;
      DigitsLength(inv.number, 6);
    }
  }

  /** The party is the customer when there is one; for an invoice without a customer
      (unset or empty) it is the nature's label from the choices, in capitals, between
      brackets. */
  lemma PartyShape(inv: Invoice)
    ensures inv.customer.Some? && inv.customer.value != "" ==> Party(inv) == inv.customer.value
    ensures inv.customer.None? || inv.customer.value == "" ==>
      var p := Party(inv);
      && 2 <= |p| && p[0] == '[' && p[|p| - 1] == ']'
      && HasNoLower(p[1..|p| - 1])
      && forall i :: 0 <= i < |NatureChoices| && NatureChoices[i].0 == Code(inv.nature) ==>
           p[1..|p| - 1] == Upper(NatureChoices[i].1)
  {
    if inv.customer.None? || inv.customer.value == "" {
      var u := Upper(Display(Code(inv.nature)));
      var p := Party(inv);
      assert p == "[" + u + "]";
      assert p[1..|p| - 1] == u;
    }
  }
}
