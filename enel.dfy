/**
 * The browser-driven invoice flow of the `enel` package: log in, inspect the
 * invoice list, drill into the detail page and read the invoice fields.
 *
 * Every `chromedp.Run` is one step of an abstract browser that answers with
 * the text its last `chromedp.Text` action extracted, or with an error.
 * Selectors, URLs, waits and sleeps are part of what a step stands for.
 */
module Enel {
  import opened Common
  import opened Strings

  /** UserData: the login e-mail, the password and the account holder's displayed name. */
  datatype UserData = UserData(email: string, pw: string, name: string)

  /** Invoice: the four raw or normalised text fields of one invoice. */
  datatype Invoice = Invoice(dueDate: string, value: string, barCode: string, status: string)

  /** The zero `Invoice{}` that InvoiceFlow returns on every error. */
  const EmptyInvoice := Invoice("", "", "", "")

  /** The browser runs the flow issues, in the order the source issues them. */
  datatype Step =
    | LoginRun(email: string, pw: string)  // navigate to the login page, type these credentials, read the displayed name
    | ListRun       // open the invoice list and read its second item
    | DetailRun     // click the item's detail action and read the detail header
    | ReadValue     // first Text action of invoiceData's run
    | ReadDueDate   // second Text action of invoiceData's run
    | ReadBarCode   // third Text action of invoiceData's run

  /** What one browser run yields: the extracted text, or the run's error. */
  datatype Reply = Text(text: string) | Fail(msg: string)

  /** The browser behind the flow's context `c`, as an oracle. */
  type Browser = Step -> Reply

  /** The context cancel functions that setContext registers. */
  datatype CancelFunc = AllocatorCancel | ContextCancel

  /** The errors the flow returns, one constructor per error that login, invoiceList and invoiceData return (message in the comment). */
  datatype FlowError =
    | NameMismatch            // "Login failure; user name did not match"
    | LoginFailed(msg: string)  // the login run's own error, returned unwrapped
    | ListFailed(msg: string)   // "invoiceFlow err: %v"
    | DetailFailed(msg: string) // "click details err: %v"
    | WrongPage               // "missing header; loaded the wrong page"
    | DataFailed(msg: string)   // "chromedp.Run err: %v"

  const Pending := "pending"
  const Overdue := "overdue"
  const PendingMarker := "Pendente"
  const OverdueMarker := "Vencido"
  const DetailTitle := "Detalhamento de conta"
  const Currency := "R$"

  // ---------------------------------------------------------------------------
  // Normalisation (formatInvoice)

  /** Go's ',' -> '.' replacement on one character. */
  function DotForComma(c: char): char
  {
    if c == ',' then '.' else c
  }

  /** The barcode with every space character (U+0020, and only it) removed. */
  function StripSpaces(raw: string): (r: string)
    ensures ' ' !in r
    ensures forall c :: c != ' ' ==> multiset(r)[c] == multiset(raw)[c]
  {
    DeleteRuneCounts(raw, ' ');
    ReplaceRune(raw, ' ', "")
  }

  /** The barcode shrinks by exactly the number of spaces it held. */
  lemma StripSpacesLength(raw: string)
    ensures |StripSpaces(raw)| == |raw| - multiset(raw)[' ']
  {
    DeleteRuneCounts(raw, ' ');
  }

  /** Space removal keeps every other character, in its order, and leaves a space-free string alone. */
  lemma StripSpacesKeepsOrder(a: string, b: string)
    ensures StripSpaces(a + b) == StripSpaces(a) + StripSpaces(b)
    ensures ' ' !in a ==> StripSpaces(a) == a
    ensures StripSpaces(StripSpaces(a)) == StripSpaces(a)
  {
    ReplaceRuneAppend(a, b, ' ', "");
    ReplaceRuneAbsent(StripSpaces(a), ' ', "");
    if ' ' !in a {
      ReplaceRuneAbsent(a, ' ', "");
    }
  }

  /** The value with one leading "R$" dropped and every ',' turned into '.'. */
  function NormalizeValue(raw: string): (r: string)
    ensures ',' !in r
    ensures |r| == if Currency <= raw then |raw| - 2 else |raw|
    ensures Currency <= raw ==> forall i :: 0 <= i < |r| ==> r[i] == DotForComma(raw[i + 2])
    ensures !(Currency <= raw) ==> forall i :: 0 <= i < |r| ==> r[i] == DotForComma(raw[i])
  {
    ReplaceRuneAt(TrimPrefix(raw, Currency), ',', '.');
    ReplaceRune(TrimPrefix(raw, Currency), ',', ".")
  }

  /** The invoice after formatInvoice: barcode and value normalised, due date and status kept. */
  function Formatted(inv: Invoice): (r: Invoice)
    ensures r.dueDate == inv.dueDate && r.status == inv.status
    ensures ' ' !in r.barCode && ',' !in r.value
    ensures |r.value| == if Currency <= inv.value then |inv.value| - 2 else |inv.value|
  {
    inv.(barCode := StripSpaces(inv.barCode), value := NormalizeValue(inv.value))
  }

  /** A value with one decimal comma: only that comma changes. */
  lemma OneCommaReplaced(whole: string, cents: string)
    requires ',' !in whole && ',' !in cents
    ensures ReplaceRune(whole + "," + cents, ',', ".") == whole + "." + cents
  {
    ReplaceRuneAbsent(whole, ',', ".");
    ReplaceRuneAbsent(cents, ',', ".");
    assert ReplaceRune(",", ',', ".") == ".";
    ReplaceRuneAppend(whole, ",", ',', ".");
    assert ReplaceRune(whole + ",", ',', ".") == whole + ".";
    ReplaceRuneAppend(whole + ",", cents, ',', ".");
  }

  /** The exact literal behaviour on the portal's value format. */
  lemma ValueExample()
    ensures NormalizeValue("R$123,45") == "123.45"
  {
    assert "R$" <= "R$123,45" && "R$123,45"[2..] == "123" + "," + "45";
    OneCommaReplaced("123", "45");
  }

  /** A thousands separator is not removed: both separators become dots. */
  lemma ValueKeepsThousandsSeparator()
    ensures NormalizeValue("R$1.234,56") == "1.234.56"
  {
    assert "R$" <= "R$1.234,56" && "R$1.234,56"[2..] == "1.234" + "," + "56";
    OneCommaReplaced("1.234", "56");
  }

  /** The prefix is only trimmed at position 0. */
  lemma ValuePrefixOnlyAtStart()
    ensures NormalizeValue("12R$3") == "12R$3"
  {
    assert "12R$3"[0] == '1';
    ReplaceRuneAbsent("12R$3", ',', ".");
  }

  /** A barcode with one space between two groups: the groups are joined. */
  lemma OneSpaceRemoved(front: string, back: string)
    requires ' ' !in front && ' ' !in back
    ensures StripSpaces(front + " " + back) == front + back
  {
    ReplaceRuneAbsent(front, ' ', "");
    ReplaceRuneAbsent(back, ' ', "");
    assert ReplaceRune(" ", ' ', "") == [];
    ReplaceRuneAppend(front, " ", ' ', "");
    assert ReplaceRune(front + " ", ' ', "") == front;
    ReplaceRuneAppend(front + " ", back, ' ', "");
  }

  /** The spaces of a barcode go. */
  lemma BarcodeExample()
    ensures StripSpaces("12 34") == "1234"
  {
    OneSpaceRemoved("12", "34");
    assert "12" + " " + "34" == "12 34";
  }

  /** Only U+0020 goes from a barcode: tabs and newlines stay. */
  lemma BarcodeKeepsOtherWhitespace()
    ensures StripSpaces("12\t34\n5") == "12\t34\n5"
  {
    ReplaceRuneAbsent("12\t34\n5", ' ', "");
  }

  // ---------------------------------------------------------------------------
  // Decisions of the three steps

  /** The login run for user `u`: it types `u`'s e-mail and password. */
  function LoginStep(u: UserData): Step
  {
    LoginRun(u.email, u.pw)
  }

  /** The name login compares: what the run read, or "" when the run failed before reading it. */
  function DisplayedName(b: Browser, u: UserData): (name: string)
    ensures b(LoginStep(u)).Fail? ==> (SameLower(name, u.name) <==> u.name == "")
  {
    match b(LoginStep(u))
    case Text(name) => name
    case Fail(_) => ""
  }

  /** What login returns: the name check comes first, then the run's own error. */
  function LoginSpec(b: Browser, u: UserData): Option<FlowError>
  {
    if !SameLower(DisplayedName(b, u), u.name) then Some(NameMismatch)
    else match b(LoginStep(u))
      case Fail(msg) => Some(LoginFailed(msg))
      case Text(_) => None
  }

  /** The status after reading the list text: "Vencido" wins over "Pendente"; neither keeps `prev`. */
  function Classify(table: string, prev: string): (s: string)
    ensures s == prev || Drills(s)
    ensures !Drills(prev) && !Contains(table, PendingMarker) ==> (Drills(s) <==> Contains(table, OverdueMarker))
  {
    if Contains(table, OverdueMarker) then Overdue
    else if Contains(table, PendingMarker) then Pending
    else prev
  }

  /** The statuses for which invoiceList drills into the detail page. */
  predicate Drills(status: string)
  {
    status == Pending || status == Overdue
  }

  /** What one step did: the runs it issued, the invoice it left and the error it returned. */
  datatype Outcome = Outcome(runs: seq<Step>, invoice: Invoice, err: Option<FlowError>)

  /** The detail-header post-condition. */
  function HeaderCheck(r: Reply): (e: Option<FlowError>)
    ensures e.None? <==> r == Text(DetailTitle)
    ensures r.Fail? ==> e == Some(DetailFailed(r.msg))
    ensures r.Text? && r.text != DetailTitle ==> e == Some(WrongPage)
  {
    match r
    case Fail(msg) => Some(DetailFailed(msg))
    case Text(header) => if header == DetailTitle then None else Some(WrongPage)
  }

  /** invoiceList on invoice `inv`. */
  function ListSpec(b: Browser, inv: Invoice): Outcome
  {
    match b(ListRun)
    case Fail(msg) => Outcome([ListRun], inv, Some(ListFailed(msg)))
    case Text(table) =>
      var inv' := inv.(status := Classify(table, inv.status));
      if Drills(inv'.status) then Outcome([ListRun, DetailRun], inv', HeaderCheck(b(DetailRun)))
      else Outcome([ListRun], inv', None)
  }

  /** invoiceData on invoice `inv`: three reads that stop at the first failure, then formatInvoice. */
  function DataSpec(b: Browser, inv: Invoice): Outcome
  {
    match b(ReadValue)
    case Fail(msg) => Outcome([ReadValue], inv, Some(DataFailed(msg)))
    case Text(v) =>
      match b(ReadDueDate)
      case Fail(msg) => Outcome([ReadValue, ReadDueDate], inv.(value := v), Some(DataFailed(msg)))
      case Text(d) =>
        match b(ReadBarCode)
        case Fail(msg) =>
          Outcome([ReadValue, ReadDueDate, ReadBarCode], inv.(value := v, dueDate := d), Some(DataFailed(msg)))
        case Text(c) =>
          Outcome([ReadValue, ReadDueDate, ReadBarCode], Formatted(inv.(value := v, dueDate := d, barCode := c)), None)
  }

  /** InvoiceFlow after a successful login: invoiceList, then invoiceData unless the list step failed. */
  function ListThenData(b: Browser, inv: Invoice): Outcome
  {
    var list := ListSpec(b, inv);
    if list.err.Some? then list
    else
      var data := DataSpec(b, list.invoice);
      Outcome(list.runs + data.runs, data.invoice, data.err)
  }

  /** InvoiceFlow's three steps, stopping at the first error. */
  function FlowSpec(b: Browser, u: UserData, inv: Invoice): Outcome
  {
    var loginErr := LoginSpec(b, u);
    if loginErr.Some? then Outcome([LoginStep(u)], inv, loginErr)
    else
      var rest := ListThenData(b, inv);
      Outcome([LoginStep(u)] + rest.runs, rest.invoice, rest.err)
  }

  /** The runs of a flow that fails nowhere, with or without the drill-down. */
  function FullRuns(u: UserData, drill: bool): seq<Step>
  {
    [LoginStep(u), ListRun] + (if drill then [DetailRun] else []) + [ReadValue, ReadDueDate, ReadBarCode]
  }

  /** The step at which an error arises. */
  predicate FailedAt(e: FlowError, s: Step)
  {
    match e
    case NameMismatch => s.LoginRun?
    case LoginFailed(_) => s.LoginRun?
    case ListFailed(_) => s == ListRun
    case DetailFailed(_) => s == DetailRun
    case WrongPage => s == DetailRun
    case DataFailed(_) => s == ReadValue || s == ReadDueDate || s == ReadBarCode
  }

  // ---------------------------------------------------------------------------
  // Properties of the decisions

  /** Login fails with the name error whenever the lower-cased names differ, even after a failed run;
      otherwise it fails exactly when the run failed. */
  lemma LoginDecision(b: Browser, u: UserData)
    ensures !SameLower(DisplayedName(b, u), u.name) ==> LoginSpec(b, u) == Some(NameMismatch)
    ensures SameLower(DisplayedName(b, u), u.name) && b(LoginStep(u)).Fail? ==> LoginSpec(b, u) == Some(LoginFailed(b(LoginStep(u)).msg))
    ensures LoginSpec(b, u).None? <==> b(LoginStep(u)).Text? && SameLower(b(LoginStep(u)).text, u.name)
  {
  }

  /** A failed login run is reported as a name mismatch, not as the run's error, unless the
      expected name is itself empty. */
  lemma FailedRunReportsMismatch(b: Browser, u: UserData)
    requires b(LoginStep(u)).Fail?
    ensures u.name != "" ==> LoginSpec(b, u) == Some(NameMismatch)
    ensures u.name == "" ==> LoginSpec(b, u) == Some(LoginFailed(b(LoginStep(u)).msg))
  {
    assert DisplayedName(b, u) == "";
  }

  /** "Vencido" makes the status overdue even beside "Pendente"; "Pendente" alone makes it pending;
      otherwise the previous status stays. */
  lemma ClassifyCases(table: string, prev: string)
    ensures (exists i :: OccursAt(table, OverdueMarker, i)) ==> Classify(table, prev) == Overdue
    ensures (exists i :: OccursAt(table, PendingMarker, i)) && !(exists i :: OccursAt(table, OverdueMarker, i))
      ==> Classify(table, prev) == Pending
    ensures !(exists i :: OccursAt(table, PendingMarker, i)) && !(exists i :: OccursAt(table, OverdueMarker, i))
      ==> Classify(table, prev) == prev
  {
    ContainsIffOccurs(table, OverdueMarker);
    ContainsIffOccurs(table, PendingMarker);
  }

  /** A failed list read returns before the status is touched. */
  lemma ListFailureKeepsInvoice(b: Browser, inv: Invoice)
    requires b(ListRun).Fail?
    ensures ListSpec(b, inv) == Outcome([ListRun], inv, Some(ListFailed(b(ListRun).msg)))
  {
  }

  /** The drill-down runs exactly for a pending or overdue status, and then succeeds only on the exact header. */
  lemma ListDrillDown(b: Browser, inv: Invoice)
    requires b(ListRun).Text?
    ensures var o := ListSpec(b, inv);
      o.invoice == inv.(status := Classify(b(ListRun).text, inv.status))
      && (DetailRun in o.runs <==> Drills(o.invoice.status))
      && (Drills(o.invoice.status) ==> (o.err.None? <==> b(DetailRun) == Text(DetailTitle)))
      && (!Drills(o.invoice.status) ==> o.err.None?)
  {
  }

  /** The runs of invoiceList: the list run, then possibly the drill-down, which is last if it failed. */
  lemma ListRunsShape(b: Browser, inv: Invoice)
    ensures var l := ListSpec(b, inv);
      (l.runs == [ListRun] || l.runs == [ListRun, DetailRun])
      && (l.err.Some? ==> FailedAt(l.err.value, l.runs[|l.runs| - 1]))
  {
  }

  /** The runs of invoiceData: a non-empty prefix of the three reads, all of them on success. */
  lemma DataRunsShape(b: Browser, inv: Invoice)
    ensures var d := DataSpec(b, inv);
      |d.runs| > 0 && d.runs <= [ReadValue, ReadDueDate, ReadBarCode]
      && (d.err.None? ==> d.runs == [ReadValue, ReadDueDate, ReadBarCode])
      && (d.err.Some? ==> FailedAt(d.err.value, d.runs[|d.runs| - 1]))
      && (d.err.Some? ==> FromReply(d.err.value, b(d.runs[|d.runs| - 1])))
  {
  }

  /** A failed data read leaves the fields read before it written raw, and formatInvoice does not run. */
  lemma DataFailureKeepsRawReads(b: Browser, inv: Invoice)
    ensures var d := DataSpec(b, inv);
      d.err.Some? ==> d.invoice == inv.(value := if |d.runs| >= 2 then b(ReadValue).text else inv.value,
                                        dueDate := if |d.runs| == 3 then b(ReadDueDate).text else inv.dueDate)
  {
  }

  /** Login, the list runs and a prefix of the reads form a prefix of the full sequence of runs;
      with all three reads they form the full sequence, drilling down exactly when a detail run is among them. */
  lemma RunsInOrder(u: UserData, listRuns: seq<Step>, dataRuns: seq<Step>)
    requires listRuns == [ListRun] || listRuns == [ListRun, DetailRun]
    requires dataRuns <= [ReadValue, ReadDueDate, ReadBarCode]
    ensures var r := [LoginStep(u)] + listRuns + dataRuns;
      r <= FullRuns(u, listRuns == [ListRun, DetailRun])
      && (dataRuns == [ReadValue, ReadDueDate, ReadBarCode] ==> r == FullRuns(u, DetailRun in r))
  {
    var r := [LoginStep(u)] + listRuns + dataRuns;
    var drill := listRuns == [ListRun, DetailRun];
    assert FullRuns(u, drill) == [LoginStep(u)] + listRuns + [ReadValue, ReadDueDate, ReadBarCode];
    assert DetailRun in r <==> drill by {
      assert DetailRun in listRuns <==> drill;
      assert DetailRun !in dataRuns by {
        forall k | 0 <= k < |dataRuns| ensures dataRuns[k] != DetailRun {
          assert dataRuns[k] == [ReadValue, ReadDueDate, ReadBarCode][k];
        }
      }
      assert DetailRun != LoginStep(u);
    }
  }

  /** The flow issues its runs in order: login first, then a prefix of the full sequence. */
  lemma FlowOrder(b: Browser, u: UserData, inv: Invoice)
    ensures var o := FlowSpec(b, u, inv);
      |o.runs| > 0 && o.runs[0] == LoginStep(u)
      && (o.runs <= FullRuns(u, true) || o.runs <= FullRuns(u, false))
      && (o.err.None? ==> o.runs == FullRuns(u, DetailRun in o.runs))
  {
    var o := FlowSpec(b, u, inv);
    if LoginSpec(b, u).None? {
      var list := ListSpec(b, inv);
      ListRunsShape(b, inv);
      if list.err.None? {
        var data := DataSpec(b, list.invoice);
        DataRunsShape(b, list.invoice);
        assert o.runs == [LoginStep(u)] + list.runs + data.runs;
        RunsInOrder(u, list.runs, data.runs);
      } else {
        assert o.runs == [LoginStep(u)] + list.runs + [];
        RunsInOrder(u, list.runs, []);
      }
    }
  }

  /** A failed flow stops at the step its error names: nothing runs after it. */
  lemma FlowStopsAtFailure(b: Browser, u: UserData, inv: Invoice)
    ensures var o := FlowSpec(b, u, inv);
      |o.runs| > 0 && (o.err.Some? ==> FailedAt(o.err.value, o.runs[|o.runs| - 1]))
      && (forall k :: 0 <= k < |o.runs| - 1 ==> b(o.runs[k]).Text?)
  {
    var o := FlowSpec(b, u, inv);
    if LoginSpec(b, u).None? {
      var list := ListSpec(b, inv);
      ListRunsShape(b, inv);
      if list.err.None? {
        var data := DataSpec(b, list.invoice);
        DataRunsShape(b, list.invoice);
        assert o.runs == [LoginStep(u)] + list.runs + data.runs;
        assert o.runs[|o.runs| - 1] == data.runs[|data.runs| - 1];
      } else {
        assert o.runs[|o.runs| - 1] == list.runs[|list.runs| - 1];
      }
    }
    EarlierRunsAnswered(b, u, inv);
  }

  /** How an error relates to the reply of the run it came from. */
  predicate FromReply(e: FlowError, r: Reply)
  {
    match e
    case NameMismatch => true
    case LoginFailed(msg) => r == Fail(msg)
    case ListFailed(msg) => r == Fail(msg)
    case DetailFailed(msg) => r == Fail(msg)
    case WrongPage => r.Text? && r.text != DetailTitle
    case DataFailed(msg) => r == Fail(msg)
  }

  /** The error of a failed flow comes from the reply of the last run issued: no run follows
      the one that failed, the three data reads included. */
  lemma FailureIsLastRun(b: Browser, u: UserData, inv: Invoice)
    ensures var o := FlowSpec(b, u, inv);
      |o.runs| > 0 && (o.err.Some? ==> FromReply(o.err.value, b(o.runs[|o.runs| - 1])))
  {
    var o := FlowSpec(b, u, inv);
    if LoginSpec(b, u).None? {
      var list := ListSpec(b, inv);
      if list.err.None? {
        var data := DataSpec(b, list.invoice);
        assert o.runs == [LoginStep(u)] + list.runs + data.runs;
        assert o.runs[|o.runs| - 1] == data.runs[|data.runs| - 1];
      } else {
        assert o.runs[|o.runs| - 1] == list.runs[|list.runs| - 1];
      }
    }
  }

  /** Every run before the last one answered with a text: a failed run is never followed by another. */
  lemma EarlierRunsAnswered(b: Browser, u: UserData, inv: Invoice)
    ensures var o := FlowSpec(b, u, inv);
      forall k :: 0 <= k < |o.runs| - 1 ==> b(o.runs[k]).Text?
  {
    var o := FlowSpec(b, u, inv);
    if LoginSpec(b, u).None? {
      assert b(LoginStep(u)).Text?;
      var list := ListSpec(b, inv);
      ListRunsShape(b, inv);
      assert list.runs == [ListRun, DetailRun] ==> b(ListRun).Text?;
      if list.err.None? {
        var data := DataSpec(b, list.invoice);
        DataRunsShape(b, list.invoice);
        assert list.runs == [ListRun, DetailRun] ==> b(DetailRun).Text?;
        assert b(ListRun).Text?;
        assert |data.runs| >= 2 ==> b(ReadValue).Text?;
        assert |data.runs| == 3 ==> b(ReadDueDate).Text?;
        assert o.runs == [LoginStep(u)] + list.runs + data.runs;
      } else {
        assert o.runs == [LoginStep(u)] + list.runs;
      }
    }
  }

  /** A name mismatch stops the flow before any list or detail run. */
  lemma MismatchStopsFlow(b: Browser, u: UserData, inv: Invoice)
    requires !SameLower(DisplayedName(b, u), u.name)
    ensures FlowSpec(b, u, inv) == Outcome([LoginStep(u)], inv, Some(NameMismatch))
  {
  }

  /** A successful flow has the normalised fields and the classified status, and the header check passed when it drilled. */
  lemma FlowSuccess(b: Browser, u: UserData, inv: Invoice)
    requires FlowSpec(b, u, inv).err.None?
    ensures b(LoginStep(u)).Text? && b(ListRun).Text?
    ensures b(ReadValue).Text? && b(ReadDueDate).Text? && b(ReadBarCode).Text?
    ensures var o := FlowSpec(b, u, inv);
      var status := Classify(b(ListRun).text, inv.status);
      o.invoice == Invoice(b(ReadDueDate).text, NormalizeValue(b(ReadValue).text),
                           StripSpaces(b(ReadBarCode).text), status)
      && ' ' !in o.invoice.barCode && ',' !in o.invoice.value
      && (Drills(status) ==> b(DetailRun) == Text(DetailTitle))
  {
  }

  /** There is no short cut for a settled invoice: with neither marker and no earlier status
      the detail fields are still read, and success leaves the status "". */
  lemma SettledStillReadsDetail(b: Browser, u: UserData)
    requires LoginSpec(b, u).None?
    requires b(ListRun).Text? && !Contains(b(ListRun).text, PendingMarker) && !Contains(b(ListRun).text, OverdueMarker)
    ensures var o := FlowSpec(b, u, EmptyInvoice);
      DetailRun !in o.runs && ReadValue in o.runs
      && (o.err.None? ==> o.invoice.status == "")
  {
    var o := FlowSpec(b, u, EmptyInvoice);
    assert o.runs[2] == ReadValue;
  }

  // ---------------------------------------------------------------------------
  // Release order of the deferred cancel functions

  /** The order in which deferred calls run: last registered first. */
  function Reversed(s: seq<CancelFunc>): (r: seq<CancelFunc>)
  {
    if s == [] then [] else Reversed(s[1..]) + [s[0]]
  }

  /** Every registered cancel function runs exactly once, the last registered first. */
  lemma {:induction false} ReversedRunsEachOnce(s: seq<CancelFunc>)
    ensures |Reversed(s)| == |s| && multiset(Reversed(s)) == multiset(s)
    ensures forall k :: 0 <= k < |s| ==> Reversed(s)[k] == s[|s| - 1 - k]
  {
    if s != [] {
      ReversedRunsEachOnce(s[1..]);
      assert s == [s[0]] + s[1..];
    }
  }

  /** One entry of a flow's history: a browser run, or the call of a cancel function. */
  datatype Event = Ran(step: Step) | Released(f: CancelFunc)

  /** The history entries of a sequence of browser runs. */
  function RunEvents(steps: seq<Step>): (r: seq<Event>)
    ensures |r| == |steps|
  {
    if steps == [] then [] else [Ran(steps[0])] + RunEvents(steps[1..])
  }

  /** The history entries of a sequence of cancel calls. */
  function ReleaseEvents(fs: seq<CancelFunc>): (r: seq<Event>)
    ensures |r| == |fs|
  {
    if fs == [] then [] else [Released(fs[0])] + ReleaseEvents(fs[1..])
  }

  /** Entry k of a run history is the k-th run. */
  lemma {:induction false} RunEventsAt(steps: seq<Step>)
    ensures forall k :: 0 <= k < |steps| ==> RunEvents(steps)[k] == Ran(steps[k])
  {
    if steps != [] {
      RunEventsAt(steps[1..]);
    }
  }

  /** Entry k of a release history is the k-th cancel call. */
  lemma {:induction false} ReleaseEventsAt(fs: seq<CancelFunc>)
    ensures forall k :: 0 <= k < |fs| ==> ReleaseEvents(fs)[k] == Released(fs[k])
  {
    if fs != [] {
      ReleaseEventsAt(fs[1..]);
    }
  }

  /** Logging runs piece by piece logs them all, in order. */
  lemma {:induction false} RunEventsAppend(a: seq<Step>, b: seq<Step>)
    ensures RunEvents(a + b) == RunEvents(a) + RunEvents(b)
  {
    if a != [] {
      assert (a + b)[1..] == a[1..] + b;
      RunEventsAppend(a[1..], b);
    } else {
      assert a + b == b;
    }
  }

  /** Logging cancel calls piece by piece logs them all, in order. */
  lemma {:induction false} ReleaseEventsAppend(a: seq<CancelFunc>, b: seq<CancelFunc>)
    ensures ReleaseEvents(a + b) == ReleaseEvents(a) + ReleaseEvents(b)
  {
    if a != [] {
      assert (a + b)[1..] == a[1..] + b;
      ReleaseEventsAppend(a[1..], b);
    } else {
      assert a + b == b;
    }
  }

  /** The history after one, two or all three data reads, each appended in turn. */
  lemma ReadEvents(h: seq<Event>)
    ensures h + RunEvents([ReadValue]) == h + [Ran(ReadValue)]
    ensures h + RunEvents([ReadValue, ReadDueDate]) == h + [Ran(ReadValue)] + [Ran(ReadDueDate)]
    ensures h + RunEvents([ReadValue, ReadDueDate, ReadBarCode])
      == h + [Ran(ReadValue)] + [Ran(ReadDueDate)] + [Ran(ReadBarCode)]
  {
    RunEventsAt([ReadValue, ReadDueDate, ReadBarCode]);
    RunEventsAt([ReadValue, ReadDueDate]);
    RunEventsAt([ReadValue]);
  }

  /** Histories concatenate associatively. */
  lemma HistoryAssoc(a: seq<Event>, b: seq<Event>, c: seq<Event>)
    ensures (a + b) + c == a + (b + c)
  {
  }

  /** In a history of runs followed by cancel calls, no run comes after a cancel call: the
      browser context is still alive for every run. */
  lemma ReleasesAfterRuns(steps: seq<Step>, fs: seq<CancelFunc>)
    ensures var h := RunEvents(steps) + ReleaseEvents(fs);
      forall i, j :: 0 <= i < j < |h| && h[i].Released? ==> h[j].Released?
  {
    var h := RunEvents(steps) + ReleaseEvents(fs);
    RunEventsAt(steps);
    ReleaseEventsAt(fs);
    forall i, j | 0 <= i < j < |h| && h[i].Released? ensures h[j].Released? {
      assert h[j] == Released(fs[j - |steps|]);
    }
  }

  /** setContext: the allocator's cancel, then the browser context's. */
  method SetContext() returns (fs: seq<CancelFunc>)
    ensures fs == [AllocatorCancel, ContextCancel]
    ensures Reversed(fs) == [ContextCancel, AllocatorCancel]
  {
    fs := [];
    fs := fs + [AllocatorCancel];
    fs := fs + [ContextCancel];
    ReversedRunsEachOnce(fs);
  }

  // ---------------------------------------------------------------------------
  // The Flow record and its methods

  class Flow {
    /** The browser context `c`. */
    const browser: Browser
    var user: UserData
    var invoice: Invoice
    var cancel: seq<CancelFunc>
    /** The browser runs issued and the cancel functions invoked so far, in the order they happened. */
    ghost var events: seq<Event>

    /** NewFlow: a fresh context with its two cancel functions, the user data and an empty invoice. */
    constructor (browser: Browser, user: UserData)
      ensures this.browser == browser && this.user == user
      ensures invoice == EmptyInvoice && cancel == [AllocatorCancel, ContextCancel]
      ensures events == []
    {
      this.browser := browser;
      this.user := user;
      invoice := EmptyInvoice;
      var fs := SetContext();
      cancel := fs;
      events := [];
    }

    /** One chromedp.Run. */
    method Run(s: Step) returns (r: Reply)
      modifies this`events
      ensures r == browser(s) && events == old(events) + [Ran(s)]
    {
      r := browser(s);
      events := events + [Ran(s)];
    }

    /** Calling one cancel function. */
    method Invoke(f: CancelFunc)
      modifies this`events
      ensures events == old(events) + [Released(f)]
    {
      events := events + [Released(f)];
    }

    /** The deferred calls of InvoiceFlow, run when it returns. */
    method ReleaseAll(fs: seq<CancelFunc>)
      modifies this`events
      ensures events == old(events) + ReleaseEvents(Reversed(fs))
    {
      var i := |fs|;
      while i > 0
        invariant 0 <= i <= |fs|
        invariant events == old(events) + ReleaseEvents(Reversed(fs[i..]))
      {
        i := i - 1;
        assert fs[i..][1..] == fs[i + 1..];
        ReleaseEventsAppend(Reversed(fs[i + 1..]), [fs[i]]);
        Invoke(fs[i]);
      }
    }

    method Login() returns (err: Option<FlowError>)
      modifies this`events
      ensures events == old(events) + [Ran(LoginRun(user.email, user.pw))]
      ensures err == LoginSpec(browser, user)
    {
      var r := Run(LoginRun(user.email, user.pw));
      var name := "";
      if r.Text? {
        name := r.text;
      }
      if Lower(name) != Lower(user.name) {
        return Some(NameMismatch);
      }
      if r.Fail? {
        return Some(LoginFailed(r.msg));
      }
      return None;
    }

    method InvoiceList() returns (err: Option<FlowError>)
      modifies this`events, this`invoice
      ensures var o := ListSpec(browser, old(invoice));
        events == old(events) + RunEvents(o.runs) && invoice == o.invoice && err == o.err
    {
      var r := Run(ListRun);
      if r.Fail? {
        return Some(ListFailed(r.msg));
      }
      var table := r.text;
      if Contains(table, PendingMarker) {
        invoice := invoice.(status := Pending);
      }
      if Contains(table, OverdueMarker) {
        invoice := invoice.(status := Overdue);
      }
      if invoice.status == Pending || invoice.status == Overdue {
        var h := Run(DetailRun);
        if h.Fail? {
          return Some(DetailFailed(h.msg));
        }
        if h.text != DetailTitle {
          return Some(WrongPage);
        }
      }
      return None;
    }

    method InvoiceData() returns (err: Option<FlowError>)
      modifies this`events, this`invoice
      ensures var o := DataSpec(browser, old(invoice));
        events == old(events) + RunEvents(o.runs) && invoice == o.invoice && err == o.err
    {
      ReadEvents(old(events));
      var r := Run(ReadValue);
      if r.Text? {
        invoice := invoice.(value := r.text);
        r := Run(ReadDueDate);
        if r.Text? {
          invoice := invoice.(dueDate := r.text);
          r := Run(ReadBarCode);
          if r.Text? {
            invoice := invoice.(barCode := r.text);
          }
        }
      }
      if r.Fail? {
        return Some(DataFailed(r.msg));
      }
      FormatInvoice();
      return None;
    }

    method FormatInvoice()
      modifies this`invoice
      ensures invoice == Formatted(old(invoice))
    {
      invoice := invoice.(barCode := ReplaceRune(invoice.barCode, ' ', ""));
      invoice := invoice.(value := ReplaceRune(TrimPrefix(invoice.value, Currency), ',', "."));
    }

    /** InvoiceFlow: login, list, data, stopping at the first error; the cancel functions
        registered at entry all run on the way out, after the last run, last registered first. */
    method InvoiceFlow() returns (result: Invoice, err: Option<FlowError>)
      modifies this`events, this`invoice
      ensures var o := FlowSpec(browser, user, old(invoice));
        events == old(events) + RunEvents(o.runs) + ReleaseEvents(Reversed(cancel))
        && invoice == o.invoice && err == o.err
        && result == (if err.Some? then EmptyInvoice else o.invoice)
    {
      var deferred := cancel;
      ghost var o := FlowSpec(browser, user, invoice);
      ghost var login := [LoginStep(user)];
      assert RunEvents(login) == [Ran(LoginStep(user))];
      err := Login();
      ghost var e1 := events;
      if err.None? {
        ghost var list := ListSpec(browser, invoice);
        err := InvoiceList();
        ghost var e2 := events;
        if err.None? {
          ghost var data := DataSpec(browser, list.invoice);
          err := InvoiceData();
          assert o.runs == login + (list.runs + data.runs);
          RunEventsAppend(list.runs, data.runs);
          HistoryAssoc(e1, RunEvents(list.runs), RunEvents(data.runs));
        } else {
          assert o.runs == login + list.runs;
        }
        RunEventsAppend(login, o.runs[1..]);
        assert login + o.runs[1..] == o.runs;
        HistoryAssoc(old(events), RunEvents(login), RunEvents(o.runs[1..]));
      } else {
        assert o.runs == login;
      }
      result := if err.Some? then EmptyInvoice else invoice;
      ReleaseAll(deferred);
    }
  }
}
