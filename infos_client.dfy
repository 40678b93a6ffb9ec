/**
 * The client file page a huissier opens on a customer found by code: the
 * local copy of the client (`clientState`), the creditor-name lookup, the
 * new-debt form and the repayment bookkeeping.
 *
 * The clock is an input: `now` in milliseconds and `stamp`, its ISO text.
 * Alerts and requests the page produces are appended to `alerts` and `sent`.
 */
module InfosClient {
  import opened Wrappers
  import opened Text
  import Lists

  datatype Debt = Debt(
    id: int, creditorNpi: string, date: string, amount: string, periodicity: string,
    deadlineAmount: string, verified: bool, solvability: bool, status: string, customer: Option<int>)

  datatype Repayment = Repayment(
    customer: string, date: string, amount: string, periodicity: string, deadlineAmount: string,
    deadline: string, verified: bool, solvability: bool, status: string)

  /** The customer record the page is opened with. */
  datatype ServerClient = ServerClient(
    uuid: string, npi: string, phoneNumber: string, firstName: string, lastName: string,
    email: string, creditScore: Option<int>, loans: seq<Debt>, receivables: seq<Repayment>)

  /** The page's `clientState`. */
  datatype ClientData = ClientData(
    uuid: string, npi: string, phone: string, name: string, email: string,
    creditScore: int, loans: seq<Debt>, receivables: seq<Repayment>)

  /** `initialClientData`. */
  function InitialClient(s: ServerClient): (c: ClientData)
    ensures c.name == s.firstName + " " + s.lastName
    ensures c.creditScore == if s.creditScore.Some? then s.creditScore.value else 0
    ensures c.loans == s.loans && c.receivables == s.receivables
    ensures c.uuid == s.uuid && c.npi == s.npi && c.phone == s.phoneNumber && c.email == s.email
  {
    ClientData(s.uuid, s.npi, s.phoneNumber, s.firstName + " " + s.lastName, s.email,
      s.creditScore.GetOr(0), s.loans, s.receivables)
  }

  /** A first name without a space is the part of the displayed name before its first space. */
  lemma FirstNameLeadsTheName(s: ServerClient)
    requires ' ' !in s.firstName
    ensures Before(InitialClient(s).name, ' ') == s.firstName
  {
    BeforeSeparator(s.firstName, s.lastName);
  }

  lemma {:induction false} BeforeSeparator(a: string, b: string)
    requires ' ' !in a
    ensures Before(a + " " + b, ' ') == a
  {
    if a != [] {
      assert (a + " " + b)[1..] == a[1..] + " " + b;
      BeforeSeparator(a[1..], b);
    }
  }

  // ---------------------------------------------------------------------------
  // Repayment bookkeeping
  // ---------------------------------------------------------------------------

  const Repaid := "Remboursé"

  predicate HasId(d: Debt, id: int) {
    d.id == id
  }

  /** The repay button is shown for a debt exactly when it is not yet repaid. */
  predicate Repayable(d: Debt) {
    d.status != Repaid
  }

  function MarkRepaid(loans: seq<Debt>, id: int): (r: seq<Debt>)
    ensures |r| == |loans|
    ensures forall i :: 0 <= i < |loans| ==> r[i] == if loans[i].id == id then loans[i].(status := Repaid) else loans[i]
  {
    var hit := (d: Debt) => HasId(d, id);
    var f := (d: Debt) => d.(status := Repaid);
    forall i | 0 <= i < |loans|
      ensures Lists.MapWhere(loans, hit, f)[i] == if loans[i].id == id then loans[i].(status := Repaid) else loans[i]
    {
      Lists.MapWhereAt(loans, hit, f, i);
    }
    Lists.MapWhere(loans, hit, f)
  }

  /** `markAsPaid(id)`: the debts with the id become repaid and one repayment, from the first of them, is recorded. */
  function PaidStep(c: ClientData, id: int, stamp: string): (r: ClientData)
    ensures Lists.FindFirst(c.loans, (d: Debt) => HasId(d, id)).None? ==> r == c
    ensures Lists.FindFirst(c.loans, (d: Debt) => HasId(d, id)).Some? ==>
      var debt := c.loans[Lists.FindFirst(c.loans, (d: Debt) => HasId(d, id)).value];
      && r == c.(loans := MarkRepaid(c.loans, id), receivables := r.receivables)
      && r.receivables == c.receivables + [Repayment(c.name, stamp, debt.amount, debt.periodicity,
                                                     debt.deadlineAmount, stamp, true, true, "Payé")]
    ensures |r.loans| == |c.loans|
    ensures forall i :: 0 <= i < |c.loans| && c.loans[i].id != id ==> r.loans[i] == c.loans[i]
    ensures forall i :: 0 <= i < |c.loans| && c.loans[i].id == id ==> !Repayable(r.loans[i])
  {
    match Lists.FindFirst(c.loans, (d: Debt) => HasId(d, id))
    case None => c
    case Some(k) =>
      var debt := c.loans[k];
      c.(loans := MarkRepaid(c.loans, id),
         receivables := c.receivables + [Repayment(c.name, stamp, debt.amount, debt.periodicity,
                                                   debt.deadlineAmount, stamp, true, true, "Payé")])
  }

  /**
   * Only the button guards against paying twice: a second `markAsPaid` on the
   * same id finds the debt again and records a second repayment.
   */
  lemma PayingTwiceRecordsTwice(c: ClientData, id: int, stamp: string)
    requires exists i :: 0 <= i < |c.loans| && c.loans[i].id == id
    ensures var once := PaidStep(c, id, stamp);
      && |once.receivables| == |c.receivables| + 1
      && |PaidStep(once, id, stamp).receivables| == |c.receivables| + 2
      && PaidStep(once, id, stamp).loans == once.loans
  {
    var hit := (d: Debt) => HasId(d, id);
    var i :| 0 <= i < |c.loans| && c.loans[i].id == id;
    assert hit(c.loans[i]);
    var once := PaidStep(c, id, stamp);
    assert hit(once.loans[i]);
    assert MarkRepaid(once.loans, id) == once.loans;
  }

  // ---------------------------------------------------------------------------
  // The new-debt form
  // ---------------------------------------------------------------------------

  datatype DebtForm = DebtForm(
    code: string, amount: string, periodicity: string, deadlineAmount: string,
    deadline: string, creditorNpi: string)

  const EmptyForm := DebtForm("", "", "", "", "", "")

  /** The request bodies the page sends. */
  datatype Request =
    | CreditorLookup(npi: string)
    | RegisterLoan(form: DebtForm)

  /** How the register-loan request ended: a response (ok or not, with its JSON `id` or `message`) or an error. */
  datatype LoanAnswer =
    | Registered(id: Option<int>)
    | Refused(message: Option<string>)
    | Unreachable

  const FillEveryField := "Veuillez remplir tous les champs"
  const GetCodeFirst := "Veuillez d'abord obtenir le code du prêt"
  const ConnectionFailed := "Erreur de connexion lors de la création de la dette"
  const CreationFailed := "Erreur lors de la création de la dette: "

  /** The guards of `handleAddDebt`: the alert it raises before sending, if any. */
  function DebtFormProblem(f: DebtForm): (r: Option<string>)
    ensures r.None? <==>
      !Blank(f.amount) && !Blank(f.periodicity) && !Blank(f.deadlineAmount) && !Blank(f.deadline)
      && !Blank(f.creditorNpi) && f.code != ""
    ensures r.Some? ==> r.value == FillEveryField || r.value == GetCodeFirst
    ensures r == Some(GetCodeFirst) ==> f.code == "" && !Blank(f.amount)
    ensures (Blank(f.amount) || Blank(f.periodicity) || Blank(f.deadlineAmount) || Blank(f.deadline)
      || Blank(f.creditorNpi)) ==> r == Some(FillEveryField)
    ensures (!Blank(f.amount) && !Blank(f.periodicity) && !Blank(f.deadlineAmount) && !Blank(f.deadline)
      && !Blank(f.creditorNpi) && f.code == "") ==> r == Some(GetCodeFirst)
  {
    if Blank(f.amount) || Blank(f.periodicity) || Blank(f.deadlineAmount) || Blank(f.deadline) || Blank(f.creditorNpi) then
      Some(FillEveryField)
    else if f.code == "" then Some(GetCodeFirst)
    else None
  }

  /** The local debt appended after a successful registration. */
  function NewEntry(f: DebtForm, c: ClientData, answerId: Option<int>, now: int, stamp: string, parseInt: string -> Option<int>): (d: Debt)
    ensures d.status == "En cours" && !d.verified && !d.solvability
    ensures d.amount == f.amount && d.creditorNpi == f.creditorNpi && d.periodicity == f.periodicity
    ensures d.id == if answerId.Some? && answerId.value != 0 then answerId.value else now
  {
    Debt(if answerId.Some? && answerId.value != 0 then answerId.value else now,
      f.creditorNpi, stamp, f.amount, f.periodicity, f.deadlineAmount, false, false, "En cours", parseInt(c.uuid))
  }

  const NoCreditor := "Nom du créancier non disponible"

  /** How the creditor lookup ended: a response with its status and JSON `customer`, or an error. */
  datatype LookupAnswer = LookedUp(status: nat, customer: Option<string>) | LookupFailed

  /** The creditor name shown for a lookup that was sent. */
  function CreditorLabel(a: LookupAnswer): (r: string)
    ensures a.LookedUp? && 200 <= a.status <= 299 && Truthy(a.customer) ==> r == a.customer.value
    ensures a.LookedUp? && !(200 <= a.status <= 299) ==> r == "Créancier introuvable (" + Decimal(a.status) + ")"
    ensures a.LookupFailed? ==> r == "Erreur de connexion"
    ensures r == NoCreditor <==> a.LookedUp? && 200 <= a.status <= 299 && (!Truthy(a.customer) || a.customer.value == NoCreditor)
  {
    match a
    case LookupFailed => "Erreur de connexion"
    case LookedUp(status, customer) =>
      if 200 <= status <= 299 then OrElse(customer, NoCreditor)
      else
        var r := "Créancier introuvable (" + Decimal(status) + ")";
        assert r[0] != NoCreditor[0];
        r
  }

  class InfosClientPage {
    var clientState: ClientData
    var newDebt: DebtForm
    var creditorName: string
    var loanCode: string
    var showForm: bool
    var alerts: seq<string>
    var sent: seq<Request>

    constructor (server: ServerClient)
      ensures clientState == InitialClient(server) && newDebt == EmptyForm
      ensures creditorName == "" && loanCode == "" && !showForm && alerts == [] && sent == []
    {
      clientState := InitialClient(server);
      newDebt, creditorName, loanCode, showForm := EmptyForm, "", "", false;
      alerts, sent := [], [];
    }

    /** `fetchCreditorName(npi)`: a blank NPI clears the name without a request. */
    method FetchCreditorName(npi: string, answer: LookupAnswer)
      modifies this
      ensures Blank(npi) ==> creditorName == "" && sent == old(sent)
      ensures !Blank(npi) ==> creditorName == CreditorLabel(answer) && sent == old(sent) + [CreditorLookup(npi)]
      ensures clientState == old(clientState) && newDebt == old(newDebt) && alerts == old(alerts)
      ensures loanCode == old(loanCode) && showForm == old(showForm)
    {
      if Blank(npi) {
        creditorName := "";
        return;
      }
      sent := sent + [CreditorLookup(npi)];
      match answer {
        case LookupFailed =>
          creditorName := "Erreur de connexion";
        case LookedUp(status, customer) =>
          if 200 <= status <= 299 {
            if Truthy(customer) {
              creditorName := customer.value;
            } else {
              creditorName := NoCreditor;
            }
          } else {
            creditorName := "Créancier introuvable (" + Decimal(status) + ")";
          }
      }
    }

    /** `handleAddDebt`. */
    method AddDebt(answer: LoanAnswer, now: int, stamp: string, parseInt: string -> Option<int>)
      modifies this
      ensures DebtFormProblem(old(newDebt)).Some? ==>
        alerts == old(alerts) + [DebtFormProblem(old(newDebt)).value] && sent == old(sent)
        && clientState == old(clientState) && newDebt == old(newDebt)
      ensures DebtFormProblem(old(newDebt)).None? ==> sent == old(sent) + [RegisterLoan(old(newDebt))]
      ensures DebtFormProblem(old(newDebt)).None? && answer.Registered? ==>
        clientState == old(clientState).(loans := old(clientState.loans)
                         + [NewEntry(old(newDebt), old(clientState), answer.id, now, stamp, parseInt)])
        && newDebt == EmptyForm && creditorName == "" && loanCode == "" && !showForm
        && alerts == old(alerts) + ["Dette créée avec succès!"]
      ensures DebtFormProblem(old(newDebt)).None? && !answer.Registered? ==>
        clientState == old(clientState) && newDebt == old(newDebt) && |alerts| == |old(alerts)| + 1
      ensures DebtFormProblem(old(newDebt)).None? && answer.Unreachable? ==>
        alerts == old(alerts) + [ConnectionFailed]
      ensures DebtFormProblem(old(newDebt)).None? && answer.Refused? ==>
        alerts == old(alerts) + [CreationFailed + OrElse(answer.message, "Erreur inconnue")]
      ensures DebtFormProblem(old(newDebt)).Some? || !answer.Registered? ==>
        creditorName == old(creditorName) && loanCode == old(loanCode) && showForm == old(showForm)
    {
      if Blank(newDebt.amount) || Blank(newDebt.periodicity) || Blank(newDebt.deadlineAmount)
        || Blank(newDebt.deadline) || Blank(newDebt.creditorNpi) {
        alerts := alerts + [FillEveryField];
        return;
      }
      if newDebt.code == "" {
        alerts := alerts + [GetCodeFirst];
        return;
      }
      sent := sent + [RegisterLoan(newDebt)];
      match answer {
        case Unreachable =>
          alerts := alerts + [ConnectionFailed];
        case Refused(message) =>
          alerts := alerts + [CreationFailed + OrElse(message, "Erreur inconnue")];
        case Registered(id) =>
          var entry := NewEntry(newDebt, clientState, id, now, stamp, parseInt);
          clientState := clientState.(loans := clientState.loans + [entry]);
          newDebt := EmptyForm;
          creditorName := "";
          loanCode := "";
          showForm := false;
          alerts := alerts + ["Dette créée avec succès!"];
      }
    }

    /** `markAsPaid(id)`. */
    method MarkAsPaid(id: int, stamp: string)
      modifies this
      ensures clientState == PaidStep(old(clientState), id, stamp)
      ensures newDebt == old(newDebt) && alerts == old(alerts) && sent == old(sent)
      ensures creditorName == old(creditorName) && loanCode == old(loanCode) && showForm == old(showForm)
    {
      var updated := MarkRepaid(clientState.loans, id);
      var found := Lists.FindFirst(clientState.loans, (d: Debt) => HasId(d, id));
      if found.None? {
        return;
      }
      var debt := clientState.loans[found.value];
      var repayment := Repayment(clientState.name, stamp, debt.amount, debt.periodicity, debt.deadlineAmount,
        stamp, true, true, "Payé");
      clientState := clientState.(loans := updated, receivables := clientState.receivables + [repayment]);
    }
  }
}
