/**
 * The demonstration credit-score page: a client picked by name from a fixed
 * list, with local debt and repayment bookkeeping in the `client` state cell.
 */
module CreditScore {
  import opened Wrappers
  import Lists

  datatype Debt = Debt(id: int, amount: string, kind: string, status: string, createdAt: string)
  datatype Repayment = Repayment(id: int, amount: string, date: string, status: string)
  datatype Client = Client(name: string, creditScore: int, debts: seq<Debt>, repayments: seq<Repayment>)

  const Personal := "Prêt personnel"
  const Consumer := "Prêt à la consommation"

  /** The single earlier debt and repayment most of the sample clients share. */
  function Sample(name: string, score: int): Client {
    Client(name, score,
      [Debt(1, "300,000 FCFA", Consumer, "Remboursé", "2024-02-05")],
      [Repayment(1, "30,000 FCFA", "2024-03-05", "Payé")])
  }

  /** `clientsData`. */
  const ClientsData: seq<Client> := [
    Client("Kokou Amouzou", 60,
      [Debt(1, "500,000 FCFA", Personal, "En cours", "2024-01-10"),
       Debt(2, "150,000 FCFA", Consumer, "Remboursé", "2023-09-15")],
      [Repayment(1, "50,000 FCFA", "2024-02-10", "Payé"),
       Repayment(2, "70,000 FCFA", "2024-03-10", "Payé")]),
    Client("Kodjo Abalo", 70,
      [Debt(1, "300,000 FCFA", Consumer, "Remboursé", "2024-02-05")],
      [Repayment(1, "30,000 FCFA", "2024-03-05", "Payé")]),
    Sample("Afi Mensah", 40),
    Sample("Essonam Koudoh", 90),
    Sample("Ayélévi Adoko", 80),
    Sample("Ayéléevi Adoko", 90)
  ]

  predicate Named(c: Client, debtor: Option<string>) {
    debtor == Some(c.name)
  }

  /** `clientsData.find(c => c.name === debtor)`: the first client whose name is exactly the query parameter. */
  function FindClient(clients: seq<Client>, debtor: Option<string>): (r: Option<Client>)
    ensures r.None? <==> forall i :: 0 <= i < |clients| ==> !Named(clients[i], debtor)
    ensures r.Some? ==> r.value in clients && Some(r.value.name) == debtor
    ensures debtor.None? ==> r.None?
  {
    match Lists.FindFirst(clients, (c: Client) => Named(c, debtor))
    case None => None
    case Some(k) => Some(clients[k])
  }

  /** Lookups on the sample list: an exact name finds its client, a near miss or no parameter finds none. */
  lemma SampleLookups()
    ensures FindClient(ClientsData, Some("Kodjo Abalo")).Some?
    ensures FindClient(ClientsData, Some("Kodjo Abalo")).value.creditScore == 70
    ensures FindClient(ClientsData, Some("kodjo abalo")).None?
    ensures FindClient(ClientsData, None).None?
  {
    assert Named(ClientsData[1], Some("Kodjo Abalo"));
    assert !Named(ClientsData[0], Some("Kodjo Abalo"));
  }

  datatype DebtForm = DebtForm(amount: string, kind: string)

  /** `handleAddDebt`: an unvalidated "En cours" debt stamped with the clock, appended to the existing ones. */
  function AddDebtStep(c: Client, f: DebtForm, now: int, stamp: string): (r: Client)
    ensures r == c.(debts := r.debts)
    ensures |r.debts| == |c.debts| + 1 && r.debts[..|c.debts|] == c.debts
    ensures r.debts[|c.debts|] == Debt(now, f.amount, f.kind, "En cours", stamp)
  {
    var debts := c.debts + [Debt(now, f.amount, f.kind, "En cours", stamp)];
    assert debts[..|c.debts|] == c.debts;
    c.(debts := debts)
  }

  predicate HasId(d: Debt, id: int) {
    d.id == id
  }

  /** `markAsPaid(id)`: the debts with the id are repaid, and a repayment numbered after the existing ones records the first. */
  function PaidStep(c: Client, id: int, stamp: string): (r: Client)
    ensures Lists.FindFirst(c.debts, (d: Debt) => HasId(d, id)).None? ==> r == c
    ensures r.name == c.name && r.creditScore == c.creditScore && |r.debts| == |c.debts|
    ensures forall i :: 0 <= i < |c.debts| ==>
      r.debts[i] == if c.debts[i].id == id then c.debts[i].(status := "Remboursé") else c.debts[i]
    ensures Lists.FindFirst(c.debts, (d: Debt) => HasId(d, id)).Some? ==>
      var debt := c.debts[Lists.FindFirst(c.debts, (d: Debt) => HasId(d, id)).value];
      r.repayments == c.repayments + [Repayment(|c.repayments| + 1, debt.amount, stamp, "Payé")]
  {
    var hit := (d: Debt) => HasId(d, id);
    match Lists.FindFirst(c.debts, hit)
    case None =>
      assert forall i :: 0 <= i < |c.debts| ==> c.debts[i].id != id by {
        assert forall i :: 0 <= i < |c.debts| ==> !hit(c.debts[i]);
      }
      c
    case Some(k) =>
      var f := (d: Debt) => d.(status := "Remboursé");
      var debts := Lists.MapWhere(c.debts, hit, f);
      forall i | 0 <= i < |c.debts|
        ensures debts[i] == if c.debts[i].id == id then c.debts[i].(status := "Remboursé") else c.debts[i]
      {
        Lists.MapWhereAt(c.debts, hit, f, i);
      }
      c.(debts := debts,
         repayments := c.repayments + [Repayment(|c.repayments| + 1, c.debts[k].amount, stamp, "Payé")])
  }

  /** Repayments numbered 1, 2, ... in order. */
  predicate Numbered(rs: seq<Repayment>) {
    forall i :: 0 <= i < |rs| ==> rs[i].id == i + 1
  }

  /** The sample data is numbered, and `markAsPaid` keeps the numbering, so a new repayment's id is never taken. */
  lemma {:induction false} PaidKeepsNumbering(c: Client, id: int, stamp: string)
    requires Numbered(c.repayments)
    ensures Numbered(PaidStep(c, id, stamp).repayments)
    ensures forall i :: 0 <= i < |c.repayments| ==> c.repayments[i].id != |c.repayments| + 1
  {
    var r := PaidStep(c, id, stamp).repayments;
    if r != c.repayments {
      assert r == c.repayments + [r[|c.repayments|]];
      forall i | 0 <= i < |r| ensures r[i].id == i + 1 {
        if i < |c.repayments| {
          assert r[i] == c.repayments[i];
        }
      }
    }
  }

  lemma SampleIsNumbered(i: nat)
    requires i < |ClientsData|
    ensures Numbered(ClientsData[i].repayments)
  {
  }

  class CreditScorePage {
    /** `client`; None renders "Client introuvable." and offers no action. */
    var client: Option<Client>
    var newDebt: DebtForm
    var showForm: bool

    constructor (debtor: Option<string>)
      ensures client == FindClient(ClientsData, debtor) && newDebt == DebtForm("", "") && !showForm
    {
      client := FindClient(ClientsData, debtor);
      newDebt := DebtForm("", "");
      showForm := false;
    }

    method AddDebt(now: int, stamp: string)
      requires client.Some?
      modifies this
      ensures client == Some(AddDebtStep(old(client.value), old(newDebt), now, stamp))
      ensures newDebt == DebtForm("", "") && !showForm
    {
      var entry := Debt(now, newDebt.amount, newDebt.kind, "En cours", stamp);
      client := Some(client.value.(debts := client.value.debts + [entry]));
      newDebt := DebtForm("", "");
      showForm := false;
    }

    method MarkAsPaid(id: int, stamp: string)
      requires client.Some?
      modifies this
      ensures client == Some(PaidStep(old(client.value), id, stamp))
      ensures newDebt == old(newDebt) && showForm == old(showForm)
    {
      var c := client.value;
      var updated := Lists.MapWhere(c.debts, (d: Debt) => HasId(d, id), (d: Debt) => d.(status := "Remboursé"));
      var found := Lists.FindFirst(c.debts, (d: Debt) => HasId(d, id));
      if found.None? {
        return;
      }
      var repayment := Repayment(|c.repayments| + 1, c.debts[found.value].amount, stamp, "Payé");
      client := Some(c.(debts := updated, repayments := c.repayments + [repayment]));
    }
  }
}
