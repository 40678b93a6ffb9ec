/**
 * The administrator's page of country representatives: the days left on a
 * subscription, its label and badge colour, the search box, and the
 * active/inactive switch, over the `representatives` state cell.
 *
 * Dates are whole milliseconds since the epoch; `instant` reads a date text
 * the way `new Date(text).getTime()` does. Lower-casing is an opaque
 * normaliser `lower`.
 */
module Representatives {
  import opened Wrappers
  import opened Text
  import Lists

  datatype Status = Active | Inactive

  /** A row of the representatives list, as the countries endpoint sends it. */
  datatype Representative = Representative(
    id: int, name: string, email: string, status: Status,
    lastPayment: Option<string>, subscriptionStatus: Option<string>,
    subscriptionEnd: Option<string>, daysRemaining: Option<int>)

  const DayMs := 1000 * 60 * 60 * 24

  /** `calculateDaysRemaining`: the whole days, rounded up, from now to the end; never negative. */
  function DaysRemaining(end: int, now: int): (d: nat)
    ensures end <= now ==> d == 0
    ensures end > now ==> d > 0 && (d - 1) * DayMs < end - now <= d * DayMs
  {
    if end - now <= 0 then 0 else (end - now + DayMs - 1) / DayMs
  }

  /** A row the enrichment applies to: one with a (non-empty) end date. */
  predicate HasEndDate(rep: Representative) {
    Truthy(rep.subscriptionEnd)
  }

  /** The `map` in `refreshRepresentatives`: a days count for every row with an end date, the others as they came. */
  function Enrich(reps: seq<Representative>, now: int, instant: string -> int): (r: seq<Representative>)
    ensures |r| == |reps|
    ensures forall i :: 0 <= i < |reps| && !HasEndDate(reps[i]) ==> r[i] == reps[i]
    ensures forall i :: 0 <= i < |reps| && HasEndDate(reps[i]) ==>
      r[i] == reps[i].(daysRemaining := Some(DaysRemaining(instant(reps[i].subscriptionEnd.value), now)))
  {
    var withDays := (rep: Representative) requires HasEndDate(rep) =>
      rep.(daysRemaining := Some(DaysRemaining(instant(rep.subscriptionEnd.value), now)));
    var f := (rep: Representative) => if HasEndDate(rep) then withDays(rep) else rep;
    var r := Lists.MapWhere(reps, HasEndDate, f);
    forall i | 0 <= i < |reps| ensures r[i] == if HasEndDate(reps[i]) then f(reps[i]) else reps[i] {
      Lists.MapWhereAt(reps, HasEndDate, f, i);
    }
    r
  }

  // ---------------------------------------------------------------------------
  // Label and badge
  // ---------------------------------------------------------------------------

  function Plural(n: int): string {
    if n > 1 then "s" else ""
  }

  /** "N jour(s) restant(s)". */
  function Countdown(n: nat): (r: string)
    requires n > 0
    ensures |r| > |Decimal(n)| && r[..|Decimal(n)|] == Decimal(n)
    ensures IsDigit(r[0])
    ensures r[|r| - 1] == 's' <==> n > 1
  {
    Decimal(n) + " jour" + Plural(n) + " restant" + Plural(n)
  }

  const Expired := "Expiré"
  const NotSubscribed := "Non abonné"

  /** `formatSubscriptionStatus`. */
  function Label(rep: Representative): (r: string)
    ensures rep.daysRemaining.Some? && rep.daysRemaining.value > 0 ==> r == Countdown(rep.daysRemaining.value)
    ensures rep.daysRemaining == Some(0) && HasEndDate(rep) ==> r == Expired
    ensures (rep.daysRemaining.None? || rep.daysRemaining.value < 0 || (rep.daysRemaining.value == 0 && !HasEndDate(rep))) ==>
      r == if !Truthy(rep.lastPayment) && !HasEndDate(rep) then NotSubscribed else OrElse(rep.subscriptionStatus, "Actif")
  {
    if rep.daysRemaining.Some? && rep.daysRemaining.value > 0 then Countdown(rep.daysRemaining.value)
    else if HasEndDate(rep) && rep.daysRemaining == Some(0) then Expired
    else if !Truthy(rep.lastPayment) && !HasEndDate(rep) then NotSubscribed
    else OrElse(rep.subscriptionStatus, "Actif")
  }

  datatype Colour = Green | Yellow | Red | Blue | Gray

  /** `getSubscriptionBadgeColor`. */
  function Badge(rep: Representative): (c: Colour)
    ensures c == Green <==> rep.daysRemaining.Some? && rep.daysRemaining.value > 7
    ensures c == Yellow <==> rep.daysRemaining.Some? && 0 < rep.daysRemaining.value <= 7
    ensures c == Red <==> rep.daysRemaining.Some? && rep.daysRemaining.value <= 0 && HasEndDate(rep)
    ensures c == Blue <==> (!(rep.daysRemaining.Some? && (rep.daysRemaining.value > 0 || HasEndDate(rep)))
      && (Truthy(rep.lastPayment) || HasEndDate(rep)))
    ensures c == Gray <==> (!(rep.daysRemaining.Some? && rep.daysRemaining.value > 0)
      && !HasEndDate(rep) && !Truthy(rep.lastPayment))
  {
    if rep.daysRemaining.Some? && rep.daysRemaining.value > 7 then Green
    else if rep.daysRemaining.Some? && rep.daysRemaining.value > 0 then Yellow
    else if rep.daysRemaining.Some? && HasEndDate(rep) then Red
    else if Truthy(rep.lastPayment) || HasEndDate(rep) then Blue
    else Gray
  }

  /**
   * With a days count that is not negative, and a status text other than
   * "Expiré", the label reads "Expiré" exactly when the badge is red.
   */
  lemma ExpiredExactlyWhenRed(rep: Representative)
    requires rep.daysRemaining.None? || rep.daysRemaining.value >= 0
    requires rep.subscriptionStatus != Some(Expired)
    ensures Label(rep) == Expired <==> Badge(rep) == Red
  {
    if rep.daysRemaining.Some? && rep.daysRemaining.value > 0 {
      assert Label(rep)[0] != Expired[0];
    }
  }

  /** Neither requirement can be dropped: a negative count, or a status text "Expiré", breaks the agreement. */
  lemma LabelAndBadgeCanDisagree()
    ensures var rep := Representative(1, "Togo", "t@g.tg", Active, None, None, Some("2024-01-01"), Some(-1));
      Badge(rep) == Red && Label(rep) == "Actif"
    ensures var rep := Representative(1, "Togo", "t@g.tg", Active, Some("2024-01-01"), Some(Expired), None, None);
      Badge(rep) == Blue && Label(rep) == Expired
  {
  }

  /** After the enrichment every row with an end date has a count that is not negative, so label and badge agree on it. */
  lemma EnrichedRowsAgree(reps: seq<Representative>, now: int, instant: string -> int, i: nat)
    requires i < |reps| && HasEndDate(reps[i]) && reps[i].subscriptionStatus != Some(Expired)
    ensures var rep := Enrich(reps, now, instant)[i];
      rep.daysRemaining.Some? && rep.daysRemaining.value >= 0
      && (Label(rep) == Expired <==> Badge(rep) == Red)
      && (Badge(rep) == Red <==> instant(reps[i].subscriptionEnd.value) <= now)
  {
    ExpiredExactlyWhenRed(Enrich(reps, now, instant)[i]);
  }

  // ---------------------------------------------------------------------------
  // The search box
  // ---------------------------------------------------------------------------

  predicate Matches(rep: Representative, term: string, lower: string -> string) {
    Contains(lower(rep.name), lower(term)) || Contains(lower(rep.email), lower(term))
  }

  /** `filteredRepresentatives`: the rows whose lower-cased name or email contains the lower-cased term, in order. */
  function Search(reps: seq<Representative>, term: string, lower: string -> string): (r: seq<Representative>)
    ensures forall x :: x in r <==> x in reps && Matches(x, term, lower)
    ensures Lists.Subsequence(r, reps)
  {
    var keep := (x: Representative) => Matches(x, term, lower);
    Lists.FilterIsSubsequence(reps, keep);
    forall x ensures x in Lists.Filter(reps, keep) <==> x in reps && Matches(x, term, lower) {
      Lists.FilterMembership(reps, keep, x);
    }
    Lists.Filter(reps, keep)
  }

  /** An empty search term keeps every row, when lower-casing leaves the empty text empty. */
  lemma EmptyTermKeepsAll(reps: seq<Representative>, lower: string -> string)
    requires lower("") == ""
    ensures Search(reps, "", lower) == reps
  {
    var keep := (x: Representative) => Matches(x, "", lower);
    forall i | 0 <= i < |reps| ensures keep(reps[i]) {
      assert "" <= lower(reps[i].name);
    }
    Lists.FilterKeepsAll(reps, keep);
  }

  // ---------------------------------------------------------------------------
  // The status switch
  // ---------------------------------------------------------------------------

  function Flip(s: Status): Status {
    if s.Active? then Inactive else Active
  }

  /** The PUT request sent to the status endpoint. */
  datatype StatusUpdate = StatusUpdate(id: int, status: Status)

  /** How the request ended: a response (ok or not, with its body text and status text) or a thrown error. */
  datatype Answer = Answered(ok: bool, text: string, statusText: string) | NetworkError(message: string)

  predicate Accepted(a: Answer) {
    a.Answered? && a.ok
  }

  const NotConnected := "Vous n'êtes pas connecté ou votre session a expiré."
  const ToggleFailed := "Une erreur est survenue lors de la modification du statut: "
  const StatusFailed := "Erreur lors de la mise à jour du statut: "

  /** The list, the request sent if any, and the two message cells after `toggleStatus`. */
  datatype Toggle = Toggle(reps: seq<Representative>, request: Option<StatusUpdate>, error: string, success: string)

  predicate HasId(rep: Representative, id: int) {
    rep.id == id
  }

  /** Every row with the id takes the flipped status of the first such row. */
  function SetStatus(reps: seq<Representative>, id: int, status: Status): (r: seq<Representative>)
    ensures |r| == |reps|
    ensures forall i :: 0 <= i < |reps| ==> r[i] == if reps[i].id == id then reps[i].(status := status) else reps[i]
  {
    var f := (rep: Representative) => rep.(status := status);
    var hit := (rep: Representative) => HasId(rep, id);
    forall i | 0 <= i < |reps|
      ensures Lists.MapWhere(reps, hit, f)[i] == if reps[i].id == id then reps[i].(status := status) else reps[i]
    {
      Lists.MapWhereAt(reps, hit, f, i);
    }
    Lists.MapWhere(reps, hit, f)
  }

  /** `toggleStatus(id)`, up to the reload it triggers on success. */
  function ToggleStep(reps: seq<Representative>, id: int, token: Option<string>, answer: Answer): (t: Toggle)
    ensures !Truthy(token) ==> t == Toggle(reps, None, NotConnected, "")
    ensures t.request.Some? <==> Truthy(token) && Lists.FindFirst(reps, (r: Representative) => HasId(r, id)).Some?
    ensures t.request.Some? ==>
      var first := reps[Lists.FindFirst(reps, (r: Representative) => HasId(r, id)).value];
      t.request.value == StatusUpdate(id, Flip(first.status))
      && (Accepted(answer) ==>
            t.reps == SetStatus(reps, id, Flip(first.status)) && t.error == ""
            && t.success == "Le statut du représentant pour " + first.name + " a été mis à jour avec succès!")
      && (!Accepted(answer) ==> t.reps == reps && t.success == "" && t.error != "")
      && (answer.Answered? && !answer.ok ==>
            t.error == ToggleFailed + StatusFailed + (if answer.text != "" then answer.text else answer.statusText))
      && (answer.NetworkError? ==> t.error == ToggleFailed + OrElse(Some(answer.message), "Erreur inconnue"))
    ensures t.request.None? ==> t.reps == reps && t.success == ""
  {
    if !Truthy(token) then Toggle(reps, None, NotConnected, "")
    else
      match Lists.FindFirst(reps, (r: Representative) => HasId(r, id))
      case None => Toggle(reps, None, "", "")
      case Some(k) =>
        var status := Flip(reps[k].status);
        var request := Some(StatusUpdate(id, status));
        match answer
        case NetworkError(m) => Toggle(reps, request, ToggleFailed + OrElse(Some(m), "Erreur inconnue"), "")
        case Answered(ok, text, statusText) =>
          if !ok then
            Toggle(reps, request, ToggleFailed + StatusFailed + OrElse(Some(text), statusText), "")
          else
            Toggle(SetStatus(reps, id, status), request, "",
              "Le statut du représentant pour " + reps[k].name + " a été mis à jour avec succès!")
  }

  /** An unknown id sends nothing and changes nothing. */
  lemma UnknownIdChangesNothing(reps: seq<Representative>, id: int, token: Option<string>, answer: Answer)
    requires forall i :: 0 <= i < |reps| ==> reps[i].id != id
    ensures ToggleStep(reps, id, token, answer).request.None?
    ensures ToggleStep(reps, id, token, answer).reps == reps
  {
  }

  /** With distinct ids, two accepted switches of the same row restore the list. */
  lemma {:induction false} ToggleTwiceRestores(reps: seq<Representative>, id: int, token: Option<string>, a: Answer, b: Answer)
    requires forall i, j :: 0 <= i < j < |reps| ==> reps[i].id != reps[j].id
    requires Truthy(token) && Accepted(a) && Accepted(b)
    ensures ToggleStep(ToggleStep(reps, id, token, a).reps, id, token, b).reps == reps
  {
    var hit := (r: Representative) => HasId(r, id);
    var found := Lists.FindFirst(reps, hit);
    if found.Some? {
      var k := found.value;
      var once := SetStatus(reps, id, Flip(reps[k].status));
      assert ToggleStep(reps, id, token, a).reps == once;
      assert forall i :: 0 <= i < |reps| && i != k ==> reps[i].id != id;
      var again := Lists.FindFirst(once, hit);
      assert again == Some(k) by {
        assert hit(once[k]);
        assert forall j :: 0 <= j < k ==> !hit(once[j]);
      }
      assert Flip(once[k].status) == reps[k].status;
      var twice := SetStatus(once, id, reps[k].status);
      assert ToggleStep(once, id, token, b).reps == twice;
      assert forall i :: 0 <= i < |reps| ==> twice[i] == reps[i];
    }
  }

  // ---------------------------------------------------------------------------
  // The page's state cells
  // ---------------------------------------------------------------------------

  const LoadFailed := "Impossible de charger les représentants. Veuillez réessayer."

  class RepresentativesPage {
    var representatives: seq<Representative>
    var error: string
    var success: string
    var isLoading: bool
    /** The status updates sent so far. */
    var sent: seq<StatusUpdate>

    constructor ()
      ensures representatives == [] && error == "" && success == "" && isLoading && sent == []
    {
      representatives, error, success, isLoading, sent := [], "", "", true, [];
    }

    /**
     * `refreshRepresentatives`: fetched is the decoded list, or None when there
     * was no token or the request failed.
     */
    method Refresh(fetched: Option<seq<Representative>>, now: int, instant: string -> int)
      modifies this
      ensures fetched.Some? ==> representatives == Enrich(fetched.value, now, instant) && error == ""
      ensures fetched.None? ==> representatives == old(representatives) && error == LoadFailed
      ensures !isLoading && success == old(success) && sent == old(sent)
    {
      isLoading := true;
      error := "";
      if fetched.None? {
        error := LoadFailed;
      } else {
        representatives := Enrich(fetched.value, now, instant);
      }
      isLoading := false;
    }

    method ToggleStatus(id: int, token: Option<string>, answer: Answer)
      modifies this
      ensures var t := ToggleStep(old(representatives), id, token, answer);
        representatives == t.reps && error == t.error && success == t.success
        && sent == old(sent) + (if t.request.Some? then [t.request.value] else [])
      ensures isLoading == old(isLoading)
    {
      error := "";
      success := "";
      if !Truthy(token) {
        error := NotConnected;
        return;
      }
      var found := Lists.FindFirst(representatives, (r: Representative) => HasId(r, id));
      if found.None? {
        return;
      }
      var current := representatives[found.value];
      var newStatus := Flip(current.status);
      sent := sent + [StatusUpdate(id, newStatus)];
      if answer.NetworkError? {
        error := ToggleFailed + OrElse(Some(answer.message), "Erreur inconnue");
        return;
      }
      if !answer.ok {
        error := ToggleFailed + StatusFailed + OrElse(Some(answer.text), answer.statusText);
        return;
      }
      representatives := SetStatus(representatives, id, newStatus);
      success := "Le statut du représentant pour " + current.name + " a été mis à jour avec succès!";
    }
  }
}
