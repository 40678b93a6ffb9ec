/**
 * The role permission predicates of the backend: each names one role string
 * and holds exactly for users carrying it; a separate predicate tests whether
 * the user has replaced the generated password.
 */
module Permissions {
  import opened Wrappers

  /** The roles a user may be created with (the model's `ROLE_CHOICES`). */
  const Roles: set<string> := {"admin", "conseiller", "huissier", "country", "front office", "support"}

  /** The fields of `request.user` the predicates read. */
  datatype Caller = Caller(role: string, passwordChanged: bool)

  /** The permission classes guarding the views. */
  datatype Permission = IsScoreAdmin | IsCountry | IsFrontOffice | IsHuissier | IsFinancial | IsPasswordChanged

  /** The role string a role permission compares against. */
  function RoleOf(p: Permission): (r: string)
    requires !p.IsPasswordChanged?
    ensures r in Roles && r != "support"
  {
    match p
    case IsScoreAdmin => "admin"
    case IsCountry => "country"
    case IsFrontOffice => "front office"
    case IsHuissier => "huissier"
    case IsFinancial => "conseiller"
  }

  /** `has_permission(request, view)`. */
  predicate HasPermission(p: Permission, u: Caller) {
    if p.IsPasswordChanged? then u.passwordChanged else u.role == RoleOf(p)
  }

  /** The message DRF returns when the predicate refuses. */
  function Message(p: Permission): (m: string)
    ensures m != ""
  {
    match p
    case IsScoreAdmin => "Only admin allowed"
    case IsCountry => "Only country representative allowed"
    case IsFrontOffice => "Only front office allowed"
    case IsHuissier => "Only huissier allowed"
    case IsFinancial => "Only financial allowed"
    case IsPasswordChanged => "Need to update password firstly"
  }

  /** Each role predicate holds exactly when the role equals its string. */
  lemma RolePredicates(u: Caller)
    ensures HasPermission(IsScoreAdmin, u) <==> u.role == "admin"
    ensures HasPermission(IsCountry, u) <==> u.role == "country"
    ensures HasPermission(IsFrontOffice, u) <==> u.role == "front office"
    ensures HasPermission(IsHuissier, u) <==> u.role == "huissier"
    ensures HasPermission(IsFinancial, u) <==> u.role == "conseiller"
    ensures HasPermission(IsPasswordChanged, u) <==> u.passwordChanged
  {
  }

  /** Distinct role permissions never both hold: they compare against distinct strings. */
  lemma RolesAreExclusive(p: Permission, q: Permission, u: Caller)
    requires !p.IsPasswordChanged? && !q.IsPasswordChanged? && p != q
    ensures !(HasPermission(p, u) && HasPermission(q, u))
  {
  }

  /** A "support" user passes no role predicate. */
  lemma SupportPassesNoRole(u: Caller, p: Permission)
    requires u.role == "support" && !p.IsPasswordChanged?
    ensures !HasPermission(p, u)
  {
  }

  /** The first of a view's permission classes, in the order listed, that refuses the caller. */
  function FirstDenial(perms: seq<Permission>, u: Caller): (r: Option<Permission>)
    ensures r.None? <==> forall i :: 0 <= i < |perms| ==> HasPermission(perms[i], u)
    ensures r.Some? ==> r.value in perms && !HasPermission(r.value, u)
  {
    if perms == [] then None
    else if !HasPermission(perms[0], u) then Some(perms[0])
    else FirstDenial(perms[1..], u)
  }
}
