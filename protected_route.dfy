/** The route guard (src/route/ProtectedRoute.jsx): render the wrapped page or
    redirect, from the stored token and role and an optional required role. */
module ProtectedRoute {
  import opened JsValues
  import opened Session

  datatype Decision = RenderChildren | Redirect(to: string)

  /** The guard's decision. Without a (non-empty) token it sends the visitor
      to '/'; with a required role that the stored role does not equal, to
      the stored role's home ('/admin', '/vet', or '/'); otherwise it renders.
      It never renders without a token. */
  function Guard(m: Storage, allowedRole: Option<string>): (d: Decision)
    ensures d == RenderChildren ==> TruthyText(GetItem(m, AuthTokenKey))
  {
    var userType := GetItem(m, UserTypeKey);
    if !TruthyText(GetItem(m, AuthTokenKey)) then Redirect("/")
    else if TruthyText(allowedRole) && userType != allowedRole then
      (if userType == Some("admin") then Redirect("/admin")
       else if userType == Some("vet") then Redirect("/vet")
       else Redirect("/"))
    else RenderChildren
  }

  /** The guard renders exactly when there is a token and either no role is
      required or the stored role is the required one. */
  lemma GuardRendersIff(m: Storage, allowedRole: Option<string>)
    ensures Guard(m, allowedRole) == RenderChildren <==>
      TruthyText(GetItem(m, AuthTokenKey))
      && (!TruthyText(allowedRole) || GetItem(m, UserTypeKey) == allowedRole)
  {
  }

  /** Where the guard redirects: '/' without a token whatever the role;
      with a token and the wrong role, '/admin' for an admin, '/vet' for a
      'vet' (a role nothing else in the application knows) and '/' for
      anyone else, a technician included. */
  lemma GuardRedirects(m: Storage, allowedRole: Option<string>)
    ensures !TruthyText(GetItem(m, AuthTokenKey)) ==> Guard(m, allowedRole) == Redirect("/")
    ensures (TruthyText(GetItem(m, AuthTokenKey)) && TruthyText(allowedRole)
             && GetItem(m, UserTypeKey) != allowedRole) ==>
      Guard(m, allowedRole) == Redirect(
        if GetItem(m, UserTypeKey) == Some("admin") then "/admin"
        else if GetItem(m, UserTypeKey) == Some("vet") then "/vet"
        else "/")
    ensures Guard(m, allowedRole).Redirect? ==> Guard(m, allowedRole).to in {"/", "/admin", "/vet"}
  {
  }
}
