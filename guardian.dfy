/**
 * The route guard (src/app/services/guardian/guardian.service.ts): whether a route may be
 * entered, and where the guard sends the user otherwise. The role lookup is a parameter:
 * the role stored for the user (None where there is none) or the message of its failure.
 */
module Guardian {
  import opened Wrappers

  const LoginRoute := "/login"
  const HomeRoute := "/home"

  datatype Decision = Decision(allow: bool, redirect: Option<string>)

  function CanActivate(authenticated: bool, requiredRole: Option<string>, role: Result<Option<string>, string>): Decision {
    if !authenticated then Decision(false, Some(LoginRoute))
    else if requiredRole.None? || requiredRole.value == "" then Decision(true, None)
    else match role
      case Err(_) => Decision(false, Some(LoginRoute))
      case Ok(userRole) =>
        if userRole == Some(requiredRole.value) then Decision(true, None) else Decision(false, Some(HomeRoute))
  }

  /**
   * Entry is allowed exactly to a signed-in user when no role is required or the stored role
   * is the required one; a refusal always redirects: to /login when signed out or when the
   * lookup fails, to /home when the role differs or is missing.
   */
  lemma CanActivateTable(authenticated: bool, requiredRole: Option<string>, role: Result<Option<string>, string>)
    ensures var d := CanActivate(authenticated, requiredRole, role);
      && (d.allow <==> authenticated && (requiredRole.None? || requiredRole.value == "" || role == Ok(requiredRole)))
      && (d.allow <==> d.redirect.None?)
      && (d.redirect == Some(LoginRoute) <==> !authenticated || (requiredRole.Some? && requiredRole.value != "" && role.Err?))
      && (d.redirect == Some(HomeRoute) <==>
            authenticated && requiredRole.Some? && requiredRole.value != "" && role.Ok? && role.value != requiredRole)
  {
  }
}
