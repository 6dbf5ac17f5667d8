/** The sign-in page: the invitation parameters read from the address, and the sign-up and
    sign-in handlers with their checks and where they send the user. The authentication
    service's reply is a parameter. */
module Auth {
  import opened Wrappers

  /** The invitation the page was opened with (`inviteToken`, `inviteEmail`); empty when absent. */
  datatype Invite = Invite(token: string, email: string)

  /** The `invite` and `email` query parameters are taken only when present and non-empty; the
      values already held are kept otherwise. */
  function ReadParams(held: Invite, invite: Option<string>, email: Option<string>): (r: Invite)
    ensures r.token == (if Truthy(invite) then invite.value else held.token)
    ensures r.email == (if Truthy(email) then email.value else held.email)
  {
    Invite(if Truthy(invite) then invite.value else held.token, if Truthy(email) then email.value else held.email)
  }

  const PASSWORDS_DIFFER: string := "Пароли не совпадают"
  const CHECK_MAIL: string := "Проверьте вашу почту для подтверждения регистрации"
  const SIGNED_UP: string := "Регистрация завершена! Перенаправляем к приглашению..."

  /** The error shown when an invitation is pending for another address. */
  function UseInvitedEmail(email: string): string
  {
    "Для принятия приглашения используйте email: " + email
  }

  /** How a handler ends: whether the authentication service was called, the error and message
      shown, and the page it navigates to. */
  datatype Outcome = Outcome(called: bool, error: string, message: string, redirect: Option<string>)

  /** The invitation page of a token. */
  function InvitePath(token: string): string
  {
    "/invite/" + token
  }

  /** `inviteEmail && email !== inviteEmail` */
  predicate WrongEmail(invite: Invite, email: string)
  {
    invite.email != "" && email != invite.email
  }

  /** `handleSignUp`. */
  function SignUp(invite: Invite, email: string, password: string, confirm: string, reply: StoreResult): (o: Outcome)
    ensures o.called <==> password == confirm && !WrongEmail(invite, email)
    ensures password != confirm ==> o.error == PASSWORDS_DIFFER
    ensures password == confirm && WrongEmail(invite, email) ==> o.error == UseInvitedEmail(invite.email)
    ensures o.called && reply.StoreError? ==> o.error == reply.message && o.redirect.None?
    ensures o.called && reply.StoreOk? ==> o.error == "" && o.redirect == (if invite.token != "" then Some(InvitePath(invite.token)) else None)
    ensures o.called && reply.StoreOk? ==> o.message == (if invite.token != "" then SIGNED_UP else CHECK_MAIL)
  {
    if password != confirm then Outcome(false, PASSWORDS_DIFFER, "", None)
    else if WrongEmail(invite, email) then Outcome(false, UseInvitedEmail(invite.email), "", None)
    else match reply
      case StoreError(m) => Outcome(true, m, "", None)
      case StoreOk =>
        if invite.token != "" then Outcome(true, "", SIGNED_UP, Some(InvitePath(invite.token)))
        else Outcome(true, "", CHECK_MAIL, None)
  }

  /** `handleSignIn`. */
  function SignIn(invite: Invite, email: string, reply: StoreResult): (o: Outcome)
    ensures o.called <==> !WrongEmail(invite, email)
    ensures !o.called ==> o.error == UseInvitedEmail(invite.email) && o.redirect.None?
    ensures o.called && reply.StoreError? ==> o.error == reply.message && o.redirect.None?
    ensures o.called && reply.StoreOk? ==> o.redirect == Some(if invite.token != "" then InvitePath(invite.token) else "/")
  {
    if WrongEmail(invite, email) then Outcome(false, UseInvitedEmail(invite.email), "", None)
    else match reply
      case StoreError(m) => Outcome(true, m, "", None)
      case StoreOk => Outcome(true, "", "", Some(if invite.token != "" then InvitePath(invite.token) else "/"))
  }

  /** A password mismatch is reported before the invitation address is looked at. */
  lemma MismatchFirst(invite: Invite, email: string, password: string, confirm: string, reply: StoreResult)
    requires password != confirm
    ensures SignUp(invite, email, password, confirm, reply) == Outcome(false, PASSWORDS_DIFFER, "", None)
  {
  }

  /** With an invitation address held, both handlers reach the service only with that address. */
  lemma InvitedEmailOnly(invite: Invite, email: string, password: string, confirm: string, reply: StoreResult)
    requires invite.email != ""
    ensures SignUp(invite, email, password, confirm, reply).called ==> email == invite.email
    ensures SignIn(invite, email, reply).called ==> email == invite.email
  {
  }

  /** Every navigation goes to the invitation of the held token or, after signing in without one,
      to the home page. */
  lemma RedirectTargets(invite: Invite, email: string, password: string, confirm: string, reply: StoreResult)
    ensures var up := SignUp(invite, email, password, confirm, reply);
      up.redirect.Some? ==> invite.token != "" && up.redirect.value == InvitePath(invite.token)
    ensures var inn := SignIn(invite, email, reply);
      inn.redirect.Some? ==> inn.redirect.value == (if invite.token != "" then InvitePath(invite.token) else "/")
  {
  }
}
