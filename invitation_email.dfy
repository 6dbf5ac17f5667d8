/** `POST /api/send-invitation-email`: checks the request, looks up the pending invitation and the
    active `family_invitation` template, builds the invitation link, fills the template's `{key}`
    placeholders, and hands the email to the mail service. */
module InvitationEmail {
  import opened Wrappers
  import Seqs

  // ---------------------------------------------------------------------------------------------
  // Literal replace-all

  /** `pat` occurs in `s` starting at position `i`. */
  predicate OccursAt(s: string, pat: string, i: nat)
  {
    i + |pat| <= |s| && s[i..i + |pat|] == pat
  }

  predicate Contains(s: string, pat: string)
  {
    exists i: nat :: i <= |s| && OccursAt(s, pat, i)
  }

  /** `s.replace(new RegExp(pat, "g"), val)` for a pattern without special characters: scanning left
      to right, every occurrence of `pat` that does not overlap an earlier replaced one becomes `val`. */
  function ReplaceAll(s: string, pat: string, val: string): string
    requires |pat| > 0
    decreases |s|
  {
    if |s| < |pat| then s
    else if s[..|pat|] == pat then val + ReplaceAll(s[|pat|..], pat, val)
    else [s[0]] + ReplaceAll(s[1..], pat, val)
  }

  /** The pieces of `s` between the occurrences `ReplaceAll` replaces. */
  function Split(s: string, pat: string): (parts: seq<string>)
    requires |pat| > 0
    ensures |parts| >= 1
    decreases |s|
  {
    if |s| < |pat| then [s]
    else if s[..|pat|] == pat then [""] + Split(s[|pat|..], pat)
    else
      var r := Split(s[1..], pat);
      [[s[0]] + r[0]] + r[1..]
  }

  /** The pieces glued back together with `sep` between neighbours. */
  function Join(parts: seq<string>, sep: string): string
    requires |parts| >= 1
    decreases |parts|
  {
    if |parts| == 1 then parts[0] else parts[0] + sep + Join(parts[1..], sep)
  }

  lemma JoinConsChar(c: char, parts: seq<string>, sep: string)
    requires |parts| >= 1
    ensures Join([[c] + parts[0]] + parts[1..], sep) == [c] + Join(parts, sep)
  {
    var q := [[c] + parts[0]] + parts[1..];
    if |parts| > 1 {
      assert q[1..] == parts[1..];
    }
  }

  /** Replacing every occurrence is splitting at the occurrences and joining with the new value. */
  lemma {:induction false} ReplaceAllIsJoin(s: string, pat: string, val: string)
    requires |pat| > 0
    ensures ReplaceAll(s, pat, val) == Join(Split(s, pat), val)
    decreases |s|
  {
    if |s| < |pat| {
    } else if s[..|pat|] == pat {
      ReplaceAllIsJoin(s[|pat|..], pat, val);
      var parts := [""] + Split(s[|pat|..], pat);
      assert parts[1..] == Split(s[|pat|..], pat);
    } else {
      ReplaceAllIsJoin(s[1..], pat, val);
      JoinConsChar(s[0], Split(s[1..], pat), val);
    }
  }

  /** Replacing a pattern by itself changes nothing. */
  lemma {:induction false} ReplaceByItself(s: string, pat: string)
    requires |pat| > 0
    ensures ReplaceAll(s, pat, pat) == s
    decreases |s|
  {
    if |s| >= |pat| {
      if s[..|pat|] == pat {
        ReplaceByItself(s[|pat|..], pat);
        assert s == s[..|pat|] + s[|pat|..];
      } else {
        ReplaceByItself(s[1..], pat);
        assert s == [s[0]] + s[1..];
      }
    }
  }

  /** The pieces put back together with the pattern are the original string. */
  lemma SplitJoin(s: string, pat: string)
    requires |pat| > 0
    ensures Join(Split(s, pat), pat) == s
  {
    ReplaceAllIsJoin(s, pat, pat);
    ReplaceByItself(s, pat);
  }

  /** The first piece is a prefix of the string. */
  lemma {:induction false} SplitHeadIsPrefix(s: string, pat: string)
    requires |pat| > 0
    ensures Split(s, pat)[0] <= s
    decreases |s|
  {
    if |s| >= |pat| && s[..|pat|] != pat {
      SplitHeadIsPrefix(s[1..], pat);
    }
  }

  lemma ContainsShift(c: char, t: string, pat: string)
    requires Contains(t, pat)
    ensures Contains([c] + t, pat)
  {
    var i: nat :| i <= |t| && OccursAt(t, pat, i);
    assert ([c] + t)[i + 1..i + 1 + |pat|] == t[i..i + |pat|];
    assert OccursAt([c] + t, pat, i + 1);
  }

  lemma ContainsPrefix(p: string, s: string, pat: string)
    requires p <= s && Contains(p, pat)
    ensures Contains(s, pat)
  {
    var i: nat :| i <= |p| && OccursAt(p, pat, i);
    assert s[i..i + |pat|] == p[i..i + |pat|];
    assert OccursAt(s, pat, i);
  }

  /** No piece contains the pattern: every occurrence the scan meets is a split point. */
  lemma {:induction false} SplitPartsFree(s: string, pat: string)
    requires |pat| > 0
    ensures forall p :: p in Split(s, pat) ==> !Contains(p, pat)
    decreases |s|
  {
    if |s| < |pat| {
      assert Split(s, pat) == [s];
      forall i: nat | i <= |s| ensures !OccursAt(s, pat, i) {}
    } else if s[..|pat|] == pat {
      assert Split(s, pat) == [""] + Split(s[|pat|..], pat);
      SplitPartsFree(s[|pat|..], pat);
      assert !OccursAt("", pat, 0);
    } else {
      var r := Split(s[1..], pat);
      assert Split(s, pat) == [[s[0]] + r[0]] + r[1..];
      SplitPartsFree(s[1..], pat);
      SplitHeadIsPrefix(s[1..], pat);
      assert r[0] in r;
      HeadFree(s, pat, r[0]);
      forall p | p in r[1..] ensures p in r {
      }
    }
  }

  /** A piece that starts where no occurrence starts and continues with a free prefix of the rest
      is free. */
  lemma HeadFree(s: string, pat: string, r0: string)
    requires 0 < |pat| <= |s| && s[..|pat|] != pat
    requires r0 <= s[1..] && !Contains(r0, pat)
    ensures !Contains([s[0]] + r0, pat)
  {
    var h := [s[0]] + r0;
    assert h <= s;
    forall i: nat | i <= |h| ensures !OccursAt(h, pat, i) {
      if i == 0 && |pat| <= |h| {
        assert s[..|pat|] == h[..|pat|];
      } else if 0 < i && i + |pat| <= |h| {
        assert h[i..i + |pat|] == r0[i - 1..i - 1 + |pat|];
        assert !OccursAt(r0, pat, i - 1);
      }
    }
  }

  /** A string in which the pattern does not occur comes back unchanged. */
  lemma {:induction false} NoOccurrenceUnchanged(s: string, pat: string, val: string)
    requires |pat| > 0 && !Contains(s, pat)
    ensures ReplaceAll(s, pat, val) == s
    decreases |s|
  {
    if |s| >= |pat| {
      assert !OccursAt(s, pat, 0);
      assert s == [s[0]] + s[1..];
      if Contains(s[1..], pat) {
        ContainsShift(s[0], s[1..], pat);
      }
      NoOccurrenceUnchanged(s[1..], pat, val);
    }
  }

  // ---------------------------------------------------------------------------------------------
  // Template variables

  /** One entry of the `variables` object. */
  datatype Variable = Variable(key: string, value: string)

  /** `{key}` */
  function Placeholder(key: string): (p: string)
    ensures |p| == |key| + 2 && p[0] == '{'
  {
    "{" + key + "}"
  }

  /** The template with the placeholders of `vars` replaced, one variable after the other. */
  function Substituted(s: string, vars: seq<Variable>): string
    decreases |vars|
  {
    if vars == [] then s
    else
      var v := vars[|vars| - 1];
      ReplaceAll(Substituted(s, vars[..|vars| - 1]), Placeholder(v.key), v.value)
  }

  /** Optional text content is substituted only when present and non-empty. */
  function SubstitutedText(text: Option<string>, vars: seq<Variable>): Option<string>
  {
    if Truthy(text) then Some(Substituted(text.value, vars)) else text
  }

  /** A template in which none of the placeholders of `vars` occurs comes back unchanged, CSS braces
      and all. */
  lemma {:induction false} NoPlaceholderUnchanged(s: string, vars: seq<Variable>)
    requires forall v :: v in vars ==> !Contains(s, Placeholder(v.key))
    ensures Substituted(s, vars) == s
    decreases |vars|
  {
    if vars != [] {
      var last := vars[|vars| - 1];
      assert last in vars;
      NoPlaceholderUnchanged(s, vars[..|vars| - 1]);
      NoOccurrenceUnchanged(s, Placeholder(last.key), last.value);
    }
  }

  /** A template without any `{` has no placeholder occurrence and comes back unchanged. */
  lemma NoBraceUnchanged(s: string, vars: seq<Variable>)
    requires '{' !in s
    ensures Substituted(s, vars) == s
  {
    forall v | v in vars ensures !Contains(s, Placeholder(v.key)) {
      var pat := Placeholder(v.key);
      forall i: nat | i <= |s| ensures !OccursAt(s, pat, i) {
        if i + |pat| <= |s| {
          assert s[i..i + |pat|][0] == s[i];
        }
      }
    }
    NoPlaceholderUnchanged(s, vars);
  }

  /** `${baseUrl}/invite/${token}` with `baseUrl = NEXT_PUBLIC_APP_URL || "http://localhost:3000"` */
  function BaseUrl(appUrlEnv: Option<string>): (u: string)
    ensures Truthy(appUrlEnv) ==> u == appUrlEnv.value
    ensures !Truthy(appUrlEnv) ==> u == "http://localhost:3000"
  {
    if Truthy(appUrlEnv) then appUrlEnv.value else "http://localhost:3000"
  }

  function InvitationUrl(baseUrl: string, token: string): string
  {
    baseUrl + "/invite/" + token
  }

  /** The invitation link ends in the token and starts with the base address. */
  lemma InvitationUrlShape(baseUrl: string, token: string)
    ensures var u := InvitationUrl(baseUrl, token);
      u[..|baseUrl|] == baseUrl && u[|u| - |token|..] == token && |u| == |baseUrl| + 8 + |token|
  {
  }

  /** The five variables, in the order the handler walks them. */
  function Variables(familyName: string, inviterName: string, displayName: string, invitationUrl: string, baseUrl: string): (vs: seq<Variable>)
    ensures |vs| == 5
  {
    [ Variable("family_name", familyName),
      Variable("inviter_name", inviterName),
      Variable("display_name", displayName),
      Variable("invitation_url", invitationUrl),
      Variable("app_url", baseUrl) ]
  }

  /** Because the variables are applied one after the other, a value that itself holds a later
      placeholder is filled in as well: a family called `{app_url}` ends up as the base address. */
  lemma LaterPlaceholderInValueIsFilled(base: string)
    ensures Substituted("{family_name}", Variables("{app_url}", "", "", "", base)) == base
  {
    var vs := Variables("{app_url}", "", "", "", base);
    var s0, s1 := "{family_name}", "{app_url}";
    assert Substituted(s0, vs[..1]) == s1 by {
      assert Substituted(s0, vs[..0]) == s0 by {
        assert vs[..0] == [];
      }
      SubstitutedStep(s0, vs, 0);
      ReplaceByItselfValue(s0, s1);
    }
    // `{app_url}` is shorter than the next three placeholders, so none of them occurs in it.
    assert Substituted(s0, vs[..4]) == s1 by {
      ShorterThanPlaceholder(s0, vs, 1, s1);
      ShorterThanPlaceholder(s0, vs, 2, s1);
      ShorterThanPlaceholder(s0, vs, 3, s1);
    }
    assert Substituted(s0, vs[..5]) == base by {
      SubstitutedStep(s0, vs, 4);
      ReplaceByItselfValue(s1, base);
    }
    assert vs[..5] == vs;
  }

  /** A text shorter than the next placeholder is left as it is by that variable. */
  lemma ShorterThanPlaceholder(s: string, vars: seq<Variable>, k: nat, t: string)
    requires k < |vars| && Substituted(s, vars[..k]) == t && |t| < |Placeholder(vars[k].key)|
    ensures Substituted(s, vars[..k + 1]) == t
  {
    var pat := Placeholder(vars[k].key);
    forall i: nat | i <= |t| ensures !OccursAt(t, pat, i) {}
    NoOccurrenceUnchanged(t, pat, vars[k].value);
    SubstitutedStep(s, vars, k);
  }

  /** A string that is exactly the pattern becomes the value. */
  lemma ReplaceByItselfValue(pat: string, val: string)
    requires |pat| > 0
    ensures ReplaceAll(pat, pat, val) == val
  {
    assert pat[..|pat|] == pat;
    assert pat[|pat|..] == "";
  }

  // ---------------------------------------------------------------------------------------------
  // The request

  /** A `family_invitations` row with the joined family name and inviter display name, when the
      joined rows exist. */
  datatype Invitation = Invitation(
    id: string,
    status: string,
    email: string,
    displayName: string,
    token: string,
    familyName: Option<string>,
    inviterName: Option<string>)

  /** An `email_templates` row. */
  datatype Template = Template(name: string, isActive: bool, subject: string, htmlContent: string, textContent: Option<string>)

  /** What is handed to the mail service. */
  datatype OutgoingEmail = OutgoingEmail(to: string, subject: string, htmlContent: string, textContent: Option<string>)

  datatype Response =
    | MissingId                                                          // 400 "Invitation ID is required"
    | InvitationNotFound                                                 // 404
    | TemplateNotFound                                                   // 500 "Email template not found"
    | SendFailed(details: string)                                        // 500 "Failed to send email"
    | Sent(invitationUrl: string, receipt: string, email: OutgoingEmail) // 200, success: true

  function HttpStatus(r: Response): int
  {
    match r
    case MissingId => 400
    case InvitationNotFound => 404
    case TemplateNotFound => 500
    case SendFailed(_) => 500
    case Sent(_, _, _) => 200
  }

  /** `.single()`: the one row, or an error when there are none or several. */
  function Single<T>(rows: seq<T>): (r: Option<T>)
    ensures r.Some? <==> |rows| == 1
    ensures r.Some? ==> r.value == rows[0]
  {
    if |rows| == 1 then Some(rows[0]) else None
  }

  /** `id = invitationId and status = 'pending'`, with both inner joins present. */
  function PendingInvitation(id: string): Invitation -> bool
  {
    (inv: Invitation) => inv.id == id && inv.status == "pending" && inv.familyName.Some? && inv.inviterName.Some?
  }

  /** `template_name = 'family_invitation' and is_active` */
  predicate ActiveInvitationTemplate(t: Template)
  {
    t.name == "family_invitation" && t.isActive
  }

  /** The email the handler composes for one invitation and template. */
  function Compose(inv: Invitation, tpl: Template, baseUrl: string): OutgoingEmail
    requires inv.familyName.Some? && inv.inviterName.Some?
  {
    var vars := Variables(inv.familyName.value, inv.inviterName.value, inv.displayName, InvitationUrl(baseUrl, inv.token), baseUrl);
    OutgoingEmail(inv.email, Substituted(tpl.subject, vars), Substituted(tpl.htmlContent, vars), SubstitutedText(tpl.textContent, vars))
  }

  lemma SubstitutedStep(s: string, vars: seq<Variable>, i: nat)
    requires i < |vars|
    ensures Substituted(s, vars[..i + 1]) == ReplaceAll(Substituted(s, vars[..i]), Placeholder(vars[i].key), vars[i].value)
  {
    assert vars[..i + 1][..i] == vars[..i];
  }

  /** The `forEach` over the variables, reassigning subject, HTML and (when truthy) text. */
  method Substitute(tpl: Template, vars: seq<Variable>) returns (subject: string, htmlContent: string, textContent: Option<string>)
    ensures subject == Substituted(tpl.subject, vars)
    ensures htmlContent == Substituted(tpl.htmlContent, vars)
    ensures textContent == SubstitutedText(tpl.textContent, vars)
  {
    subject, htmlContent, textContent := tpl.subject, tpl.htmlContent, tpl.textContent;
    var i := 0;
    while i < |vars|
      invariant 0 <= i <= |vars|
      invariant subject == Substituted(tpl.subject, vars[..i])
      invariant htmlContent == Substituted(tpl.htmlContent, vars[..i])
      invariant Truthy(tpl.textContent) ==> textContent.Some? && textContent.value == Substituted(tpl.textContent.value, vars[..i])
      invariant !Truthy(tpl.textContent) ==> textContent == tpl.textContent
    {
      var placeholder := Placeholder(vars[i].key);
      SubstitutedStep(tpl.subject, vars, i);
      SubstitutedStep(tpl.htmlContent, vars, i);
      subject := ReplaceAll(subject, placeholder, vars[i].value);
      htmlContent := ReplaceAll(htmlContent, placeholder, vars[i].value);
      if Truthy(textContent) {
        SubstitutedStep(textContent.value, vars, i);
        SubstitutedStep(tpl.textContent.value, vars, i);
        textContent := Some(ReplaceAll(textContent.value, placeholder, vars[i].value));
      } else if Truthy(tpl.textContent) {
        // The text became empty on an earlier variable; replacing in "" gives "" again.
        SubstitutedStep(tpl.textContent.value, vars, i);
      }
      i := i + 1;
    }
    assert vars[..|vars|] == vars;
  }

  /** The pending invitation `invitationId` names, when exactly one row matches. */
  function FoundInvitation(invitationId: string, invitations: seq<Invitation>): Option<Invitation>
  {
    Single(Seqs.Filter(invitations, PendingInvitation(invitationId)))
  }

  /** The active invitation template, when exactly one row matches. */
  function FoundTemplate(templates: seq<Template>): Option<Template>
  {
    Single(Seqs.Filter(templates, ActiveInvitationTemplate))
  }

  /** The handler. `invitationQueryFails` / `templateQueryFails` stand for errors the store reports
      on the two lookups, `appUrlEnv` for `NEXT_PUBLIC_APP_URL`, `send` for the mail service. Each
      of the five responses is given exactly by the rung of the ladder that produces it. */
  method SendInvitation(invitationId: Option<string>, invitations: seq<Invitation>, invitationQueryFails: bool,
                        templates: seq<Template>, templateQueryFails: bool, appUrlEnv: Option<string>,
                        send: OutgoingEmail -> ChannelResult)
    returns (r: Response)
    ensures r.MissingId? <==> !Truthy(invitationId)
    ensures r.InvitationNotFound? <==>
      Truthy(invitationId) && (invitationQueryFails || FoundInvitation(invitationId.value, invitations).None?)
    ensures r.TemplateNotFound? <==>
      && Truthy(invitationId) && !invitationQueryFails && FoundInvitation(invitationId.value, invitations).Some?
      && (templateQueryFails || FoundTemplate(templates).None?)
    ensures r.Sent? || r.SendFailed? <==>
      && Truthy(invitationId) && !invitationQueryFails && FoundInvitation(invitationId.value, invitations).Some?
      && !templateQueryFails && FoundTemplate(templates).Some?
    ensures r.Sent? || r.SendFailed? ==>
      && var inv := FoundInvitation(invitationId.value, invitations).value;
      && inv.familyName.Some? && inv.inviterName.Some?
      && var email := Compose(inv, FoundTemplate(templates).value, BaseUrl(appUrlEnv));
      && (send(email).Delivered? ==> r == Sent(InvitationUrl(BaseUrl(appUrlEnv), inv.token), send(email).receipt, email))
      && (send(email).Rejected? ==> r == SendFailed(send(email).message))
  {
    if !Truthy(invitationId) {
      return MissingId;
    }
    var found := FoundInvitation(invitationId.value, invitations);
    if invitationQueryFails || found.None? {
      return InvitationNotFound;
    }
    var invitation := found.value;
    assert invitation in Seqs.Filter(invitations, PendingInvitation(invitationId.value));
    var template := FoundTemplate(templates);
    if templateQueryFails || template.None? {
      return TemplateNotFound;
    }
    var baseUrl := BaseUrl(appUrlEnv);
    var invitationUrl := InvitationUrl(baseUrl, invitation.token);
    var variables := Variables(invitation.familyName.value, invitation.inviterName.value, invitation.displayName, invitationUrl, baseUrl);
    var subject, htmlContent, textContent := Substitute(template.value, variables);
    var email := OutgoingEmail(invitation.email, subject, htmlContent, textContent);
    match send(email)
    case Delivered(receipt) => return Sent(invitationUrl, receipt, email);
    case Rejected(message) => return SendFailed(message);
  }
}
