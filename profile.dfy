/** The profile page: loading the profile (creating one with default settings when there is none),
    saving the name and phone, toggling one notification setting, and changing the password.
    The store's and the authentication service's replies are parameters. */
module Profile {
  import opened Wrappers

  /** One row of `profiles`, with the settings the page edits. */
  datatype UserProfile = UserProfile(
    id: string,
    email: string,
    fullName: Option<string>,
    phone: Option<string>,
    notificationsEnabled: bool,
    smsNotifications: bool,
    emailNotifications: bool,
    budgetAlerts: bool,
    transactionAlerts: bool)

  /** The notification settings the page toggles. */
  datatype Setting = NotificationsEnabled | SmsNotifications | EmailNotifications | BudgetAlerts | TransactionAlerts

  function Get(p: UserProfile, s: Setting): bool
  {
    match s
    case NotificationsEnabled => p.notificationsEnabled
    case SmsNotifications => p.smsNotifications
    case EmailNotifications => p.emailNotifications
    case BudgetAlerts => p.budgetAlerts
    case TransactionAlerts => p.transactionAlerts
  }

  /** `{ ...profile, [field]: value }` */
  function With(p: UserProfile, s: Setting, value: bool): (q: UserProfile)
    ensures Get(q, s) == value
    ensures forall other :: other != s ==> Get(q, other) == Get(p, other)
    ensures q.id == p.id && q.email == p.email && q.fullName == p.fullName && q.phone == p.phone
  {
    match s
    case NotificationsEnabled => p.(notificationsEnabled := value)
    case SmsNotifications => p.(smsNotifications := value)
    case EmailNotifications => p.(emailNotifications := value)
    case BudgetAlerts => p.(budgetAlerts := value)
    case TransactionAlerts => p.(transactionAlerts := value)
  }

  /** The state the handlers change: the loaded profile and the error and confirmation lines. */
  datatype PageState = PageState(profile: Option<UserProfile>, error: string, success: string)

  /** The code the store returns when `.single()` finds no row. */
  const NO_ROWS: string := "PGRST116"
  const LOAD_FAILED: string := "Ошибка загрузки профиля"

  /** The profile created for a user who has none: every notification on except SMS and
      transaction alerts, and the account's address (or "" when it has none). */
  function NewProfile(userId: string, email: Option<string>): (p: UserProfile)
    ensures p.id == userId && p.email == (if Truthy(email) then email.value else "")
    ensures p.fullName.None? && p.phone.None?
    ensures p.notificationsEnabled && !p.smsNotifications && p.emailNotifications
    ensures p.budgetAlerts && !p.transactionAlerts
  {
    UserProfile(userId, if Truthy(email) then email.value else "", None, None, true, false, true, true, false)
  }

  /** The signed-in account as the authentication service reports it. */
  datatype Account = Account(id: string, email: Option<string>)

  /** What `loadProfile` ends with: a failed load, the stored profile, or the row it asks the store
      to create, with the row the store gives back (if any). */
  datatype Loaded =
    | LoadFailed
    | Found(profile: UserProfile)
    | Created(sent: Option<UserProfile>, stored: Option<UserProfile>)

  /** `loadProfile`: an error other than "no rows" aborts; a row found is used; otherwise, with a
      signed-in account, a profile with the default settings is inserted, and the page holds what
      the insert returns. */
  function LoadProfile(data: Option<UserProfile>, errorCode: Option<string>, account: Option<Account>,
                       created: Option<UserProfile>): (l: Loaded)
    ensures l.LoadFailed? <==> errorCode.Some? && errorCode.value != NO_ROWS
    ensures l.Found? <==> (errorCode.None? || errorCode.value == NO_ROWS) && data.Some?
    ensures l.Found? ==> l.profile == data.value
    ensures l.Created? ==> (l.sent.Some? <==> account.Some?)
    ensures l.Created? && account.Some? ==> l.sent.value == NewProfile(account.value.id, account.value.email) && l.stored == created
    ensures l.Created? && account.None? ==> l.stored.None?
  {
    if errorCode.Some? && errorCode.value != NO_ROWS then LoadFailed
    else if data.Some? then Found(data.value)
    else match account
      case None => Created(None, None)
      case Some(a) => Created(Some(NewProfile(a.id, a.email)), created)
  }

  /** The page after loading. */
  function AfterLoad(s: PageState, l: Loaded): PageState
  {
    match l
    case LoadFailed => s.(error := LOAD_FAILED)
    case Found(p) => s.(profile := Some(p))
    case Created(_, stored) => if stored.Some? then s.(profile := stored) else s
  }

  /** "No rows" is the missing-profile case, never an error: the page then shows no load error. */
  lemma NoRowsIsNotAnError(s: PageState, data: Option<UserProfile>, account: Option<Account>, created: Option<UserProfile>)
    requires s.error == ""
    ensures AfterLoad(s, LoadProfile(data, Some(NO_ROWS), account, created)).error == ""
  {
  }

  const NOT_LOADED: string := "Профиль не загружен"
  const PROFILE_SAVED: string := "Профиль успешно обновлен!"

  /** `handleProfileUpdate`: refused without a loaded profile (no store call); otherwise the name and
      phone are saved and, once the store accepts, shown. Returns whether the store was called. */
  function UpdateProfile(s: PageState, fullName: string, phone: string, reply: StoreResult): (r: (PageState, bool))
    ensures r.1 <==> s.profile.Some?
    ensures !r.1 ==> r.0 == PageState(None, NOT_LOADED, "")
    ensures r.1 && reply.StoreOk? ==> r.0 == PageState(Some(s.profile.value.(fullName := Some(fullName), phone := Some(phone))), "", PROFILE_SAVED)
    ensures r.1 && reply.StoreError? ==> r.0 == PageState(s.profile, reply.message, "")
  {
    match s.profile
    case None => (PageState(None, NOT_LOADED, ""), false)
    case Some(p) =>
      match reply
      case StoreError(m) => (PageState(s.profile, m, ""), true)
      case StoreOk => (PageState(Some(p.(fullName := Some(fullName), phone := Some(phone))), "", PROFILE_SAVED), true)
  }

  const SETTINGS_SAVED: string := "Настройки уведомлений обновлены!"

  /** `handleNotificationUpdate(field, value)`: nothing at all without a profile; otherwise the
      setting is written and, only once the store accepts, changed in the page's copy. */
  function UpdateSetting(s: PageState, field: Setting, value: bool, reply: StoreResult): (r: (PageState, bool))
    ensures r.1 <==> s.profile.Some?
    ensures !r.1 ==> r.0 == s
    ensures r.1 && reply.StoreError? ==> r.0 == s.(error := reply.message)
    ensures r.1 && reply.StoreOk? ==> r.0 == PageState(Some(With(s.profile.value, field, value)), "", SETTINGS_SAVED)
  {
    match s.profile
    case None => (s, false)
    case Some(p) =>
      match reply
      case StoreError(m) => (s.(error := m), true)
      case StoreOk => (PageState(Some(With(p, field, value)), "", SETTINGS_SAVED), true)
  }

  /** A toggle changes the named setting and nothing else in the profile, and only after the store
      accepted it. */
  lemma ToggleChangesOnlyThatSetting(s: PageState, field: Setting, value: bool, reply: StoreResult, other: Setting)
    requires s.profile.Some?
    ensures var n := UpdateSetting(s, field, value, reply).0;
      && n.profile.Some? && n.profile.value.id == s.profile.value.id
      && Get(n.profile.value, field) == (if reply.StoreOk? then value else Get(s.profile.value, field))
      && (other != field ==> Get(n.profile.value, other) == Get(s.profile.value, other))
  {
  }

  const PASSWORDS_DIFFER: string := "Пароли не совпадают"
  const TOO_SHORT: string := "Пароль должен содержать минимум 6 символов"
  const PASSWORD_CHANGED: string := "Пароль успешно изменен!"
  const MIN_PASSWORD_LENGTH: nat := 6

  /** How `handlePasswordChange` ends: whether the service was asked to change the password, and
      the error and confirmation shown. */
  datatype PasswordOutcome = PasswordOutcome(called: bool, error: string, success: string)

  /** `handlePasswordChange`: a mismatch is reported first, then a password shorter than six
      characters; only then is the service called. */
  function ChangePassword(newPassword: string, confirm: string, reply: StoreResult): (o: PasswordOutcome)
    ensures o.called <==> newPassword == confirm && |newPassword| >= MIN_PASSWORD_LENGTH
    ensures newPassword != confirm ==> o.error == PASSWORDS_DIFFER
    ensures newPassword == confirm && |newPassword| < MIN_PASSWORD_LENGTH ==> o.error == TOO_SHORT
    ensures o.called ==> o.error == (if reply.StoreError? then reply.message else "")
    ensures o.success != "" <==> o.called && reply.StoreOk?
  {
    if newPassword != confirm then PasswordOutcome(false, PASSWORDS_DIFFER, "")
    else if |newPassword| < MIN_PASSWORD_LENGTH then PasswordOutcome(false, TOO_SHORT, "")
    else match reply
      case StoreError(m) => PasswordOutcome(true, m, "")
      case StoreOk => PasswordOutcome(true, "", PASSWORD_CHANGED)
  }

  /** A mismatch wins over a short password: two different short passwords report the mismatch. */
  lemma MismatchBeforeLength(newPassword: string, confirm: string, reply: StoreResult)
    requires newPassword != confirm && |newPassword| < MIN_PASSWORD_LENGTH
    ensures ChangePassword(newPassword, confirm, reply).error == PASSWORDS_DIFFER
  {
  }
}
