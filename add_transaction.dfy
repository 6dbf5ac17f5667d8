/** The add-transaction form: its validation, the row it inserts, the notification text it
    builds after a successful insert, and the category choices offered for the selected type. */
module AddTransaction {
  import opened Wrappers
  import opened Ledger
  import Text

  /** The submitted form. `amount` is `parseFloat` of the amount field: `None` stands for `NaN`. */
  datatype Form = Form(amount: Option<real>, category: string, description: string, date: string)

  /** The row written to `transactions`; `date` is the form's date text. */
  datatype NewRow = NewRow(userId: string, amount: real, kind: TxType, category: string, description: string, date: string)

  /** How `handleSubmit` ends. */
  datatype Submitted =
    | MissingFields
    | NotSignedIn
    | InsertFailed(row: NewRow, message: string)
    | Added(row: NewRow, notification: string)

  const FILL_ALL_FIELDS: string := "Пожалуйста, заполните все поля"
  const NOT_SIGNED_IN: string := "Пользователь не авторизован"

  /** `!(!amount || !category || !description || !date)`: an amount that is a number other than
      zero (negative amounts pass) and three non-empty fields. */
  predicate Complete(form: Form)
  {
    form.amount.Some? && form.amount.value != 0.0 && form.category != "" && form.description != "" && form.date != ""
  }

  /** The indentation of the template literal's continuation lines. */
  const INDENT: string := "                          "

  /** The Telegram notification text: a heading, then the amount (as `${amount}` renders it), the
      type label, the category, the description and the date, one per line. */
  function Notification(amountText: string, kind: TxType, category: string, description: string, date: string): string
  {
    Text.Concat(NotificationPieces(amountText, kind, category, description, date))
  }

  function NotificationPieces(amountText: string, kind: TxType, category: string, description: string, date: string): seq<string>
  {
    ["Новая транзакция добавлена - \n" + INDENT + "Сумма: ", amountText,
     " ₽\n" + INDENT + "Тип: ", TypeLabel(kind),
     "\n" + INDENT + "Категория: ", category,
     "\n" + INDENT + "Описание: ", description,
     "\n" + INDENT + "Дата: ", date,
     "\n                        "]
  }

  /** The notification names the amount, the type, the category, the description and the date. */
  lemma NotificationMentions(amountText: string, kind: TxType, category: string, description: string, date: string)
    ensures var m := Notification(amountText, kind, category, description, date);
      && Text.Contains(m, amountText) && Text.Contains(m, TypeLabel(kind)) && Text.Contains(m, category)
      && Text.Contains(m, description) && Text.Contains(m, date)
  {
    var pieces := NotificationPieces(amountText, kind, category, description, date);
    Text.ConcatContains(pieces, 1);
    Text.ConcatContains(pieces, 3);
    Text.ConcatContains(pieces, 5);
    Text.ConcatContains(pieces, 7);
    Text.ConcatContains(pieces, 9);
  }

  /** `handleSubmit`: validation first, then the signed-in user, then the insert of a row of the
      type selected in the toggle; the notification is built only after the insert succeeds. The
      replies of the store are parameters, and so is the rendering of the amount. */
  function HandleSubmit(form: Form, selected: TxType, user: Option<string>, insert: StoreResult,
                        showAmount: real -> string): (o: Submitted)
    ensures o.MissingFields? <==> !Complete(form)
    ensures o.NotSignedIn? <==> Complete(form) && user.None?
    ensures o.Added? <==> Complete(form) && user.Some? && insert.StoreOk?
    ensures o.InsertFailed? <==> Complete(form) && user.Some? && insert.StoreError?
    ensures (o.Added? || o.InsertFailed?) ==>
              && o.row.userId == user.value && o.row.kind == selected
              && o.row.amount == form.amount.value && o.row.category == form.category
              && o.row.description == form.description && o.row.date == form.date
    ensures o.InsertFailed? ==> o.message == insert.message
    ensures o.Added? ==> o.notification == Notification(showAmount(form.amount.value), selected, form.category,
                                                        form.description, form.date)
  {
    if !Complete(form) then MissingFields
    else if user.None? then NotSignedIn
    else
      var row := NewRow(user.value, form.amount.value, selected, form.category, form.description, form.date);
      match insert
      case StoreError(m) => InsertFailed(row, m)
      case StoreOk => Added(row, Notification(showAmount(row.amount), selected, row.category, row.description, row.date))
  }

  /** The error line the page shows after a submission (empty when none). */
  function ErrorText(o: Submitted): string
  {
    match o
    case MissingFields => FILL_ALL_FIELDS
    case NotSignedIn => NOT_SIGNED_IN
    case InsertFailed(_, m) => m
    case Added(_, _) => ""
  }

  /** An amount of zero or one that is not a number is refused whatever the other fields hold,
      and nothing is written then. */
  lemma ZeroOrNaNRefused(form: Form, selected: TxType, user: Option<string>, insert: StoreResult,
                         showAmount: real -> string)
    requires form.amount == None || form.amount == Some(0.0)
    ensures HandleSubmit(form, selected, user, insert, showAmount) == MissingFields
    ensures ErrorText(HandleSubmit(form, selected, user, insert, showAmount)) == FILL_ALL_FIELDS
  {
  }

  /** `filteredCategories`: the choices for the selected type, in loaded order; switching the
      toggle shows the other half, and no category appears under both. */
  lemma ChoicesFollowToggle(categories: seq<Category>, c: Category)
    ensures c in CategoriesOf(categories, Income) ==> c !in CategoriesOf(categories, Expense)
    ensures c in categories ==> c in CategoriesOf(categories, c.kind)
  {
  }
}
