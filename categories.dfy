/** The categories page: saving a category (an update when one is being edited, an insert owned
    by the user otherwise), the default set offered to a user without categories, and the split
    of the list into income and expense categories. */
module Categories {
  import opened Wrappers
  import Seqs
  import opened Ledger

  /** The write `handleSubmit` sends to the `categories` table. */
  datatype Write =
    | UpdateCategory(id: string, name: string, kind: TxType)
    | InsertCategory(userId: string, name: string, kind: TxType)

  /** How `handleSubmit` ends: refused before any store call, or after sending `write`, with the
      store's reply. */
  datatype Saved = MissingFields | NotSignedIn | Written(write: Write, reply: StoreResult)

  const FILL_ALL_FIELDS: string := "Пожалуйста, заполните все поля"
  const NOT_SIGNED_IN: string := "Пользователь не авторизован"
  const UPDATED: string := "Категория успешно обновлена!"
  const CREATED: string := "Категория успешно создана!"

  /** `handleSubmit`: an empty name or a missing type is refused first, then a missing user; the
      category being edited is updated by id, and without one a new category is inserted for
      the user. `kind` is `None` when the form has no type. */
  function HandleSubmit(name: string, kind: Option<TxType>, user: Option<string>, editing: Option<Category>,
                        reply: StoreResult): (o: Saved)
    ensures o.MissingFields? <==> name == "" || kind.None?
    ensures o.NotSignedIn? <==> name != "" && kind.Some? && user.None?
    ensures o.Written? <==> name != "" && kind.Some? && user.Some?
    ensures o.Written? ==> o.reply == reply && o.write.name == name && o.write.kind == kind.value
    ensures o.Written? ==> (o.write.UpdateCategory? <==> editing.Some?)
    ensures o.Written? && editing.Some? ==> o.write.id == editing.value.id
    ensures o.Written? && editing.None? ==> o.write.userId == user.value
  {
    if name == "" || kind.None? then MissingFields
    else if user.None? then NotSignedIn
    else match editing
      case Some(c) => Written(UpdateCategory(c.id, name, kind.value), reply)
      case None => Written(InsertCategory(user.value, name, kind.value), reply)
  }

  /** The error line after a save (empty when none). */
  function ErrorText(o: Saved): string
  {
    match o
    case MissingFields => FILL_ALL_FIELDS
    case NotSignedIn => NOT_SIGNED_IN
    case Written(_, StoreError(m)) => m
    case Written(_, StoreOk) => ""
  }

  /** The confirmation after a save (empty when none). */
  function SuccessText(o: Saved): (s: string)
    ensures s != "" <==> o.Written? && o.reply.StoreOk?
  {
    match o
    case Written(UpdateCategory(_, _, _), StoreOk) => UPDATED
    case Written(InsertCategory(_, _, _), StoreOk) => CREATED
    case _ => ""
  }

  /** A save shows an error or a confirmation, never both and never neither (a store error with an
      empty message aside). */
  lemma ErrorOrSuccess(o: Saved)
    requires o.Written? && o.reply.StoreError? ==> o.reply.message != ""
    ensures (ErrorText(o) == "") != (SuccessText(o) == "")
  {
  }

  /** One category of the default set, before it is tagged with the user. */
  datatype Preset = Preset(name: string, kind: TxType)

  /** The default set: seven expense categories, then four income categories. */
  const PRESETS: seq<Preset> := [
    Preset("Продукты", Expense), Preset("Транспорт", Expense), Preset("Жильё", Expense),
    Preset("Развлечения", Expense), Preset("Здоровье", Expense), Preset("Одежда", Expense),
    Preset("Образование", Expense),
    Preset("Зарплата", Income), Preset("Фриланс", Income), Preset("Инвестиции", Income),
    Preset("Подарки", Income)]

  /** `createDefaultCategories`: nothing without a user; otherwise one insert of the whole default
      set, each category owned by the user. */
  function DefaultsFor(user: Option<string>): (w: Option<seq<Write>>)
    ensures w.None? <==> user.None?
    ensures w.Some? ==> && |w.value| == 11
                        && (forall i :: 0 <= i < 11 ==> w.value[i] == InsertCategory(user.value, PRESETS[i].name, PRESETS[i].kind))
                        && (forall i :: 0 <= i < 7 ==> w.value[i].kind == Expense)
                        && (forall i :: 7 <= i < 11 ==> w.value[i].kind == Income)
  {
    match user
    case None => None
    case Some(id) => Some(seq(|PRESETS|, i requires 0 <= i < |PRESETS| => InsertCategory(id, PRESETS[i].name, PRESETS[i].kind)))
  }

  /** No two default categories share a name. */
  lemma PresetNamesDistinct()
    ensures forall i, j :: 0 <= i < j < |PRESETS| ==> PRESETS[i].name != PRESETS[j].name
  {
  }

  /** The "add defaults" button is shown only while the user has no categories. */
  predicate OffersDefaults(categories: seq<Category>)
  {
    |categories| == 0
  }

  /** The button is shown exactly when both the income and the expense list on the page are empty. */
  lemma OffersDefaultsWhenBothListsEmpty(categories: seq<Category>)
    ensures OffersDefaults(categories) <==> CategoriesOf(categories, Income) == [] && CategoriesOf(categories, Expense) == []
  {
    if CategoriesOf(categories, Income) == [] && CategoriesOf(categories, Expense) == [] {
      PartitionByType(categories);
      assert |multiset(categories)| == 0;
    }
  }

  /** `incomeCategories` and `expenseCategories` split the list: every category lands in exactly
      one of them, as often as it occurs in the list. */
  lemma {:induction false} PartitionByType(categories: seq<Category>)
    ensures multiset(CategoriesOf(categories, Income)) + multiset(CategoriesOf(categories, Expense)) == multiset(categories)
    decreases |categories|
  {
    if categories != [] {
      var c, rest := categories[0], categories[1..];
      PartitionByType(rest);
      assert categories == [c] + rest;
      assert multiset(categories) == multiset{c} + multiset(rest);
      if c.kind == Income {
        assert CategoriesOf(categories, Income) == [c] + CategoriesOf(rest, Income);
        assert CategoriesOf(categories, Expense) == CategoriesOf(rest, Expense);
      } else {
        assert CategoriesOf(categories, Income) == CategoriesOf(rest, Income);
        assert CategoriesOf(categories, Expense) == [c] + CategoriesOf(rest, Expense);
      }
    }
  }

  /** Each half keeps the loaded order: the halves of a concatenation are the concatenated halves. */
  lemma PartitionKeepsOrder(a: seq<Category>, b: seq<Category>, k: TxType)
    ensures CategoriesOf(a + b, k) == CategoriesOf(a, k) + CategoriesOf(b, k)
  {
    Seqs.FilterAppend(a, b, CategoryKindIs(k));
  }
}
