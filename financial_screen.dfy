/**
 * The add/edit transaction form: its state, loading a transaction for
 * editing, resetting when the screen is left, cleaning the amount the user
 * types, and the decision the save button takes.
 */
module FinancialForm {
  import opened Model

  /** Whether the form adds a new transaction or edits an existing one. */
  datatype FinancialAction = NEW | EDIT

  /** A text selection: the cursor when `start == end`. */
  datatype TextRange = TextRange(start: int, end: int)

  const ZeroRange: TextRange := TextRange(0, 0)

  function Collapsed(index: int): TextRange { TextRange(index, index) }

  predicate IsSignOrSpace(c: char) { c == '-' || c == ' ' }

  predicate IsSeparator(c: char) { c == ',' || c == '.' }

  /** The amount text with every `-` and every space removed. */
  function RemoveSignAndSpace(s: string): (r: string)
    ensures |r| <= |s|
  {
    if s == [] then []
    else
      var head := if IsSignOrSpace(s[0]) then [] else [s[0]];
      head + RemoveSignAndSpace(s[1..])
  }

  /** The removal keeps exactly the characters that are neither `-` nor a space. */
  lemma {:induction false} RemoveSignAndSpaceMembers(s: string)
    ensures forall c :: c in RemoveSignAndSpace(s) <==> c in s && !IsSignOrSpace(c)
  {
    if s != [] {
      RemoveSignAndSpaceMembers(s[1..]);
      assert s == [s[0]] + s[1..];
    }
  }

  /** Nothing is removed exactly when the text holds no sign and no space. */
  lemma {:induction false} RemoveSignAndSpaceUnchanged(s: string)
    ensures RemoveSignAndSpace(s) == s <==> forall c :: c in s ==> !IsSignOrSpace(c)
  {
    if s != [] {
      RemoveSignAndSpaceUnchanged(s[1..]);
      if IsSignOrSpace(s[0]) {
        assert |RemoveSignAndSpace(s)| < |s|;
      } else {
        assert RemoveSignAndSpace(s) == [s[0]] + RemoveSignAndSpace(s[1..]);
        assert s == [s[0]] + s[1..];
        assert forall c :: c in s <==> c == s[0] || c in s[1..];
      }
    }
  }

  /**
   * Drops leading `,` and `.` one at a time: the result is the longest suffix
   * that does not start with a separator, and everything dropped was one.
   */
  function StripLeadingSeparators(s: string): (r: string)
    ensures |r| <= |s|
  {
    if s != [] && IsSeparator(s[0]) then StripLeadingSeparators(s[1..]) else s
  }

  lemma {:induction false} StripLeadingSeparatorsSpec(s: string)
    ensures var r := StripLeadingSeparators(s);
      && r == s[|s| - |r|..]
      && (forall i :: 0 <= i < |s| - |r| ==> IsSeparator(s[i]))
      && (r == [] || !IsSeparator(r[0]))
    decreases |s|
  {
    if s != [] && IsSeparator(s[0]) {
      StripLeadingSeparatorsSpec(s[1..]);
      var r := StripLeadingSeparators(s);
      assert s[1..][|s[1..]| - |r|..] == s[|s| - |r|..];
    }
  }

  /** The amount text after both clean-up steps. */
  function CleanAmount(text: string): string
  {
    StripLeadingSeparators(RemoveSignAndSpace(text))
  }

  /**
   * Where the cursor goes: to the start when a separator was dropped, one
   * place back when a sign or a space was removed, and nowhere otherwise.
   */
  function CleanSelection(text: string, selection: TextRange): TextRange
  {
    var removed := RemoveSignAndSpace(text);
    if removed != [] && IsSeparator(removed[0]) then ZeroRange
    else if removed != text then Collapsed(selection.start - 1)
    else selection
  }

  /** The cleaned text holds no sign or space, does not start with a separator, and only holds characters of the typed text. */
  lemma CleanAmountSpec(text: string)
    ensures var r := CleanAmount(text);
      && (forall c :: c in r ==> c in text && !IsSignOrSpace(c))
      && (r == [] || !IsSeparator(r[0]))
  {
    var removed := RemoveSignAndSpace(text);
    var r := CleanAmount(text);
    RemoveSignAndSpaceMembers(text);
    StripLeadingSeparatorsSpec(removed);
    forall c | c in r ensures c in removed {
      var i :| 0 <= i < |r| && r[i] == c;
      assert r[i] == removed[|removed| - |r| + i];
    }
  }

  /** `a` can be obtained from `b` by deleting characters. */
  predicate Subsequence(a: string, b: string)
    decreases |b|
  {
    a == [] || (b != [] && ((a[0] == b[0] && Subsequence(a[1..], b[1..])) || Subsequence(a, b[1..])))
  }

  lemma {:induction false} RemoveSignAndSpaceSubsequence(s: string)
    ensures Subsequence(RemoveSignAndSpace(s), s)
  {
    if s != [] {
      RemoveSignAndSpaceSubsequence(s[1..]);
      var r := RemoveSignAndSpace(s);
      if !IsSignOrSpace(s[0]) {
        assert r[0] == s[0] && r[1..] == RemoveSignAndSpace(s[1..]);
      } else {
        assert r == [] + RemoveSignAndSpace(s[1..]) == RemoveSignAndSpace(s[1..]);
      }
    }
  }

  /** Deleting the first character of a subsequence leaves a subsequence. */
  lemma {:induction false} SubsequenceDropFirst(a: string, b: string)
    requires a != [] && Subsequence(a, b)
    ensures Subsequence(a[1..], b)
    decreases |b|
  {
    if a[0] == b[0] && Subsequence(a[1..], b[1..]) {
      if a[1..] != [] {
        assert Subsequence(a[1..], b[1..]);
      }
    } else {
      SubsequenceDropFirst(a, b[1..]);
    }
  }

  lemma {:induction false} SubsequenceSuffix(a: string, b: string, k: nat)
    requires k <= |a| && Subsequence(a, b)
    ensures Subsequence(a[k..], b)
    decreases k
  {
    if k > 0 {
      SubsequenceDropFirst(a, b);
      SubsequenceSuffix(a[1..], b, k - 1);
      assert a[1..][k - 1..] == a[k..];
    }
  }

  /** Every character the clean-up keeps stays in its original order. */
  lemma CleanAmountSubsequence(text: string)
    ensures Subsequence(CleanAmount(text), text)
  {
    var removed := RemoveSignAndSpace(text);
    var r := CleanAmount(text);
    RemoveSignAndSpaceSubsequence(text);
    StripLeadingSeparatorsSpec(removed);
    SubsequenceSuffix(removed, text, |removed| - |r|);
  }

  /** Cleaning an already clean amount changes neither the text nor the cursor. */
  lemma CleanAmountIdempotent(text: string, selection: TextRange)
    ensures CleanAmount(CleanAmount(text)) == CleanAmount(text)
    ensures CleanSelection(CleanAmount(text), selection) == selection
  {
    var r := CleanAmount(text);
    CleanAmountSpec(text);
    RemoveSignAndSpaceUnchanged(r);
    StripLeadingSeparatorsSpec(r);
    assert RemoveSignAndSpace(r) == r;
    assert StripLeadingSeparators(r) == r;
  }

  /** A typed text that is already clean keeps its cursor. */
  lemma CleanSelectionKeepsCursor(text: string, selection: TextRange)
    requires forall c :: c in text ==> !IsSignOrSpace(c)
    requires text == [] || !IsSeparator(text[0])
    ensures CleanAmount(text) == text
    ensures CleanSelection(text, selection) == selection
  {
    RemoveSignAndSpaceUnchanged(text);
  }

  /**
   * The amount field's change handler up to the parse: removes signs and
   * spaces, moves the cursor back one place if that changed the text, then
   * drops leading separators one by one, sending the cursor to the start.
   */
  method SanitiseAmount(text: string, selection: TextRange) returns (amount: string, newSelection: TextRange)
    ensures amount == CleanAmount(text)
    ensures newSelection == CleanSelection(text, selection)
  {
    var removed := RemoveSignAndSpace(text);
    ghost var moved := if removed != text then Collapsed(selection.start - 1) else selection;
    amount := removed;
    newSelection := selection;
    if amount != text {
      newSelection := Collapsed(selection.start - 1);
    }
    ghost var k := 0;
    while amount != [] && IsSeparator(amount[0])
      invariant 0 <= k <= |removed| && amount == removed[k..]
      invariant forall i :: 0 <= i < k ==> IsSeparator(removed[i])
      invariant newSelection == if k == 0 then moved else ZeroRange
      decreases |amount|
    {
      amount := amount[1..];
      newSelection := ZeroRange;
      k := k + 1;
    }
    StripAfterSeparators(removed, k);
  }

  /** Dropping a run of `k` separators that ends the strip leaves `s[k..]`. */
  lemma {:induction false} StripAfterSeparators(s: string, k: nat)
    requires k <= |s| && forall i :: 0 <= i < k ==> IsSeparator(s[i])
    requires k == |s| || !IsSeparator(s[k])
    ensures StripLeadingSeparators(s) == s[k..]
    decreases k
  {
    if k > 0 {
      StripAfterSeparators(s[1..], k - 1);
      assert s[1..][k - 1..] == s[k..];
    }
  }

  /** Kotlin's `Char.isWhitespace()`: Java's whitespace and space characters. */
  predicate IsWhitespace(c: char)
  {
    || c == '\t' || c == '\n' || c == '\U{000B}' || c == '\U{000C}' || c == '\r'
    || ('\U{001C}' <= c <= '\U{001F}')
    || c == ' ' || c == '\U{00A0}' || c == '\U{1680}'
    || ('\U{2000}' <= c <= '\U{200A}')
    || c == '\U{2028}' || c == '\U{2029}' || c == '\U{202F}' || c == '\U{205F}' || c == '\U{3000}'
  }

  /** `String.isBlank()`: empty or whitespace only. */
  predicate IsBlank(s: string)
  {
    forall i :: 0 <= i < |s| ==> IsWhitespace(s[i])
  }

  /** The message a rejected save shows. */
  datatype SaveError = TitleCannotBeEmpty | AmountCannotBeEmpty | CategoryCannotBeEmpty

  /** What pressing save does: update, insert, or show a message and stay. */
  datatype SaveOutcome = Update(updated: Financial) | Insert(inserted: Financial) | Rejected(error: SaveError)

  /** The form's fields as the save button reads them. */
  datatype Draft = Draft(
    original: Financial,
    title: string,
    amount: int,
    amountText: string,
    date: int,
    category: Category,
    financialType: FinancialType)

  /** The wallet id a new `Financial` gets when none is passed; its value is not part of this model. */
  const NewFinancialWalletId: int

  /**
   * The save button. Editing writes the form's name, amount, date and
   * category over the loaded transaction with no checks. Adding checks the
   * title, then the amount text, then the category, and reports the first
   * that fails; `newId` stands for the random id a new transaction gets and
   * `currency` for the current currency.
   */
  function Save(action: FinancialAction, d: Draft, newId: int, currency: Currency): (r: SaveOutcome)
    ensures action == EDIT ==> r.Update?
    ensures action == NEW ==> !r.Update?
    ensures action == NEW ==>
      (r.Insert? <==> !IsBlank(d.title) && !IsBlank(d.amountText) && d.category.id != DefaultCategoryId)
    ensures r == Rejected(TitleCannotBeEmpty) <==> action == NEW && IsBlank(d.title)
    ensures r == Rejected(AmountCannotBeEmpty) <==>
      action == NEW && !IsBlank(d.title) && IsBlank(d.amountText)
    ensures r == Rejected(CategoryCannotBeEmpty) <==>
      action == NEW && !IsBlank(d.title) && !IsBlank(d.amountText) && d.category.id == DefaultCategoryId
  {
    match action
    case EDIT =>
      Update(d.original.(name := d.title, amount := d.amount, dateCreated := d.date, category := d.category))
    case NEW =>
      if IsBlank(d.title) then Rejected(TitleCannotBeEmpty)
      else if IsBlank(d.amountText) then Rejected(AmountCannotBeEmpty)
      else if d.category.id == DefaultCategoryId then Rejected(CategoryCannotBeEmpty)
      else Insert(Financial(newId, d.title, d.amount, d.financialType, d.category, currency, d.date, NewFinancialWalletId))
  }

  /**
   * An edit keeps the loaded transaction's id, type, currency and wallet, and
   * takes everything else the form shows from the form.
   */
  lemma SaveEditKeepsIdentity(d: Draft, newId: int, currency: Currency)
    ensures var u := Save(EDIT, d, newId, currency).updated;
      && u.id == d.original.id && u.financialType == d.original.financialType
      && u.currency == d.original.currency && u.walletID == d.original.walletID
      && u.name == d.title && u.amount == d.amount && u.dateCreated == d.date && u.category == d.category
  {
  }

  /** A new transaction carries the form's values, the given id and the current currency. */
  lemma SaveNewCarriesForm(d: Draft, newId: int, currency: Currency)
    requires Save(NEW, d, newId, currency).Insert?
    ensures var f := Save(NEW, d, newId, currency).inserted;
      && f.id == newId && f.name == d.title && f.amount == d.amount && f.financialType == d.financialType
      && f.category == d.category && f.currency == currency && f.dateCreated == d.date
      && f.category != DefaultCategory
  {
  }

  /** Saving an edit form whose fields were loaded and left untouched writes the transaction back as it was. */
  lemma UntouchedEditSavesOriginal(f: Financial, amountText: string, t: FinancialType, newId: int, currency: Currency)
    ensures Save(EDIT, Draft(f, f.name, f.amount, amountText, f.dateCreated, f.category, t), newId, currency)
         == Update(f)
  {
  }

  /** The form's state: one field per remembered value of the screen. */
  class FinancialFormState {
    var financialNew: Financial
    var financialTitle: string
    var financialAmountValue: int
    var financialAmountText: string
    var financialAmountSelection: TextRange
    var financialDate: int
    var financialCategory: Category
    var financialType: FinancialType

    /** The initial state; `now` stands for the current time. */
    constructor (now: int)
      ensures financialNew == DefaultFinancial && financialTitle == ""
      ensures financialAmountValue == 0 && financialAmountText == "" && financialAmountSelection == ZeroRange
      ensures financialDate == now && financialCategory == DefaultCategory && financialType == INCOME
    {
      financialNew := DefaultFinancial;
      financialTitle := "";
      financialAmountValue := 0;
      financialAmountText := "";
      financialAmountSelection := ZeroRange;
      financialDate := now;
      financialCategory := DefaultCategory;
      financialType := INCOME;
    }

    function CurrentDraft(): Draft
      reads this
    {
      Draft(financialNew, financialTitle, financialAmountValue, financialAmountText,
            financialDate, financialCategory, financialType)
    }

    /**
     * Loads `financial` into the form when editing and it is not the one
     * already loaded; `formatted` is its amount as the currency formatter
     * writes it. The selected type and the cursor are left as they are.
     */
    method LoadForEdit(action: FinancialAction, financial: Financial, formatted: string)
      modifies this
      ensures action == EDIT ==> financialNew.id == financial.id
      ensures financialType == old(financialType) && financialAmountSelection == old(financialAmountSelection)
      ensures action == EDIT && financial.id != old(financialNew.id) ==>
        CurrentDraft() == Draft(financial, financial.name, financial.amount, formatted,
                                financial.dateCreated, financial.category, old(financialType))
      ensures !(action == EDIT && financial.id != old(financialNew.id)) ==>
        CurrentDraft() == old(CurrentDraft())
    {
      if action == EDIT && financial.id != financialNew.id {
        financialNew := financial;
        financialTitle := financial.name;
        financialDate := financial.dateCreated;
        financialCategory := financial.category;
        financialAmountValue := financial.amount;
        financialAmountText := formatted;
      }
    }

    /**
     * Leaving the screen: every field back to its default, the date to `now`,
     * and the amount text to `formattedZero`, the formatter's text for zero.
     */
    method Reset(now: int, formattedZero: string)
      modifies this
      ensures financialNew == DefaultFinancial && financialTitle == ""
      ensures financialAmountValue == 0 && financialAmountText == formattedZero && financialAmountSelection == ZeroRange
      ensures financialDate == now && financialCategory == DefaultCategory && financialType == INCOME
    {
      financialNew := DefaultFinancial;
      financialTitle := "";
      financialDate := now;
      financialCategory := DefaultCategory;
      financialType := INCOME;
      financialAmountValue := 0;
      financialAmountText := formattedZero;
      financialAmountSelection := ZeroRange;
    }

    /**
     * The amount field changed to `text` with `selection`: clean it, parse
     * the currency symbol followed by the cleaned text, and show the parsed
     * amount formatted again. `parse` and `format` stand for the currency
     * formatter.
     */
    method OnAmountChange(text: string, selection: TextRange, symbol: string,
                          parse: string -> int, format: int -> string)
      modifies this`financialAmountValue, this`financialAmountText, this`financialAmountSelection
      ensures financialAmountValue == parse(symbol + CleanAmount(text))
      ensures financialAmountText == format(financialAmountValue)
      ensures financialAmountSelection == CleanSelection(text, selection)
    {
      var amount, newSelection := SanitiseAmount(text, selection);
      financialAmountValue := parse(symbol + amount);
      financialAmountText := format(financialAmountValue);
      financialAmountSelection := newSelection;
    }

    /** The save button on the current fields. */
    method OnSave(action: FinancialAction, newId: int, currency: Currency) returns (outcome: SaveOutcome)
      ensures outcome == Save(action, CurrentDraft(), newId, currency)
    {
      outcome := Save(action, CurrentDraft(), newId, currency);
    }
  }
}
