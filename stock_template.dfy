/**
 * The template list page (pages/stock-template/stock-template.js): the
 * checks made before a template is created or edited, the multi-select set
 * of template ids, and the batch-delete guard.
 */
module StockTemplatePage {
  import opened Common
  import opened Seqs
  import opened JsText
  import opened Templates

  /** The add/edit form, as text. */
  datatype TemplateForm = TemplateForm(stockName: string, stockCode: string, issuePrice: string)

  /** Why the form was refused; the toast each one shows is listed beside it. */
  datatype TemplateFormError =
    | MissingName        // 请输入股票名称
    | MissingCode        // 请输入股票代码
    | InvalidPrice       // 请输入有效的发行价格
    | DuplicateTemplate  // 该股票模板已存在 / 该股票名称已存在
    | UpdateFailed(message: string)

  /** The price check: non-empty, parsable and positive. */
  predicate PriceAccepted(price: string) {
    price != "" && ParseCents(price).Some? && ParseCents(price).value > 0
  }

  /** The checks `saveTemplate` and `saveEdit` run before the duplicate test, in their order. */
  function FieldError(form: TemplateForm): (e: Option<TemplateFormError>)
    ensures e == Some(MissingName) <==> Trim(form.stockName) == ""
    ensures e == Some(MissingCode) <==> Trim(form.stockName) != "" && Trim(form.stockCode) == ""
    ensures e == Some(InvalidPrice) <==>
      Trim(form.stockName) != "" && Trim(form.stockCode) != "" && !PriceAccepted(form.issuePrice)
    ensures e.None? <==> Trim(form.stockName) != "" && Trim(form.stockCode) != "" && PriceAccepted(form.issuePrice)
  {
    if Trim(form.stockName) == "" then Some(MissingName)
    else if Trim(form.stockCode) == "" then Some(MissingCode)
    else if !PriceAccepted(form.issuePrice) then Some(InvalidPrice)
    else None
  }

  /** What `saveTemplate` hands to `createTemplate`: trimmed name and code, the price text as typed. */
  function CreateInput(form: TemplateForm): TemplateInput {
    TemplateInput(Trim(form.stockName), Trim(form.stockCode), form.issuePrice)
  }

  /** What `saveEdit` hands to `updateTemplate`: trimmed name and code and the parsed price. */
  function EditPatch(form: TemplateForm): (p: TemplatePatch)
    ensures p.stockName == Some(Trim(form.stockName)) && p.stockCode == Some(Trim(form.stockCode))
    ensures p.issuePrice == ParseCents(form.issuePrice)
    ensures p.usedAccounts.None? && p.isCompleted.None? && p.completedTime.None?
  {
    TemplatePatch(Some(Trim(form.stockName)), Some(Trim(form.stockCode)), ParseCents(form.issuePrice), None, None, None)
  }

  /** A form that passes the field checks yields a template with a non-blank name and code and a positive price. */
  lemma AcceptedFormMakesValidTemplate(form: TemplateForm, id: string, now: int)
    requires FieldError(form).None?
    ensures var t := NewTemplate(CreateInput(form), id, now);
      t.stockName != "" && t.stockCode != "" && t.issuePrice.Some? && t.issuePrice.value > 0
    ensures Trim(NewTemplate(CreateInput(form), id, now).stockName) == NewTemplate(CreateInput(form), id, now).stockName
  {
    TrimIdempotent(form.stockName);
  }

  /** The page's own state. */
  class TemplatePage {
    var activeTab: string
    var selectedTemplates: seq<string>
    var isSelectionMode: bool

    constructor()
      ensures activeTab == "inProgress" && selectedTemplates == [] && !isSelectionMode
    {
      activeTab := "inProgress";
      selectedTemplates := [];
      isSelectionMode := false;
    }

    /** `switchTab`: a new tab, with the selection cleared and selection mode left. */
    method SwitchTab(tab: string)
      modifies this
      ensures activeTab == tab && selectedTemplates == [] && !isSelectionMode
    {
      activeTab := tab;
      isSelectionMode := false;
      selectedTemplates := [];
    }

    /** `toggleTemplateSelection`: only the clicked id changes membership. */
    method ToggleTemplateSelection(id: string)
      modifies this
      ensures selectedTemplates == Toggle(old(selectedTemplates), id)
      ensures forall other :: other != id ==> (other in selectedTemplates <==> other in old(selectedTemplates))
      ensures NoDuplicates(old(selectedTemplates)) ==>
        NoDuplicates(selectedTemplates) && (id in selectedTemplates <==> id !in old(selectedTemplates))
      ensures activeTab == old(activeTab) && isSelectionMode == old(isSelectionMode)
    {
      selectedTemplates := Toggle(selectedTemplates, id);
    }

    /**
     * `saveTemplate`: the field checks, then the duplicate test against the
     * in-progress templates, then `createTemplate`. The store is untouched
     * by a field error and only cleaned by a duplicate.
     */
    method SaveTemplate(form: TemplateForm, store: TemplateManager, id: string, now: int) returns (r: Result<Template, TemplateFormError>)
      modifies store
      ensures FieldError(form).Some? ==> r == Err(FieldError(form).value) && store.stored == old(store.stored)
      ensures FieldError(form).None? && DuplicateName(AutoClean(old(store.stored), now), Trim(form.stockName), None) ==>
        r == Err(DuplicateTemplate) && store.stored == AutoClean(old(store.stored), now)
      ensures FieldError(form).None? && !DuplicateName(AutoClean(old(store.stored), now), Trim(form.stockName), None) ==>
        r == Ok(NewTemplate(CreateInput(form), id, now)) && store.stored == [r.value] + AutoClean(old(store.stored), now)
    {
      var e := FieldError(form);
      if e.Some? {
        return Err(e.value);
      }
      var duplicate := store.IsDuplicateTemplateName(Trim(form.stockName), None, now);
      if duplicate {
        return Err(DuplicateTemplate);
      }
      AutoCleanIdempotent(old(store.stored), now);
      var t := store.CreateTemplate(CreateInput(form), id, now);
      r := Ok(t);
    }

    /**
     * `saveEdit`: the same checks, with the edited template's own id left
     * out of the duplicate test, then `updateTemplate`.
     */
    method SaveEdit(form: TemplateForm, store: TemplateManager, editingId: string, now: int) returns (r: Result<Template, TemplateFormError>)
      modifies store
      ensures FieldError(form).Some? ==> r == Err(FieldError(form).value) && store.stored == old(store.stored)
      ensures FieldError(form).None? && DuplicateName(AutoClean(old(store.stored), now), Trim(form.stockName), Some(editingId)) ==>
        r == Err(DuplicateTemplate) && store.stored == AutoClean(old(store.stored), now)
      ensures FieldError(form).None? && !DuplicateName(AutoClean(old(store.stored), now), Trim(form.stockName), Some(editingId)) ==>
        var cleaned := AutoClean(old(store.stored), now);
        var i := FirstIndex(cleaned, TemplateWithId(editingId));
        if i == -1 then r == Err(UpdateFailed(TemplateNotFound)) && store.stored == cleaned
        else r == Ok(Merged(cleaned[i], EditPatch(form), now)) && store.stored == cleaned[i := r.value]
    {
      var e := FieldError(form);
      if e.Some? {
        return Err(e.value);
      }
      var duplicate := store.IsDuplicateTemplateName(Trim(form.stockName), Some(editingId), now);
      if duplicate {
        return Err(DuplicateTemplate);
      }
      AutoCleanIdempotent(old(store.stored), now);
      var updated := store.UpdateTemplate(editingId, EditPatch(form), now);
      r := if updated.Ok? then Ok(updated.value) else Err(UpdateFailed(updated.error));
    }

    /**
     * `batchDelete`: an empty selection deletes nothing and changes nothing;
     * otherwise, once confirmed, the selected ids are deleted and the
     * selection is cleared.
     */
    method BatchDelete(store: TemplateManager, confirmed: bool, now: int) returns (count: Option<int>)
      modifies this, store
      ensures old(selectedTemplates) == [] || !confirmed ==>
        count.None? && store.stored == old(store.stored) && selectedTemplates == old(selectedTemplates) &&
        isSelectionMode == old(isSelectionMode)
      ensures old(selectedTemplates) != [] && confirmed ==>
        count == Some(|old(selectedTemplates)|) &&
        store.stored == Filter(AutoClean(old(store.stored), now), NotAmong(old(selectedTemplates))) &&
        selectedTemplates == [] && !isSelectionMode
      ensures activeTab == old(activeTab)
    {
      if |selectedTemplates| == 0 || !confirmed {
        return None;
      }
      var n := store.BatchDeleteTemplates(selectedTemplates, now);
      isSelectionMode := false;
      selectedTemplates := [];
      count := Some(n);
    }
  }
}
