/**
 * The IPO template store of utils/templateManager.js. A template records a
 * stock being subscribed across several accounts, and which accounts have
 * used it so far. Every operation first drops the completed templates whose
 * week has run out, and writes the cleaned list back.
 */
module Templates {
  import opened Common
  import opened Seqs
  import opened Money
  import opened Records
  import opened JsText

  /** How long a template stays after it is created: seven days, in milliseconds. */
  const ExpiryMillis := 7 * 24 * 60 * 60 * 1000

  /** The error returned for an unknown template id. */
  const TemplateNotFound := "模板不存在"

  /** A stored template. */
  datatype Template = Template(
    id: string, stockName: string, stockCode: string, issuePrice: Option<int>,
    createTime: int, usedAccounts: seq<string>, isCompleted: bool, expiryTime: int,
    updateTime: Option<int>, completedTime: Option<int>)

  /** The fields `createTemplate` is given; the price is still the text the page read. */
  datatype TemplateInput = TemplateInput(stockName: string, stockCode: string, issuePrice: string)

  /** The fields an update sets; `None` leaves a field as it was. */
  datatype TemplatePatch = TemplatePatch(
    stockName: Option<string>, stockCode: Option<string>, issuePrice: Option<int>,
    usedAccounts: Option<seq<string>>, isCompleted: Option<bool>, completedTime: Option<Option<int>>)

  /** `getTemplateStats`'s result. */
  datatype TemplateStats = TemplateStats(totalAccounts: int, usedAccounts: int, remainingAccounts: int, progress: int, isCompleted: bool)

  function TemplateWithId(id: string): Template -> bool {
    (t: Template) => t.id == id
  }

  /** The template `autoCleanExpiredTemplates` keeps: any incomplete one, and a completed one that has not expired. */
  function KeptAt(now: int): Template -> bool {
    (t: Template) => !t.isCompleted || t.expiryTime > now
  }

  /** `autoCleanExpiredTemplates`. */
  function AutoClean(templates: seq<Template>, now: int): (r: seq<Template>)
    ensures |r| <= |templates|
    ensures forall t :: t in r <==> t in templates && (!t.isCompleted || t.expiryTime > now)
  {
    FilterMembers(templates, KeptAt(now));
    Filter(templates, KeptAt(now))
  }

  /** Cleaning a cleaned list changes nothing. */
  lemma AutoCleanIdempotent(templates: seq<Template>, now: int)
    ensures AutoClean(AutoClean(templates, now), now) == AutoClean(templates, now)
  {
    var r := AutoClean(templates, now);
    forall i | 0 <= i < |r|
      ensures KeptAt(now)(r[i])
    {
      assert r[i] in r;
    }
    FilterAll(r, KeptAt(now));
  }

  /** The template `createTemplate` makes: the price parsed, no accounts used yet, not completed, expiring in a week. */
  function NewTemplate(input: TemplateInput, id: string, now: int): (t: Template)
    ensures t.id == id && t.stockName == input.stockName && t.stockCode == input.stockCode
    ensures t.issuePrice == ParseCents(input.issuePrice)
    ensures t.usedAccounts == [] && !t.isCompleted && t.expiryTime == t.createTime + ExpiryMillis && t.createTime == now
    ensures t.updateTime.None? && t.completedTime.None?
  {
    Template(id, input.stockName, input.stockCode, ParseCents(input.issuePrice), now, [], false, now + ExpiryMillis, None, None)
  }

  /** `{ ...template, ...updates, updateTime }`. */
  function Merged(t: Template, p: TemplatePatch, now: int): (m: Template)
    ensures m.id == t.id && m.createTime == t.createTime && m.expiryTime == t.expiryTime
    ensures m.updateTime == Some(now)
    ensures m.stockName == p.stockName.GetOr(t.stockName) && m.stockCode == p.stockCode.GetOr(t.stockCode)
    ensures p.issuePrice.Some? ==> m.issuePrice == p.issuePrice
    ensures p.issuePrice.None? ==> m.issuePrice == t.issuePrice
    ensures m.usedAccounts == p.usedAccounts.GetOr(t.usedAccounts) && m.isCompleted == p.isCompleted.GetOr(t.isCompleted)
    ensures m.completedTime == p.completedTime.GetOr(t.completedTime)
  {
    Template(t.id, p.stockName.GetOr(t.stockName), p.stockCode.GetOr(t.stockCode),
             if p.issuePrice.Some? then p.issuePrice else t.issuePrice,
             t.createTime, p.usedAccounts.GetOr(t.usedAccounts), p.isCompleted.GetOr(t.isCompleted),
             t.expiryTime, Some(now), p.completedTime.GetOr(t.completedTime))
  }

  /** A patch that sets only the used accounts. */
  function UsedPatch(used: seq<string>): TemplatePatch {
    TemplatePatch(None, None, None, Some(used), None, None)
  }

  /** The used-account list after `markTemplateUsed`: the account is appended only when it is not already there. */
  function WithAccount(used: seq<string>, accountId: string): (r: seq<string>)
    ensures accountId in r
    ensures forall a :: a in r <==> a in used || a == accountId
    ensures NoDuplicates(used) ==> NoDuplicates(r)
    ensures accountId in used ==> r == used
  {
    if accountId in used then used else used + [accountId]
  }

  /** The used-account list after `batchMarkTemplateUsed`: the deduplicated union, existing ids first. */
  function WithAccounts(used: seq<string>, accountIds: seq<string>): (r: seq<string>)
    ensures NoDuplicates(r)
    ensures forall a :: a in r <==> a in used || a in accountIds
  {
    Dedup(used + accountIds)
  }

  /** A duplicate-free used list is kept, in order, at the front of the batch union. */
  lemma WithAccountsKeepsExisting(used: seq<string>, accountIds: seq<string>)
    requires NoDuplicates(used)
    ensures |used| <= |WithAccounts(used, accountIds)|
    ensures WithAccounts(used, accountIds)[..|used|] == used
  {
    DedupPrefix(used, accountIds);
    DedupDistinct(used);
  }

  /** `getTemplateStats` for a found template and `totalAccounts` stored accounts. */
  function Stats(t: Template, totalAccounts: int): (s: TemplateStats)
    ensures s.totalAccounts == totalAccounts && s.usedAccounts == |t.usedAccounts|
    ensures s.remainingAccounts == s.totalAccounts - s.usedAccounts
    ensures totalAccounts > 0 ==> NearestTo(s.progress, |t.usedAccounts| * 100, totalAccounts)
    ensures totalAccounts <= 0 ==> s.progress == 0
    ensures s.isCompleted == t.isCompleted
  {
    var used := |t.usedAccounts|;
    TemplateStats(totalAccounts, used, totalAccounts - used,
                  if totalAccounts > 0 then RoundDiv(used * 100, totalAccounts) else 0, t.isCompleted)
  }

  /** While no more accounts are used than exist, progress is a percentage between 0 and 100. */
  lemma StatsProgressBounded(t: Template, totalAccounts: int)
    requires |t.usedAccounts| <= totalAccounts
    ensures 0 <= Stats(t, totalAccounts).progress <= 100
  {
    if totalAccounts > 0 {
      var u := |t.usedAccounts|;
      RoundDivNonNegative(u * 100, totalAccounts);
      RoundDivMonotone(u * 100, totalAccounts * 100, totalAccounts);
      assert RoundDiv(totalAccounts * 100, totalAccounts) == 100 by {
        assert totalAccounts * (2 * 100 - 1) <= 2 * (totalAccounts * 100) < totalAccounts * (2 * 100 + 1);
        var r := RoundDiv(totalAccounts * 100, totalAccounts);
        assert totalAccounts * 199 < totalAccounts * (2 * r + 1);
        assert totalAccounts * (2 * r - 1) < totalAccounts * 201;
        DistinctProducts(totalAccounts, 199, 2 * r + 1);
        DistinctProducts(totalAccounts, 2 * r - 1, 201);
      }
    }
  }

  function AccountUnused(used: seq<string>): Account -> bool {
    (a: Account) => a.id !in used
  }

  function NotWithId(id: string): Template -> bool {
    (t: Template) => t.id != id
  }

  function NotAmong(ids: seq<string>): Template -> bool {
    (t: Template) => t.id !in ids
  }

  function Incomplete(): Template -> bool {
    (t: Template) => !t.isCompleted
  }

  function CompletedOnly(): Template -> bool {
    (t: Template) => t.isCompleted
  }

  /** Does some in-progress template carry this name under a different id? */
  predicate DuplicateName(templates: seq<Template>, stockName: string, excludeId: Option<string>) {
    exists i :: 0 <= i < |templates| && !templates[i].isCompleted && templates[i].stockName == stockName &&
      excludeId != Some(templates[i].id)
  }

  /** The template manager over the stored `stockTemplates` list. */
  class TemplateManager {
    var stored: seq<Template>

    constructor(templates: seq<Template>)
      ensures stored == templates
    {
      stored := templates;
    }

    /** `getAllTemplates`: the cleaned list, which is also written back. */
    method GetAllTemplates(now: int) returns (templates: seq<Template>)
      modifies this
      ensures templates == AutoClean(old(stored), now) && stored == templates
    {
      templates := AutoClean(stored, now);
      stored := templates;
    }

    /** `getInProgressTemplates`. */
    method GetInProgressTemplates(now: int) returns (templates: seq<Template>)
      modifies this
      ensures stored == AutoClean(old(stored), now)
      ensures templates == Filter(stored, Incomplete())
    {
      var all := GetAllTemplates(now);
      templates := Filter(all, Incomplete());
    }

    /** `getCompletedTemplates`. */
    method GetCompletedTemplates(now: int) returns (templates: seq<Template>)
      modifies this
      ensures stored == AutoClean(old(stored), now)
      ensures templates == Filter(stored, CompletedOnly())
    {
      var all := GetAllTemplates(now);
      templates := Filter(all, CompletedOnly());
    }

    /** `getTemplateById`: the first live template with the id. */
    method GetTemplateById(id: string, now: int) returns (t: Option<Template>)
      modifies this
      ensures stored == AutoClean(old(stored), now)
      ensures var i := FirstIndex(stored, TemplateWithId(id));
        if i >= 0 then t == Some(stored[i]) else t.None?
    {
      var all := GetAllTemplates(now);
      var i := FirstIndex(all, TemplateWithId(id));
      t := if i >= 0 then Some(all[i]) else None;
    }

    /** `createTemplate`: the new template goes first. */
    method CreateTemplate(input: TemplateInput, id: string, now: int) returns (t: Template)
      modifies this
      ensures t == NewTemplate(input, id, now)
      ensures stored == [t] + AutoClean(old(stored), now)
    {
      var all := GetAllTemplates(now);
      t := NewTemplate(input, id, now);
      stored := [t] + all;
    }

    /** `updateTemplate`: merges the patch into the first template with the id, or fails. */
    method UpdateTemplate(id: string, patch: TemplatePatch, now: int) returns (r: Result<Template, string>)
      modifies this
      ensures var cleaned := AutoClean(old(stored), now);
        var i := FirstIndex(cleaned, TemplateWithId(id));
        if i == -1 then r == Err(TemplateNotFound) && stored == cleaned
        else r == Ok(Merged(cleaned[i], patch, now)) && stored == cleaned[i := Merged(cleaned[i], patch, now)]
    {
      var all := GetAllTemplates(now);
      var i := FirstIndex(all, TemplateWithId(id));
      if i == -1 {
        return Err(TemplateNotFound);
      }
      var merged := Merged(all[i], patch, now);
      stored := all[i := merged];
      r := Ok(merged);
    }

    /** `deleteTemplate`: every template with the id goes; the rest keep their order. */
    method DeleteTemplate(id: string, now: int)
      modifies this
      ensures stored == Filter(AutoClean(old(stored), now), NotWithId(id))
    {
      var all := GetAllTemplates(now);
      stored := Filter(all, NotWithId(id));
    }

    /** `batchDeleteTemplates`: the reported count is the number of ids asked for, however many matched. */
    method BatchDeleteTemplates(ids: seq<string>, now: int) returns (count: int)
      modifies this
      ensures stored == Filter(AutoClean(old(stored), now), NotAmong(ids))
      ensures count == |ids|
    {
      var all := GetAllTemplates(now);
      stored := Filter(all, NotAmong(ids));
      count := |ids|;
    }

    /** `markTemplateUsed`: adds the account to the first matching template's used list, unless it is there. */
    method MarkTemplateUsed(templateId: string, accountId: string, now: int) returns (r: Result<Template, string>)
      modifies this
      ensures var cleaned := AutoClean(old(stored), now);
        var i := FirstIndex(cleaned, TemplateWithId(templateId));
        if i == -1 then r == Err(TemplateNotFound) && stored == cleaned
        else
          var updated := Merged(cleaned[i], UsedPatch(WithAccount(cleaned[i].usedAccounts, accountId)), now);
          r == Ok(updated) && stored == cleaned[i := updated]
    {
      var found := GetTemplateById(templateId, now);
      if found.None? {
        return Err(TemplateNotFound);
      }
      ghost var cleaned := stored;
      AutoCleanIdempotent(old(stored), now);
      r := UpdateTemplate(templateId, UsedPatch(WithAccount(found.value.usedAccounts, accountId)), now);
      assert AutoClean(cleaned, now) == cleaned;
    }

    /** `markTemplateCompleted`. */
    method MarkTemplateCompleted(templateId: string, now: int) returns (r: Result<Template, string>)
      modifies this
      ensures var cleaned := AutoClean(old(stored), now);
        var i := FirstIndex(cleaned, TemplateWithId(templateId));
        if i == -1 then r == Err(TemplateNotFound) && stored == cleaned
        else
          var updated := cleaned[i].(isCompleted := true, completedTime := Some(now), updateTime := Some(now));
          r == Ok(updated) && stored == cleaned[i := updated]
    {
      r := UpdateTemplate(templateId, TemplatePatch(None, None, None, None, Some(true), Some(Some(now))), now);
    }

    /** `reactivateTemplate`. */
    method ReactivateTemplate(templateId: string, now: int) returns (r: Result<Template, string>)
      modifies this
      ensures var cleaned := AutoClean(old(stored), now);
        var i := FirstIndex(cleaned, TemplateWithId(templateId));
        if i == -1 then r == Err(TemplateNotFound) && stored == cleaned
        else
          var updated := cleaned[i].(isCompleted := false, completedTime := None, updateTime := Some(now));
          r == Ok(updated) && stored == cleaned[i := updated]
    {
      r := UpdateTemplate(templateId, TemplatePatch(None, None, None, None, Some(false), Some(None)), now);
    }

    /** `getTemplateStats`: `None` for an unknown template. */
    method GetTemplateStats(templateId: string, totalAccounts: int, now: int) returns (s: Option<TemplateStats>)
      modifies this
      ensures stored == AutoClean(old(stored), now)
      ensures var i := FirstIndex(stored, TemplateWithId(templateId));
        if i >= 0 then s == Some(Stats(stored[i], totalAccounts)) else s.None?
    {
      var t := GetTemplateById(templateId, now);
      s := if t.Some? then Some(Stats(t.value, totalAccounts)) else None;
    }

    /** `cleanCompletedTemplates`: only the incomplete templates stay; the count is how many went. */
    method CleanCompletedTemplates(now: int) returns (count: int)
      modifies this
      ensures stored == Filter(AutoClean(old(stored), now), Incomplete())
      ensures count == |AutoClean(old(stored), now)| - |stored|
      ensures count >= 0
    {
      var all := GetAllTemplates(now);
      stored := Filter(all, Incomplete());
      count := |all| - |stored|;
    }

    /** `isDuplicateTemplateName`. */
    method IsDuplicateTemplateName(stockName: string, excludeId: Option<string>, now: int) returns (duplicate: bool)
      modifies this
      ensures stored == AutoClean(old(stored), now)
      ensures duplicate <==> DuplicateName(stored, stockName, excludeId)
    {
      var all := GetAllTemplates(now);
      var inProgress := Filter(all, Incomplete());
      FilterMembers(all, Incomplete());
      duplicate := false;
      var i := 0;
      while i < |inProgress|
        invariant 0 <= i <= |inProgress|
        invariant duplicate <==> exists k :: 0 <= k < i && inProgress[k].stockName == stockName && excludeId != Some(inProgress[k].id)
      {
        if inProgress[i].stockName == stockName && excludeId != Some(inProgress[i].id) {
          duplicate := true;
        }
        i := i + 1;
      }
      if duplicate {
        var k :| 0 <= k < |inProgress| && inProgress[k].stockName == stockName && excludeId != Some(inProgress[k].id);
        assert inProgress[k] in all;
        var j :| 0 <= j < |all| && all[j] == inProgress[k];
        assert !all[j].isCompleted && all[j].stockName == stockName && excludeId != Some(all[j].id);
      } else {
        forall j | 0 <= j < |all| && !all[j].isCompleted
          ensures !(all[j].stockName == stockName && excludeId != Some(all[j].id))
        {
          assert all[j] in inProgress;
        }
      }
    }

    /** `getUnusedAccounts`: the accounts not yet used by the template, or none for an unknown template. */
    method GetUnusedAccounts(templateId: string, accounts: seq<Account>, now: int) returns (unused: seq<Account>)
      modifies this
      ensures stored == AutoClean(old(stored), now)
      ensures var i := FirstIndex(stored, TemplateWithId(templateId));
        if i >= 0 then unused == Filter(accounts, AccountUnused(stored[i].usedAccounts)) else unused == []
    {
      var t := GetTemplateById(templateId, now);
      unused := if t.Some? then Filter(accounts, AccountUnused(t.value.usedAccounts)) else [];
    }

    /** `batchMarkTemplateUsed`: the used list becomes the deduplicated union of the old list and the new ids. */
    method BatchMarkTemplateUsed(templateId: string, accountIds: seq<string>, now: int) returns (r: Result<Template, string>)
      modifies this
      ensures var cleaned := AutoClean(old(stored), now);
        var i := FirstIndex(cleaned, TemplateWithId(templateId));
        if i == -1 then r == Err(TemplateNotFound) && stored == cleaned
        else
          var updated := Merged(cleaned[i], UsedPatch(WithAccounts(cleaned[i].usedAccounts, accountIds)), now);
          r == Ok(updated) && stored == cleaned[i := updated]
    {
      var found := GetTemplateById(templateId, now);
      if found.None? {
        return Err(TemplateNotFound);
      }
      ghost var cleaned := stored;
      AutoCleanIdempotent(old(stored), now);
      r := UpdateTemplate(templateId, UsedPatch(WithAccounts(found.value.usedAccounts, accountIds)), now);
      assert AutoClean(cleaned, now) == cleaned;
    }
  }
}
