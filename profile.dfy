/**
 * The profile page (pages/profile/profile.js): the account list, the
 * current account and the dialog that creates or renames an account. Names
 * stay unique and at most one account is the default.
 */
module Profile {
  import opened Common
  import opened Seqs
  import opened JsText
  import opened Records

  /**
   * `editingAccount`: the dialog's state. `{}` is `Editing(None, None,
   * false)`; a new account has no id.
   */
  datatype Editing = Editing(id: Option<string>, name: Option<string>, setAsDefault: bool)

  /** The empty dialog state `{}`. */
  const NoEditing := Editing(None, None, false)

  /** Why a save was refused. */
  datatype SaveError = NameMissing | NameTaken

  /** `'account_' + new Date().getTime()`. */
  function NewAccountId(now: int): string {
    "account_" + IntToString(now)
  }

  /** `if (editingAccount.id)`: an id that is present and not empty. */
  predicate IsEdit(e: Editing) {
    e.id.Some? && e.id.value != ""
  }

  /** `acc.name === name && acc.id !== editingAccount.id`; a missing id differs from every id. */
  function ClashesWith(name: string, id: Option<string>): Account -> bool {
    (a: Account) => a.name == name && (id.None? || a.id != id.value)
  }

  /** `accounts[index] = {...accounts[index], name}` at the first account with the id, if any. */
  function Renamed(accounts: seq<Account>, id: string, name: string): seq<Account> {
    var i := FirstIndex(accounts, AccountWithId(id));
    if i == -1 then accounts else accounts[i := accounts[i].(name := name)]
  }

  /** `acc.isDefault = false`. */
  function Cleared(a: Account): Account {
    a.(isDefault := false)
  }

  /** Appends the new account; with `setAsDefault`, every other account stops being the default first. */
  function WithNew(accounts: seq<Account>, name: string, setAsDefault: bool, now: int): seq<Account> {
    if setAsDefault then Map(accounts, Cleared) + [Account(NewAccountId(now), name, true, now)]
    else accounts + [Account(NewAccountId(now), name, false, now)]
  }

  /** The account list `onSaveAccount` stores, or why it refuses to. */
  function Saved(accounts: seq<Account>, e: Editing, now: int): Result<seq<Account>, SaveError> {
    if e.name.None? || Trim(e.name.value) == "" then Err(NameMissing)
    else
      var name := Trim(e.name.value);
      if FirstIndex(accounts, ClashesWith(name, e.id)) != -1 then Err(NameTaken)
      else if IsEdit(e) then Ok(Renamed(accounts, e.id.value, name))
      else Ok(WithNew(accounts, name, e.setAsDefault, now))
  }

  /** No two accounts share a name. */
  predicate UniqueNames(accounts: seq<Account>) {
    forall i, j :: 0 <= i < j < |accounts| ==> accounts[i].name != accounts[j].name
  }

  /** No two accounts share an id. */
  predicate UniqueIds(accounts: seq<Account>) {
    forall i, j :: 0 <= i < j < |accounts| ==> accounts[i].id != accounts[j].id
  }

  /** At most one account is the default. */
  predicate AtMostOneDefault(accounts: seq<Account>) {
    forall i, j :: 0 <= i < j < |accounts| ==> !(accounts[i].isDefault && accounts[j].isDefault)
  }

  /**
   * A save is refused for a missing or blank name, and otherwise exactly
   * when another account (one with a different id) already has the trimmed
   * name.
   */
  lemma SaveRefusals(accounts: seq<Account>, e: Editing, now: int)
    ensures Saved(accounts, e, now) == Err(NameMissing) <==> e.name.None? || Trim(e.name.value) == ""
    ensures Saved(accounts, e, now) == Err(NameTaken) <==>
      e.name.Some? && Trim(e.name.value) != "" &&
      exists i :: 0 <= i < |accounts| && accounts[i].name == Trim(e.name.value) &&
        (e.id.None? || accounts[i].id != e.id.value)
  {
    if e.name.Some? && Trim(e.name.value) != "" {
      var name := Trim(e.name.value);
      var k := FirstIndex(accounts, ClashesWith(name, e.id));
      if k != -1 {
        assert ClashesWith(name, e.id)(accounts[k]);
      } else {
        forall i | 0 <= i < |accounts|
          ensures !(accounts[i].name == name && (e.id.None? || accounts[i].id != e.id.value))
        {
          assert !ClashesWith(name, e.id)(accounts[i]);
        }
      }
    }
  }

  /**
   * Renaming changes only the name of the first account with the edited
   * id, to the trimmed name; every other entry is untouched.
   */
  lemma RenameChangesOneName(accounts: seq<Account>, id: string, name: string)
    ensures |Renamed(accounts, id, name)| == |accounts|
    ensures forall i :: 0 <= i < |accounts| ==>
      Renamed(accounts, id, name)[i].id == accounts[i].id &&
      Renamed(accounts, id, name)[i].isDefault == accounts[i].isDefault &&
      Renamed(accounts, id, name)[i].createTime == accounts[i].createTime
    ensures forall i :: 0 <= i < |accounts| && accounts[i].id != id ==> Renamed(accounts, id, name)[i] == accounts[i]
    ensures forall i :: 0 <= i < |accounts| && accounts[i].id == id && UniqueIds(accounts) ==>
      Renamed(accounts, id, name)[i].name == name
  {
    var k := FirstIndex(accounts, AccountWithId(id));
    forall i | 0 <= i < |accounts| && accounts[i].id == id && UniqueIds(accounts)
      ensures Renamed(accounts, id, name)[i].name == name
    {
      assert AccountWithId(id)(accounts[i]);
      assert k != -1;
      assert accounts[k].id == id;
      assert k == i;
    }
  }

  /**
   * Creating appends one account with a fresh `account_<time>` id and the
   * trimmed name, the default exactly when asked; with `setAsDefault` every
   * earlier account is made non-default, otherwise they are untouched.
   */
  lemma CreateAppends(accounts: seq<Account>, name: string, setAsDefault: bool, now: int)
    ensures |WithNew(accounts, name, setAsDefault, now)| == |accounts| + 1
    ensures WithNew(accounts, name, setAsDefault, now)[|accounts|] == Account(NewAccountId(now), name, setAsDefault, now)
    ensures forall i :: 0 <= i < |accounts| ==>
      WithNew(accounts, name, setAsDefault, now)[i] ==
        if setAsDefault then accounts[i].(isDefault := false) else accounts[i]
  {
  }

  /** Renaming to a name no account with another id has keeps names unique, given unique ids. */
  lemma RenameKeepsNamesUnique(accounts: seq<Account>, id: string, name: string)
    requires UniqueNames(accounts) && UniqueIds(accounts)
    requires forall i :: 0 <= i < |accounts| && accounts[i].name == name ==> accounts[i].id == id
    ensures UniqueNames(Renamed(accounts, id, name))
  {
    var r := Renamed(accounts, id, name);
    RenameChangesOneName(accounts, id, name);
    forall i, j | 0 <= i < j < |r|
      ensures r[i].name != r[j].name
    {
      if accounts[i].id == id {
        assert accounts[j].id != id;
        assert r[j] == accounts[j];
      } else if accounts[j].id == id {
        assert r[i] == accounts[i];
      } else {
        assert r[i] == accounts[i] && r[j] == accounts[j];
      }
    }
  }

  /** Appending an account under a name nobody has keeps names unique. */
  lemma CreateKeepsNamesUnique(accounts: seq<Account>, name: string, setAsDefault: bool, now: int)
    requires UniqueNames(accounts)
    requires forall i :: 0 <= i < |accounts| ==> accounts[i].name != name
    ensures UniqueNames(WithNew(accounts, name, setAsDefault, now))
  {
    var r := WithNew(accounts, name, setAsDefault, now);
    CreateAppends(accounts, name, setAsDefault, now);
    forall i, j | 0 <= i < j < |r|
      ensures r[i].name != r[j].name
    {
      assert r[i].name == accounts[i].name;
      if j < |accounts| {
        assert r[j].name == accounts[j].name;
      }
    }
  }

  /**
   * A successful save keeps account names unique, given unique ids that are
   * never empty (an empty id would take the create path while still being
   * skipped by the clash test).
   */
  lemma SaveKeepsNamesUnique(accounts: seq<Account>, e: Editing, now: int)
    requires UniqueNames(accounts) && UniqueIds(accounts)
    requires forall i :: 0 <= i < |accounts| ==> accounts[i].id != ""
    requires Saved(accounts, e, now).Ok?
    ensures UniqueNames(Saved(accounts, e, now).value)
  {
    var name := Trim(e.name.value);
    var clash := ClashesWith(name, e.id);
    assert FirstIndex(accounts, clash) == -1;
    if IsEdit(e) {
      forall i | 0 <= i < |accounts| && accounts[i].name == name
        ensures accounts[i].id == e.id.value
      {
        assert !clash(accounts[i]);
      }
      RenameKeepsNamesUnique(accounts, e.id.value, name);
    } else {
      forall i | 0 <= i < |accounts|
        ensures accounts[i].name != name
      {
        assert !clash(accounts[i]);
      }
      CreateKeepsNamesUnique(accounts, name, e.setAsDefault, now);
    }
  }

  /** A successful save keeps ids unique when the new id is not already taken. */
  lemma SaveKeepsIdsUnique(accounts: seq<Account>, e: Editing, now: int)
    requires UniqueIds(accounts)
    requires forall i :: 0 <= i < |accounts| ==> accounts[i].id != NewAccountId(now)
    requires Saved(accounts, e, now).Ok?
    ensures UniqueIds(Saved(accounts, e, now).value)
  {
    var name := Trim(e.name.value);
    if IsEdit(e) {
      RenameChangesOneName(accounts, e.id.value, name);
    } else {
      CreateAppends(accounts, name, e.setAsDefault, now);
    }
  }

  /**
   * A successful save keeps at most one default account; a new account
   * saved as the default is then the only one.
   */
  lemma SaveKeepsOneDefault(accounts: seq<Account>, e: Editing, now: int)
    requires AtMostOneDefault(accounts)
    requires Saved(accounts, e, now).Ok?
    ensures AtMostOneDefault(Saved(accounts, e, now).value)
    ensures !IsEdit(e) && e.setAsDefault ==>
      var r := Saved(accounts, e, now).value;
      r[|r| - 1].isDefault && forall i :: 0 <= i < |r| - 1 ==> !r[i].isDefault
  {
    var name := Trim(e.name.value);
    if IsEdit(e) {
      RenameChangesOneName(accounts, e.id.value, name);
    } else {
      CreateAppends(accounts, name, e.setAsDefault, now);
    }
  }

  /** `accounts.forEach(acc => acc.isDefault = false)` on the page's copy of the list. */
  method ClearDefaults(accounts: seq<Account>) returns (r: seq<Account>)
    ensures |r| == |accounts|
    ensures forall i :: 0 <= i < |r| ==> r[i] == accounts[i].(isDefault := false)
    ensures r == Map(accounts, Cleared)
  {
    r := accounts;
    for i := 0 to |r|
      invariant |r| == |accounts|
      invariant forall k :: 0 <= k < i ==> r[k] == accounts[k].(isDefault := false)
      invariant forall k :: i <= k < |r| ==> r[k] == accounts[k]
    {
      r := r[i := r[i].(isDefault := false)];
    }
  }

  /** The page's data. */
  class ProfilePage {
    var accountList: seq<Account>
    var currentAccount: Option<Account>
    var showAddAccountModal: bool
    var editingAccount: Editing

    /** The initial data: the placeholder default account (its missing `createTime` read as 0). */
    constructor()
      ensures accountList == [] && currentAccount == Some(Account("default", "默认账户", true, 0))
      ensures !showAddAccountModal && editingAccount == NoEditing
    {
      accountList := [];
      currentAccount := Some(Account("default", "默认账户", true, 0));
      showAddAccountModal := false;
      editingAccount := NoEditing;
    }

    /** `loadCurrentAccount`: the account with the stored id (default 'default'), or the first one. */
    method LoadCurrentAccount(store: AccountStore)
      modifies this`currentAccount
      ensures currentAccount == CurrentAccount(accountList, StoredIdOrDefault(store.currentAccountId))
    {
      currentAccount := CurrentAccount(accountList, StoredIdOrDefault(store.currentAccountId));
    }

    /**
     * `initializeAccounts`: with no stored accounts, stores the single
     * default account; shows the list and selects the current account.
     */
    method InitializeAccounts(store: AccountStore, now: int)
      modifies this`accountList, this`currentAccount, store`accounts
      ensures store.accounts == if |old(store.accounts)| == 0 then [DefaultAccount(now)] else old(store.accounts)
      ensures accountList == store.accounts
      ensures currentAccount == CurrentAccount(accountList, StoredIdOrDefault(store.currentAccountId))
      ensures |old(store.accounts)| == 0 ==>
        |accountList| == 1 && accountList[0].id == "default" && accountList[0].isDefault &&
        currentAccount == Some(DefaultAccount(now))
    {
      if |store.accounts| == 0 {
        store.accounts := [DefaultAccount(now)];
      }
      accountList := store.accounts;
      LoadCurrentAccount(store);
      if |old(store.accounts)| == 0 {
        var id := StoredIdOrDefault(store.currentAccountId);
        if id != "default" {
          assert accountList[0].id != id;
        }
      }
    }

    /** `loadAccounts`: the stored list as it is. */
    method LoadAccounts(store: AccountStore)
      modifies this`accountList
      ensures accountList == store.accounts
    {
      accountList := store.accounts;
    }

    /** `onSelectAccount`: remembers the chosen account's id and makes it current. */
    method OnSelectAccount(store: AccountStore, account: Account)
      modifies this`currentAccount, store`currentAccountId
      ensures store.currentAccountId == account.id && currentAccount == Some(account)
    {
      store.currentAccountId := account.id;
      currentAccount := Some(account);
    }

    /** `onAddAccount`: opens the dialog with an empty name and no id. */
    method OnAddAccount()
      modifies this`showAddAccountModal, this`editingAccount
      ensures showAddAccountModal && editingAccount == Editing(None, Some(""), false)
    {
      showAddAccountModal := true;
      editingAccount := Editing(None, Some(""), false);
    }

    /** `onAccountNameChange`. */
    method OnAccountNameChange(value: string)
      modifies this`editingAccount
      ensures editingAccount == old(editingAccount).(name := Some(value))
    {
      editingAccount := editingAccount.(name := Some(value));
    }

    /** `onSetDefaultChange`: the checkbox group's values; any checked value sets it. */
    method OnSetDefaultChange(values: seq<string>)
      modifies this`editingAccount
      ensures editingAccount == old(editingAccount).(setAsDefault := |values| > 0)
    {
      editingAccount := editingAccount.(setAsDefault := |values| > 0);
    }

    /**
     * `onSaveAccount`: refuses a blank or taken name and changes nothing;
     * otherwise renames or creates the account, stores the list, and closes
     * the dialog.
     */
    method OnSaveAccount(store: AccountStore, now: int) returns (outcome: Result<bool, SaveError>)
      modifies this`accountList, this`showAddAccountModal, this`editingAccount, store`accounts
      ensures var saved := Saved(old(accountList), old(editingAccount), now);
        if saved.Err? then
          outcome == Err(saved.error) && accountList == old(accountList) && store.accounts == old(store.accounts) &&
          editingAccount == old(editingAccount) && showAddAccountModal == old(showAddAccountModal)
        else
          outcome == Ok(IsEdit(old(editingAccount))) && accountList == saved.value && store.accounts == saved.value &&
          editingAccount == NoEditing && !showAddAccountModal
    {
      var e := editingAccount;
      if e.name.None? || Trim(e.name.value) == "" {
        return Err(NameMissing);
      }
      var accounts := accountList;
      var name := Trim(e.name.value);
      if FirstIndex(accounts, ClashesWith(name, e.id)) != -1 {
        return Err(NameTaken);
      }
      if IsEdit(e) {
        var index := FirstIndex(accounts, AccountWithId(e.id.value));
        if index != -1 {
          accounts := accounts[index := accounts[index].(name := name)];
        }
      } else {
        var newAccount := Account(NewAccountId(now), name, false, now);
        if e.setAsDefault {
          accounts := ClearDefaults(accounts);
          newAccount := newAccount.(isDefault := true);
        }
        accounts := accounts + [newAccount];
      }
      store.accounts := accounts;
      accountList := accounts;
      showAddAccountModal := false;
      editingAccount := NoEditing;
      outcome := Ok(IsEdit(e));
    }
  }
}
