/**
 * The cash record form (pages/fund-record/fund-record.js): entering a deposit
 * or a withdrawal of Hong Kong dollars, with the amount sanitised as it is
 * typed, the date and time kept both apart and as one "YYYY-MM-DD HH:MM"
 * string, and the record handed to the ledger on save.
 */
module FundRecordPage {
  import opened Common
  import opened Seqs
  import opened JsText
  import opened Records
  import opened Ledger

  /** The message `validateField` stores under `errors.amount`. */
  const AmountError := "请输入有效金额"

  /** `timePart || '00:00'`: the time read when the string has none. */
  const Midnight := "00:00"

  /** `this.data.formData.time || '09:00'`: the time used when a date is picked before any time. */
  const MorningTime := "09:00"

  /** The fields of a JavaScript `Date` the page reads: full year, month from 1, day, hours, minutes. */
  datatype Clock = Clock(year: nat, month: nat, day: nat, hour: nat, minute: nat)

  /** The `{ date, time }` pair `parseDateTime` returns. */
  datatype DateTimeParts = DateTimeParts(date: string, time: string)

  /** Why `onSave` stores nothing. */
  datatype SaveFailure =
    | FormInvalid
    | NoAccount
    | AmountNotANumber
    | Failed(message: string)

  /** What a successful `onSave` did. */
  datatype SaveKind = Added | Updated

  // ---------------------------------------------------------------------
  // The amount sanitiser

  /** The characters `/[^0-9.]/g` leaves in place. */
  predicate AmountChar(c: char) {
    ('0' <= c <= '9') || c == '.'
  }

  /** `value.replace(/[^0-9.]/g, '')`. */
  function Sanitize(value: string): string {
    Filter(value, (c: char) => AmountChar(c))
  }

  /** The sanitised amount holds only digits and points, and keeps every digit and point of the input. */
  lemma SanitizeKeepsExactlyAllowed(value: string)
    ensures forall i :: 0 <= i < |Sanitize(value)| ==> AmountChar(Sanitize(value)[i])
    ensures forall c :: c in value && AmountChar(c) ==> c in Sanitize(value)
  {
    var p := (c: char) => AmountChar(c);
    FilterMembers(value, p);
    forall i | 0 <= i < |Sanitize(value)|
      ensures AmountChar(Sanitize(value)[i])
    {
      assert Sanitize(value)[i] in Filter(value, p);
    }
  }

  /** Text made only of digits and points is left as it is. */
  lemma SanitizeLeavesCleanText(value: string)
    requires forall i :: 0 <= i < |value| ==> AmountChar(value[i])
    ensures Sanitize(value) == value
  {
    FilterAll(value, (c: char) => AmountChar(c));
  }

  /** Sanitising twice is sanitising once. */
  lemma SanitizeIdempotent(value: string)
    ensures Sanitize(Sanitize(value)) == Sanitize(value)
  {
    SanitizeKeepsExactlyAllowed(value);
    SanitizeLeavesCleanText(Sanitize(value));
  }

  /** The sanitiser works character by character: the text typed after some text is sanitised on its own. */
  lemma SanitizeConcat(a: string, b: string)
    ensures Sanitize(a + b) == Sanitize(a) + Sanitize(b)
  {
    FilterConcat(a, b, (c: char) => AmountChar(c));
  }

  // ---------------------------------------------------------------------
  // Formatting and splitting dates and times

  /** `${year}-${month}-${day}` with month and day padded to two digits. */
  function DateOf(c: Clock): string {
    NatToString(c.year) + ['-'] + Pad2(c.month) + ['-'] + Pad2(c.day)
  }

  /** `${hour}:${minute}`, both padded to two digits. */
  function TimeOf(c: Clock): string {
    Pad2(c.hour) + [':'] + Pad2(c.minute)
  }

  /** `formatDateTime`: the date, a space, the time. */
  function FormatDateTime(c: Clock): string {
    DateOf(c) + [' '] + TimeOf(c)
  }

  /**
   * `parseDateTime`: the empty string yields the current date and time;
   * otherwise the text before the first space is split on '-' and the text
   * after it (or "00:00" when there is none) on ':', and the first three
   * and first two pieces are put back together. A missing piece prints as
   * "undefined", and a third time piece (the seconds) is dropped.
   */
  function ParseDateTime(s: string, now: Clock): (p: DateTimeParts)
    ensures s == "" ==> p == DateTimeParts(DateOf(now), TimeOf(now))
  {
    if s == "" then DateTimeParts(DateOf(now), TimeOf(now))
    else
      var halves := Split(s, ' ');
      DateTimeParts(ReadDate(halves[0]), ReadTime(if |halves| > 1 && halves[1] != "" then halves[1] else Midnight))
  }

  /** `${year}-${month}-${day}` of `datePart.split('-')`. */
  function ReadDate(datePart: string): string {
    var ymd := Split(datePart, '-');
    PieceOrUndefined(ymd, 0) + ['-'] + PieceOrUndefined(ymd, 1) + ['-'] + PieceOrUndefined(ymd, 2)
  }

  /** `${hour}:${minute}` of `timePart.split(':')`. */
  function ReadTime(timePart: string): string {
    var hm := Split(timePart, ':');
    PieceOrUndefined(hm, 0) + [':'] + PieceOrUndefined(hm, 1)
  }

  /** A string that splits on its first space into a date part and a non-empty time part is read piece by piece. */
  lemma ParseDateTimeOf(s: string, date: string, time: string, now: Clock)
    requires Split(s, ' ') == [date, time] && time != ""
    ensures ParseDateTime(s, now) == DateTimeParts(ReadDate(date), ReadTime(time))
  {
  }

  /** A string of digits holds no other character. */
  lemma DigitsExclude(s: string, c: char)
    requires forall i :: 0 <= i < |s| ==> IsDigit(s[i])
    requires !IsDigit(c)
    ensures c !in s
  {
    forall i | 0 <= i < |s|
      ensures s[i] != c
    {
      assert IsDigit(s[i]);
    }
  }

  /** A padded field is made of digits, and has exactly two of them when the number is below 100. */
  lemma Pad2Digits(n: nat)
    ensures forall i :: 0 <= i < |Pad2(n)| ==> IsDigit(Pad2(n)[i])
    ensures n < 100 ==> |Pad2(n)| == 2
  {
    var d := NatToString(n);
    if |d| < 2 {
      assert Pad2(n) == ['0'] + d;
    }
    if 10 <= n < 100 {
      assert NatToString(n) == NatToString(n / 10) + [('0' as int + n % 10) as char];
    }
  }

  /** Three pieces free of the separator split back into those pieces. */
  lemma SplitThree(a: string, b: string, c: string, sep: char)
    requires sep !in a && sep !in b && sep !in c
    ensures Split(a + [sep] + b + [sep] + c, sep) == [a, b, c]
  {
    assert a + [sep] + b + [sep] + c == a + [sep] + (b + [sep] + c);
    SplitAt(a, sep, b + [sep] + c);
    SplitAt(b, sep, c);
  }

  /** A date of three pieces free of '-' reads back as itself. */
  lemma ReadDateOf(y: string, mo: string, d: string)
    requires '-' !in y && '-' !in mo && '-' !in d
    ensures ReadDate(y + ['-'] + mo + ['-'] + d) == y + ['-'] + mo + ['-'] + d
  {
    SplitThree(y, mo, d, '-');
  }

  /** A time of two pieces free of ':' reads back as itself. */
  lemma ReadTimeOf(h: string, mi: string)
    requires ':' !in h && ':' !in mi
    ensures ReadTime(h + [':'] + mi) == h + [':'] + mi
  {
    SplitAt(h, ':', mi);
  }

  /**
   * A date and a time whose pieces hold none of ' ', '-' and ':' read back
   * as themselves: this is what the date and time pickers produce, and what
   * `onDateChange` and `onTimeChange` put together.
   */
  lemma ParseJoined(y: string, mo: string, d: string, h: string, mi: string, now: Clock)
    requires ' ' !in y && ' ' !in mo && ' ' !in d && ' ' !in h && ' ' !in mi
    requires '-' !in y && '-' !in mo && '-' !in d
    requires ':' !in h && ':' !in mi
    ensures ParseDateTime((y + ['-'] + mo + ['-'] + d) + [' '] + (h + [':'] + mi), now)
         == DateTimeParts(y + ['-'] + mo + ['-'] + d, h + [':'] + mi)
  {
    var date := y + ['-'] + mo + ['-'] + d;
    var time := h + [':'] + mi;
    var s := date + [' '] + time;
    assert ' ' !in date && ' ' !in time;
    SplitAt(date, ' ', time);
    ParseDateTimeOf(s, date, time, now);
    ReadDateOf(y, mo, d);
    ReadTimeOf(h, mi);
  }

  /** `parseDateTime(formatDateTime(d))` gives back the date and the time `formatDateTime` wrote. */
  lemma FormattedRoundTrip(c: Clock, now: Clock)
    ensures ParseDateTime(FormatDateTime(c), now) == DateTimeParts(DateOf(c), TimeOf(c))
  {
    var y, mo, d, h, mi := NatToString(c.year), Pad2(c.month), Pad2(c.day), Pad2(c.hour), Pad2(c.minute);
    Pad2Digits(c.month);
    Pad2Digits(c.day);
    Pad2Digits(c.hour);
    Pad2Digits(c.minute);
    DigitsExclude(y, ' ');
    DigitsExclude(y, '-');
    DigitsExclude(mo, ' ');
    DigitsExclude(mo, '-');
    DigitsExclude(d, ' ');
    DigitsExclude(d, '-');
    DigitsExclude(h, ' ');
    DigitsExclude(h, ':');
    DigitsExclude(mi, ' ');
    DigitsExclude(mi, ':');
    ParseJoined(y, mo, d, h, mi, now);
  }

  /**
   * The formatted date splits into year, month and day and the time into
   * hour and minute, each reading back as the clock's number; the time is
   * five characters when hour and minute are below 100.
   */
  lemma FormattedFieldsReadBack(c: Clock)
    ensures Split(DateOf(c), '-') == [NatToString(c.year), Pad2(c.month), Pad2(c.day)]
    ensures Split(TimeOf(c), ':') == [Pad2(c.hour), Pad2(c.minute)]
    ensures ParseInt(NatToString(c.year)) == Some(c.year as int)
    ensures ParseInt(Pad2(c.month)) == Some(c.month as int) && ParseInt(Pad2(c.day)) == Some(c.day as int)
    ensures ParseInt(Pad2(c.hour)) == Some(c.hour as int) && ParseInt(Pad2(c.minute)) == Some(c.minute as int)
    ensures c.hour < 100 && c.minute < 100 ==> |TimeOf(c)| == 5
  {
    var y, mo, d, h, mi := NatToString(c.year), Pad2(c.month), Pad2(c.day), Pad2(c.hour), Pad2(c.minute);
    Pad2Digits(c.month);
    Pad2Digits(c.day);
    Pad2Digits(c.hour);
    Pad2Digits(c.minute);
    DigitsExclude(y, '-');
    DigitsExclude(mo, '-');
    DigitsExclude(d, '-');
    DigitsExclude(h, ':');
    DigitsExclude(mi, ':');
    SplitThree(y, mo, d, '-');
    SplitAt(h, ':', mi);
    ParseIntToString(c.year);
    ParsePad2(c.month);
    ParsePad2(c.day);
    ParsePad2(c.hour);
    ParsePad2(c.minute);
  }

  /** A non-empty string with no space has no time part, and reads as midnight. */
  lemma NoTimeMeansMidnight(date: string, now: Clock)
    requires date != "" && ' ' !in date
    ensures ParseDateTime(date, now).time == Midnight
  {
    MidnightReadsBack();
    assert Split(date, ' ') == [date];
  }

  /** An empty time after the space reads as midnight too. */
  lemma EmptyTimeMeansMidnight(date: string, now: Clock)
    requires ' ' !in date
    ensures ParseDateTime(date + [' '], now).time == Midnight
  {
    MidnightReadsBack();
    var s := date + [' '];
    assert s == date + [' '] + "";
    SplitAt(date, ' ', "");
    assert Split("", ' ') == [""];
    assert Split(s, ' ') == [date, ""];
    assert ParseDateTime(s, now) == DateTimeParts(ReadDate(date), ReadTime(Midnight));
  }

  /** "00:00" is read as itself. */
  lemma MidnightReadsBack()
    ensures ReadTime(Midnight) == Midnight
  {
    assert Midnight == "00" + [':'] + "00";
    ReadTimeOf("00", "00");
  }

  /** Seconds after the minutes are dropped: only the first two time pieces are kept. */
  lemma SecondsDropped(date: string, h: string, mi: string, rest: string, now: Clock)
    requires ' ' !in date && ' ' !in h && ' ' !in mi && ' ' !in rest
    requires ':' !in h && ':' !in mi
    ensures ParseDateTime(date + [' '] + h + [':'] + mi + [':'] + rest, now).time == h + [':'] + mi
  {
    var time := h + [':'] + mi + [':'] + rest;
    assert date + [' '] + h + [':'] + mi + [':'] + rest == date + [' '] + time;
    assert ' ' !in time;
    SplitAt(date, ' ', time);
    ParseDateTimeOf(date + [' '] + time, date, time, now);
    ReadTimeDropsSeconds(h, mi, rest);
  }

  /** Reading a time keeps its first two pieces only. */
  lemma ReadTimeDropsSeconds(h: string, mi: string, rest: string)
    requires ':' !in h && ':' !in mi
    ensures ReadTime(h + [':'] + mi + [':'] + rest) == h + [':'] + mi
  {
    assert h + [':'] + mi + [':'] + rest == h + [':'] + (mi + [':'] + rest);
    SplitAt(h, ':', mi + [':'] + rest);
    SplitAt(mi, ':', rest);
  }

  // ---------------------------------------------------------------------
  // Validation

  /** `!value || parseFloat(value) <= 0`: empty, or a number that is not positive (NaN is neither). */
  predicate AmountInvalid(value: string) {
    value == "" || (ParseCents(value).Some? && ParseCents(value).value <= 0)
  }

  /**
   * `validateField`'s copy of the errors: for the amount, the message is set
   * when the value is invalid and removed otherwise; any other field leaves
   * the errors as they were.
   */
  function CheckedErrors(errors: map<string, string>, field: string, value: string): (e: map<string, string>)
    ensures "amount" in e <==> if field == "amount" then AmountInvalid(value) else "amount" in errors
    ensures "amount" in e && field == "amount" ==> e["amount"] == AmountError
    ensures forall k :: k in errors && k != "amount" ==> k in e && e[k] == errors[k]
    ensures forall k :: k in e && k != "amount" ==> k in errors
  {
    if field != "amount" then errors
    else if AmountInvalid(value) then errors["amount" := AmountError]
    else errors - {"amount"}
  }

  /** `return !errors[field]`: no message, or an empty one, stored for the field. */
  predicate FieldOk(errors: map<string, string>, field: string) {
    !(field in errors && errors[field] != "")
  }

  /** Validating the amount succeeds exactly when the amount is not invalid. */
  lemma AmountCheckMeaning(errors: map<string, string>, value: string)
    ensures FieldOk(CheckedErrors(errors, "amount", value), "amount") <==> !AmountInvalid(value)
  {
  }

  /**
   * For a sanitised amount parseFloat is never negative, so the error shows
   * exactly for empty text and for a value of zero; text with no digit
   * before or after its first point ("." or ".5." aside) is NaN and passes.
   */
  lemma SanitizedAmountError(value: string)
    ensures var s := Sanitize(value);
      AmountInvalid(s) <==> s == "" || ParseCents(s) == Some(0)
  {
    var s := Sanitize(value);
    SanitizeKeepsExactlyAllowed(value);
    if |s| > 0 {
      assert AmountChar(s[0]);
      assert ParseCents(s) == CentsFrom(s, 0, false);
    }
  }

  /**
   * `validateForm`'s verdict: a valid amount and, for a new withdrawal only,
   * a balance check that passes; a missing current account makes that check
   * throw, which counts as a failure.
   */
  predicate FormAccepted(amount: string, kind: string, isEdit: bool, account: Option<Account>, currency: string,
                         ledger: FundManager, now: int)
    reads ledger
  {
    !AmountInvalid(amount) &&
    (kind == "withdraw" && !isEdit ==>
      account.Some? && ledger.ValidateFundOperation(account.value.id, ParseCents(amount), currency, "withdraw", now).Ok?)
  }

  /** Editing a record, or entering a deposit, never consults the balance. */
  lemma BalanceCheckOnlyForNewWithdrawal(amount: string, kind: string, isEdit: bool, account: Option<Account>,
                                         currency: string, ledger: FundManager, now: int)
    requires isEdit || kind != "withdraw"
    ensures FormAccepted(amount, kind, isEdit, account, currency, ledger, now) <==> !AmountInvalid(amount)
  {
  }

  /**
   * An accepted new withdrawal has a current account whose available balance
   * in the currency covers the amount.
   */
  lemma AcceptedWithdrawalIsCovered(amount: string, account: Option<Account>, currency: string,
                                    ledger: FundManager, now: int)
    requires FormAccepted(amount, "withdraw", false, account, currency, ledger, now)
    ensures account.Some? && account.value.id != "" && currency != ""
    ensures var f := FundsOrDefault(ledger.accountFunds, account.value.id, now);
      currency in f.balances && (ParseCents(amount).Some? ==> 0 < ParseCents(amount).value <= Available(f, currency))
  {
  }

  /** The patch `onSave` hands to `updateFundRecord`: every field of the form, the description trimmed. */
  function EditPatch(kind: string, accountId: string, amount: int, currency: string, datetime: string,
                     description: string, status: string): (p: FundPatch)
    ensures p.kind == Some(kind) && p.accountId == Some(accountId) && p.amount == Some(amount)
    ensures p.datetime == Some(datetime) && p.description == Some(Trim(description))
    ensures p.currency == Some(currency) && p.status == Some(status)
  {
    FundPatch(Some(kind), Some(accountId), Some(amount), Some(currency), Some(datetime), Some(Trim(description)), Some(status))
  }

  /** A whole record edited through the form takes every field of the form and keeps its identity. */
  lemma EditPatchOverwrites(r: FundRecord, kind: string, accountId: string, amount: int, currency: string,
                            datetime: string, description: string, status: string, now: int)
    ensures var m := Merged(r, EditPatch(kind, accountId, amount, currency, datetime, description, status), now);
      m == FundRecord(r.id, kind, accountId, amount, currency, datetime, Trim(description), status,
                      r.createTime, r.timestamp, Some(now))
  {
  }

  /** The form's state. */
  class FundRecordPage {
    var isEdit: bool
    var recordId: Option<string>
    var kind: string
    var amount: string
    var currency: string
    var date: string
    var time: string
    var datetime: string
    var description: string
    var status: string
    var currentAccount: Option<Account>
    var errors: map<string, string>

    /** The page's initial data: a new completed Hong Kong dollar deposit with nothing entered. */
    constructor()
      ensures !isEdit && recordId == None && kind == "deposit"
      ensures amount == "" && currency == HKD && date == "" && time == "" && datetime == ""
      ensures description == "" && status == "completed"
      ensures currentAccount == None && errors == map[]
    {
      isEdit, recordId, kind := false, None, "deposit";
      amount, currency, date, time, datetime := "", HKD, "", "", "";
      description, status := "", "completed";
      currentAccount, errors := None, map[];
    }

    /** `loadCurrentAccount`: the account with the stored id (default 'default'), else the first, else none. */
    method LoadCurrentAccount(store: AccountStore)
      modifies this`currentAccount
      ensures currentAccount == CurrentAccount(store.accounts, StoredIdOrDefault(store.currentAccountId))
    {
      currentAccount := CurrentAccount(store.accounts, StoredIdOrDefault(store.currentAccountId));
    }

    /** `validateField`: recomputes the errors and reports whether the field has none. */
    method ValidateField(field: string, value: string) returns (ok: bool)
      modifies this`errors
      ensures errors == CheckedErrors(old(errors), field, value)
      ensures ok == FieldOk(errors, field)
      ensures field == "amount" ==> (ok <==> !AmountInvalid(value))
    {
      errors := CheckedErrors(errors, field, value);
      ok := FieldOk(errors, field);
    }

    /** `onAmountInput`: stores the sanitised text and validates it. */
    method OnAmountInput(value: string)
      modifies this`amount, this`errors
      ensures amount == Sanitize(value)
      ensures errors == CheckedErrors(old(errors), "amount", amount)
    {
      amount := Sanitize(value);
      var _ := ValidateField("amount", amount);
    }

    /** `onDateChange`: the picked date, and the datetime rebuilt with the current time or 09:00. */
    method OnDateChange(dateValue: string)
      modifies this`date, this`datetime
      ensures date == dateValue
      ensures datetime == dateValue + [' '] + (if old(time) == "" then MorningTime else old(time))
    {
      var currentTime := if time == "" then MorningTime else time;
      date := dateValue;
      datetime := dateValue + [' '] + currentTime;
    }

    /** `onTimeChange`: the picked time, and the datetime rebuilt with the current date or today's. */
    method OnTimeChange(timeValue: string, today: Clock)
      modifies this`time, this`datetime
      ensures time == timeValue
      ensures datetime == (if old(date) == "" then DateOf(today) else old(date)) + [' '] + timeValue
    {
      var currentDate := if date == "" then DateOf(today) else date;
      time := timeValue;
      datetime := currentDate + [' '] + timeValue;
    }

    /** `validateForm`: the amount check (which records its error), then the balance check for a new withdrawal. */
    method ValidateForm(ledger: FundManager, now: int) returns (valid: bool)
      modifies this`errors
      ensures errors == CheckedErrors(old(errors), "amount", amount)
      ensures valid == FormAccepted(amount, kind, isEdit, currentAccount, currency, ledger, now)
    {
      valid := ValidateField("amount", amount);
      if kind == "withdraw" && !isEdit {
        if currentAccount.None? {
          valid := false;
        } else {
          var check := ledger.ValidateFundOperation(currentAccount.value.id, ParseCents(amount), currency, "withdraw", now);
          if check.Err? {
            valid := false;
          }
        }
      }
    }

    /**
     * `onSave`: after validation, updates the record being edited or adds a
     * new one, with the description trimmed and the timestamp read from the
     * datetime; a missing current account throws before anything is stored.
     */
    method OnSave(ledger: FundManager, now: int, newId: string, parseTime: string -> Option<int>)
      returns (r: Result<SaveKind, SaveFailure>)
      modifies this`errors, ledger
      ensures errors == CheckedErrors(old(errors), "amount", amount)
      ensures ledger.transactions == old(ledger.transactions)
      ensures r.Err? && r.error != Failed(RecordNotFound) ==>
        ledger.fundRecords == old(ledger.fundRecords) && ledger.accountFunds == old(ledger.accountFunds)
      ensures
        if !old(FormAccepted(amount, kind, isEdit, currentAccount, currency, ledger, now)) then r == Err(FormInvalid)
        else if currentAccount.None? then r == Err(NoAccount)
        else if ParseCents(amount).None? then r == Err(AmountNotANumber)
        else
          var accountId, value := currentAccount.value.id, ParseCents(amount).value;
          if !isEdit then
            r == Ok(Added) &&
            ledger.fundRecords == old(ledger.fundRecords) +
              [FundRecord(newId, kind, accountId, value, currency, datetime, Trim(description), status,
                          now, parseTime(datetime), None)] &&
            ledger.accountFunds == old(ledger.accountFunds)[accountId :=
              Recomputed(ledger.fundRecords, ledger.transactions, accountId, now)]
          else
            var i := if recordId.Some? then FirstIndex(old(ledger.fundRecords), RecordWithId(recordId.value)) else -1;
            if i == -1 then
              r == Err(Failed(RecordNotFound)) &&
              ledger.fundRecords == old(ledger.fundRecords) && ledger.accountFunds == old(ledger.accountFunds)
            else
              var merged := Merged(old(ledger.fundRecords)[i],
                EditPatch(kind, accountId, value, currency, datetime, description, status), now);
              r == Ok(Updated) &&
              ledger.fundRecords == old(ledger.fundRecords)[i := merged] &&
              ledger.accountFunds == old(ledger.accountFunds)[merged.accountId :=
                Recomputed(ledger.fundRecords, ledger.transactions, merged.accountId, now)]
    {
      var valid := ValidateForm(ledger, now);
      if !valid {
        return Err(FormInvalid);
      }
      if currentAccount.None? {
        return Err(NoAccount);
      }
      var parsed := ParseCents(amount);
      if parsed.None? {
        return Err(AmountNotANumber);
      }
      var accountId := currentAccount.value.id;
      if !isEdit {
        var input := FundInput(kind, accountId, parsed.value, currency, datetime, Trim(description), status);
        var _ := ledger.AddFundRecord(input, newId, now, parseTime(datetime));
        return Ok(Added);
      }
      if recordId.None? {
        return Err(Failed(RecordNotFound));
      }
      var patch := EditPatch(kind, accountId, parsed.value, currency, datetime, description, status);
      var updated := ledger.UpdateFundRecord(recordId.value, patch, now);
      if updated.Err? {
        return Err(Failed(updated.error));
      }
      r := Ok(Updated);
    }
  }
}
