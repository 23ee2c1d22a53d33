/**
 * The platform compatibility checker (utils/compatibility.js): dotted
 * version comparison, the base-library 3.0 test, the choice of how to obtain
 * the user's profile, the list of recommendations, and a guarded API call.
 * The system information and the table of supported APIs are inputs.
 */
module Compatibility {
  import opened Common
  import opened JsText

  /** `wx.getSystemInfoSync()`, reduced to the field the checker reads. */
  datatype SystemInfo = SystemInfo(sdkVersion: Option<string>)

  /** What calling a function did: returned a value (`None` for `undefined`) or threw. */
  datatype CallOutcome<T> = Returned(value: Option<T>) | Threw

  /** What `safeAPICall` did: its outcome and which of the two functions it invoked. */
  datatype SafeCall<T> = SafeCall(outcome: CallOutcome<T>, apiInvoked: bool, fallbackInvoked: bool)

  const ChooseAvatar := "button.open-type.chooseAvatar"
  const Nickname := "input.type.nickname"
  const GetUserProfile := "getUserProfile"

  const UpgradeAdvice := "建议升级基础库到3.0+以获得更好的兼容性"
  const ModernAdvice := "当前环境不支持现代用户信息获取方式，将使用降级方案"
  const ProfileAdvice := "getUserProfile不可用，将使用手动输入方式"

  /**
   * The `compareVersion` loop from index `i` on: 1 or -1 at the first
   * component where both parse and differ, otherwise the difference of the
   * component counts. A component that does not parse (`NaN`) compares
   * neither way.
   */
  function ComparePartsFrom(a: seq<string>, b: seq<string>, i: nat): int
    decreases |a| - i
  {
    if i >= |a| || i >= |b| then |a| - |b|
    else
      var n1, n2 := ParseInt(a[i]), ParseInt(b[i]);
      if n1.Some? && n2.Some? && n1.value > n2.value then 1
      else if n1.Some? && n2.Some? && n1.value < n2.value then -1
      else ComparePartsFrom(a, b, i + 1)
  }

  /** `compareVersion(v1, v2)` on the dot-separated components. */
  function VersionOrder(v1: string, v2: string): int {
    ComparePartsFrom(Split(v1, '.'), Split(v2, '.'), 0)
  }

  /** Swapping the arguments negates the result exactly. */
  lemma {:induction false} ComparePartsAntisymmetric(a: seq<string>, b: seq<string>, i: nat)
    ensures ComparePartsFrom(b, a, i) == -ComparePartsFrom(a, b, i)
    decreases |a| - i
  {
    if i < |a| && i < |b| {
      ComparePartsAntisymmetric(a, b, i + 1);
    }
  }

  /** Comparing with itself gives 0. */
  lemma {:induction false} ComparePartsReflexive(a: seq<string>, i: nat)
    ensures ComparePartsFrom(a, a, i) == 0
    decreases |a| - i
  {
    if i < |a| {
      ComparePartsReflexive(a, i + 1);
    }
  }

  /** The result is 1, -1, or the difference of the component counts; and it is 0 only for equally long versions. */
  lemma {:induction false} ComparePartsRange(a: seq<string>, b: seq<string>, i: nat)
    ensures var r := ComparePartsFrom(a, b, i); r == 1 || r == -1 || r == |a| - |b|
    decreases |a| - i
  {
    if i < |a| && i < |b| {
      ComparePartsRange(a, b, i + 1);
    }
  }

  /** `compareVersion(v, v) === 0`. */
  lemma VersionOrderReflexive(v: string)
    ensures VersionOrder(v, v) == 0
  {
    ComparePartsReflexive(Split(v, '.'), 0);
  }

  /** `compareVersion(b, a) === -compareVersion(a, b)`, so the sign flips with the arguments. */
  lemma VersionOrderAntisymmetric(v1: string, v2: string)
    ensures VersionOrder(v2, v1) == -VersionOrder(v1, v2)
  {
    ComparePartsAntisymmetric(Split(v1, '.'), Split(v2, '.'), 0);
  }

  /** The result is 1, -1 or the difference of the component counts. */
  lemma VersionOrderRange(v1: string, v2: string)
    ensures var r := VersionOrder(v1, v2);
      r == 1 || r == -1 || r == |Split(v1, '.')| - |Split(v2, '.')|
  {
    ComparePartsRange(Split(v1, '.'), Split(v2, '.'), 0);
  }

  /** Joining two non-empty lists of pieces joins each list and puts a separator between them. */
  lemma {:induction false} JoinConcat(p: seq<string>, q: seq<string>, sep: char)
    requires |p| >= 1 && |q| >= 1
    ensures Join(p + q, sep) == Join(p, sep) + [sep] + Join(q, sep)
  {
    if |p| == 1 {
      assert (p + q)[1..] == q;
    } else {
      assert (p + q)[1..] == p[1..] + q;
      JoinConcat(p[1..], q, sep);
    }
  }

  /** Splitting `v + "." + w` gives the components of `v` followed by those of `w`. */
  lemma SplitDotted(v: string, w: string)
    ensures Split(v + ['.'] + w, '.') == Split(v, '.') + Split(w, '.')
  {
    var p, q := Split(v, '.'), Split(w, '.');
    JoinSplit(v, '.');
    JoinSplit(w, '.');
    JoinConcat(p, q, '.');
    PiecesConcat(p, q, '.');
    SplitJoin(p + q, '.');
  }

  /** Two lists of pieces free of the separator concatenate to one. */
  lemma PiecesConcat(p: seq<string>, q: seq<string>, sep: char)
    requires forall k :: 0 <= k < |p| ==> sep !in p[k]
    requires forall k :: 0 <= k < |q| ==> sep !in q[k]
    ensures forall k :: 0 <= k < |p + q| ==> sep !in (p + q)[k]
  {
    forall k | 0 <= k < |p + q|
      ensures sep !in (p + q)[k]
    {
      if k >= |p| {
        assert (p + q)[k] == q[k - |p|];
      }
    }
  }

  /** Components that agree compare neither way, so a longer list wins by the number of extra components. */
  lemma {:induction false} ComparePartsExtra(a: seq<string>, extra: seq<string>, i: nat)
    requires i <= |a|
    ensures ComparePartsFrom(a + extra, a, i) == |extra|
    ensures ComparePartsFrom(a, a + extra, i) == -|extra|
    decreases |a| - i
  {
    if i < |a| {
      assert (a + extra)[i] == a[i];
      ComparePartsExtra(a, extra, i + 1);
    }
  }

  /**
   * The result is not confined to -1, 0 and 1, despite the doc comment:
   * appending components to a version makes it compare above the original
   * by the number of appended components (so "1.0.0.0" against "1" gives
   * 3), and below it the other way round (so "3.0" against "3.0.0" gives -1).
   */
  lemma VersionOrderExtraComponents(v: string, w: string)
    ensures VersionOrder(v + ['.'] + w, v) == |Split(w, '.')|
    ensures VersionOrder(v, v + ['.'] + w) == -|Split(w, '.')|
  {
    SplitDotted(v, w);
    ComparePartsExtra(Split(v, '.'), Split(w, '.'), 0);
  }

  /** A base library reporting "3.0" is not 3.0 or later by this comparison: it compares below "3.0.0". */
  lemma ThreeZeroBelowThreeZeroZero(v: string)
    requires v == "3.0"
    ensures VersionOrder(v, v + ['.'] + "0") == -1
  {
    VersionOrderExtraComponents(v, "0");
    assert Split("0", '.') == ["0"];
  }

  /** The checker's inputs: the system information (`null` when probing failed) and `apiSupport`. */
  class CompatibilityChecker {
    var systemInfo: Option<SystemInfo>
    var apiSupport: map<string, bool>

    constructor(info: Option<SystemInfo>, support: map<string, bool>)
      ensures systemInfo == info && apiSupport == support
    {
      systemInfo := info;
      apiSupport := support;
    }

    /** `this.apiSupport[name]` is truthy: recorded and true. */
    predicate Supported(name: string)
      reads this
    {
      name in apiSupport && apiSupport[name]
    }

    /** `compareVersion`: the index loop with early returns, proved equal to `VersionOrder`. */
    method CompareVersion(v1: string, v2: string) returns (r: int)
      ensures r == VersionOrder(v1, v2)
    {
      var arr1 := Split(v1, '.');
      var arr2 := Split(v2, '.');
      var minLength := if |arr1| < |arr2| then |arr1| else |arr2|;
      for i := 0 to minLength
        invariant ComparePartsFrom(arr1, arr2, i) == ComparePartsFrom(arr1, arr2, 0)
      {
        var num1 := ParseInt(arr1[i]);
        var num2 := ParseInt(arr2[i]);
        if num1.Some? && num2.Some? && num1.value > num2.value {
          return 1;
        }
        if num1.Some? && num2.Some? && num1.value < num2.value {
          return -1;
        }
      }
      return |arr1| - |arr2|;
    }

    /** The version the checker tests, when the system information has a non-empty one. */
    function SdkVersion(): Option<string>
      reads this
    {
      if systemInfo.Some? && systemInfo.value.sdkVersion.Some? && systemInfo.value.sdkVersion.value != "" then
        systemInfo.value.sdkVersion
      else None
    }

    /** `isSDK3Plus`: false without a version, otherwise whether it compares at or above "3.0.0". */
    method IsSDK3Plus() returns (r: bool)
      ensures SdkVersion().None? ==> !r
      ensures SdkVersion().Some? ==> (r <==> VersionOrder(SdkVersion().value, "3.0.0") >= 0)
    {
      if SdkVersion().None? {
        return false;
      }
      var c := CompareVersion(SdkVersion().value, "3.0.0");
      r := c >= 0;
    }

    /** `supportModernUserInfo`: both the avatar button and the nickname input are supported. */
    function SupportModernUserInfo(): (r: bool)
      reads this
      ensures r <==> Supported(ChooseAvatar) && Supported(Nickname)
    {
      (ChooseAvatar in apiSupport && apiSupport[ChooseAvatar]) && (Nickname in apiSupport && apiSupport[Nickname])
    }

    /** `getUserInfoStrategy`: 'modern', else 'profile' when `getUserProfile` is supported, else 'manual'. */
    function GetUserInfoStrategy(): (r: string)
      reads this
      ensures r == "modern" <==> Supported(ChooseAvatar) && Supported(Nickname)
      ensures r == "profile" <==> !(Supported(ChooseAvatar) && Supported(Nickname)) && Supported(GetUserProfile)
      ensures r == "manual" <==> !(Supported(ChooseAvatar) && Supported(Nickname)) && !Supported(GetUserProfile)
    {
      if SupportModernUserInfo() then "modern"
      else if GetUserProfile in apiSupport && apiSupport[GetUserProfile] then "profile"
      else "manual"
    }

    /**
     * `getRecommendations`: one piece of advice per failing check, in the
     * order base library, modern profile, `getUserProfile`; none when every
     * check passes.
     */
    method GetRecommendations() returns (r: seq<string>)
      ensures var sdk3 := SdkVersion().Some? && VersionOrder(SdkVersion().value, "3.0.0") >= 0;
        r == (if sdk3 then [] else [UpgradeAdvice]) +
             (if SupportModernUserInfo() then [] else [ModernAdvice]) +
             (if Supported(GetUserProfile) then [] else [ProfileAdvice])
      ensures r == [] <==>
        SdkVersion().Some? && VersionOrder(SdkVersion().value, "3.0.0") >= 0 &&
        Supported(ChooseAvatar) && Supported(Nickname) && Supported(GetUserProfile)
    {
      r := [];
      var sdk3 := IsSDK3Plus();
      if !sdk3 {
        r := r + [UpgradeAdvice];
      }
      if !SupportModernUserInfo() {
        r := r + [ModernAdvice];
      }
      if !Supported(GetUserProfile) {
        r := r + [ProfileAdvice];
      }
    }

    /**
     * `safeAPICall`: calls the API when it is supported; when it is not, or
     * the call throws, calls the fallback if there is one (an exception from
     * the fallback propagates); otherwise yields `undefined`.
     */
    function SafeApiCall<T>(apiName: string, apiCall: CallOutcome<T>, fallback: Option<CallOutcome<T>>): (c: SafeCall<T>)
      reads this
      ensures c.apiInvoked <==> Supported(apiName)
      ensures c.fallbackInvoked <==> fallback.Some? && (!Supported(apiName) || apiCall.Threw?)
      ensures Supported(apiName) && apiCall.Returned? ==> c.outcome == apiCall
      ensures c.fallbackInvoked ==> c.outcome == fallback.value
      ensures !c.fallbackInvoked && !(Supported(apiName) && apiCall.Returned?) ==> c.outcome == Returned(None)
    {
      if apiName in apiSupport && apiSupport[apiName] then
        if apiCall.Returned? then SafeCall(apiCall, true, false)
        else if fallback.Some? then SafeCall(fallback.value, true, true)
        else SafeCall(Returned(None), true, false)
      else if fallback.Some? then SafeCall(fallback.value, false, true)
      else SafeCall(Returned(None), false, false)
    }

    /** A guarded call throws only when the fallback it fell back to throws; an API failure never escapes. */
    lemma SafeApiCallContainsFailure<T>(apiName: string, apiCall: CallOutcome<T>, fallback: Option<CallOutcome<T>>)
      ensures SafeApiCall(apiName, apiCall, fallback).outcome.Threw? ==>
        fallback == Some(Threw) && SafeApiCall(apiName, apiCall, fallback).fallbackInvoked
      ensures fallback.None? || fallback.value.Returned? ==> SafeApiCall(apiName, apiCall, fallback).outcome.Returned?
    {
    }
  }
}
