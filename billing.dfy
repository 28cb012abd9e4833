/**
 * The `SettingsBill` object: one mutable record holding two independent
 * billing models.
 *
 * The action-log model stores four settings (set together by `setSettings`)
 * and a log of recorded actions; totals are sums over the log, and the grand
 * total is classified against the warning and critical levels.
 *
 * The accumulator model has its own four settings (each with a setter and a
 * getter) and two running totals that `makeCall` and `sendSms` increase.
 * Their guard is the action-log critical check, not the accumulators' own
 * critical level.
 */
module Billing {
  import opened Wrappers
  import opened JsNumbers
  import opened ActionLog

  /** What a caller passes to `setSettings`, already as numbers. */
  datatype SettingsInput = SettingsInput(smsCost: real, callCost: real, warningLevel: real, criticalLevel: real)

  /** What `getSettings` returns: each field is `undefined` until first set. */
  datatype Settings = Settings(smsCost: JsNumber, callCost: JsNumber, warningLevel: JsNumber, criticalLevel: JsNumber)

  /** What `totals` returns, as exact sums (before any display formatting). */
  datatype Totals = Totals(smsTotal: JsNumber, callTotal: JsNumber, grandTotal: JsNumber)

  /** `hasReachedCriticalLevel` on explicit values: total >= critical. */
  function CriticalReached(total: JsNumber, critical: JsNumber): bool
  {
    AtLeast(total, critical)
  }

  /** `hasReachedWarningLevel` on explicit values: warning <= total < critical. */
  function WarningReached(total: JsNumber, warning: JsNumber, critical: JsNumber): (r: bool)
    ensures r ==> !CriticalReached(total, critical)
  {
    AtLeast(total, warning) && Below(total, critical)
  }

  /** On numbers the two levels are exactly the half-open bands they describe,
      and they never hold together. */
  lemma LevelsOnNumbers(total: real, warning: real, critical: real)
    ensures CriticalReached(Num(total), Num(critical)) <==> total >= critical
    ensures WarningReached(Num(total), Num(warning), Num(critical)) <==> warning <= total < critical
    ensures !(WarningReached(Num(total), Num(warning), Num(critical)) && CriticalReached(Num(total), Num(critical)))
  {
  }

  /** At a total exactly equal to the critical level, critical holds and
      warning does not, whatever the warning level. */
  lemma LevelsAtCritical(level: real, warning: JsNumber)
    ensures CriticalReached(Num(level), Num(level))
    ensures !WarningReached(Num(level), warning, Num(level))
  {
  }

  /** While the critical level is unset, or the total has become `NaN`,
      neither level is reported. */
  lemma LevelsNotNumbers(total: JsNumber, warning: JsNumber, critical: JsNumber)
    requires !total.Num? || critical.Undefined?
    ensures !CriticalReached(total, critical) && !WarningReached(total, warning, critical)
  {
  }

  /** The guard of `makeCall` and `sendSms` on an empty action log: it holds
      only when a critical level of at most 0 has been set, whatever the
      accumulators hold. */
  lemma {:induction false} GuardOnEmptyLog(critical: JsNumber)
    ensures CriticalReached(GrandTotal([]), critical) <==> critical.Num? && critical.value <= 0.0
  {
    assert Total([], "sms") == Num(0.0);
    assert Total([], "call") == Num(0.0);
  }

  /** The class names `totalClassName` can return. */
  datatype StatusClass = Warning | Critical {
    /** The name as the view receives it. */
    function Name(): string
    {
      if Critical? then "critical" else "warning"
    }
  }

  /** `totalClassName` on explicit values: "critical" takes precedence over
      "warning"; below both levels there is no class name. */
  function ClassName(total: real, warning: real, critical: real): (r: Option<StatusClass>)
    ensures r == Some(Critical) <==> total >= critical
    ensures r == Some(Warning) <==> warning <= total < critical
    ensures r == None <==> total < warning && total < critical
  {
    if total >= critical then Some(Critical)
    else if total >= warning then Some(Warning)
    else None
  }

  /** The severity order of class names: none, then warning, then critical. */
  function Severity(name: Option<StatusClass>): nat
  {
    match name
    case None => 0
    case Some(Warning) => 1
    case Some(Critical) => 2
  }

  /** Whatever the two levels, a larger total never gets a less severe class
      name. */
  lemma ClassNameMonotone(t1: real, t2: real, warning: real, critical: real)
    requires t1 <= t2
    ensures Severity(ClassName(t1, warning, critical)) <= Severity(ClassName(t2, warning, critical))
  {
  }

  /** The setters accept a warning level above the critical level; then no
      total is ever classed "warning": it is "critical" or has no class name. */
  lemma ClassNameWarningAboveCritical(total: real, warning: real, critical: real)
    requires warning > critical
    ensures ClassName(total, warning, critical) != Some(Warning)
    ensures ClassName(total, warning, critical) == if total >= critical then Some(Critical) else None
  {
  }

  /** Raising the critical level above the total re-classifies it without any
      cost changing: a critical total at or above the warning level becomes a
      warning. */
  lemma ClassNameRaiseCritical(total: real, warning: real, critical: real, raised: real)
    requires warning <= total && critical <= total < raised
    ensures ClassName(total, warning, critical) == Some(Critical)
    ensures ClassName(total, warning, raised) == Some(Warning)
  {
  }

  class SettingsBill {
    // settings of the action-log model
    var smsCost: JsNumber
    var callCost: JsNumber
    var warningLevel: JsNumber
    var criticalLevel: JsNumber

    // settings of the accumulator model
    var theCallCost: real
    var theSmsCost: real
    var theWarningLevel: real
    var theCriticalLevel: real

    // running totals of the accumulator model
    var callCostTotal: real
    var smsCostTotal: real

    var actionList: seq<Action>

    /** A fresh bill: settings unset, accumulator settings and totals 0, empty log. */
    constructor ()
      ensures GetSettings() == Settings(Undefined, Undefined, Undefined, Undefined)
      ensures theCallCost == 0.0 && theSmsCost == 0.0 && theWarningLevel == 0.0 && theCriticalLevel == 0.0
      ensures callCostTotal == 0.0 && smsCostTotal == 0.0
      ensures actionList == []
    {
      smsCost, callCost, warningLevel, criticalLevel := Undefined, Undefined, Undefined, Undefined;
      theCallCost, theSmsCost, theWarningLevel, theCriticalLevel := 0.0, 0.0, 0.0, 0.0;
      callCostTotal, smsCostTotal := 0.0, 0.0;
      actionList := [];
    }

    // ---------------------------------------------------------------
    // Action-log model
    // ---------------------------------------------------------------

    /** Empties the action log; settings and accumulators are untouched. */
    method ResetButton()
      modifies this`actionList
      ensures actionList == []
      ensures forall kind :: Total(actionList, kind) == Num(0.0)
      ensures GrandTotal(actionList) == Num(0.0)
    {
      actionList := [];
    }

    /** Stores all four settings at once; the log and the accumulator model are untouched. */
    method SetSettings(s: SettingsInput)
      modifies this`smsCost, this`callCost, this`warningLevel, this`criticalLevel
      ensures GetSettings() == Settings(Num(s.smsCost), Num(s.callCost), Num(s.warningLevel), Num(s.criticalLevel))
    {
      smsCost := Num(s.smsCost);
      callCost := Num(s.callCost);
      warningLevel := Num(s.warningLevel);
      criticalLevel := Num(s.criticalLevel);
    }

    function GetSettings(): Settings
      reads this
    {
      Settings(smsCost, callCost, warningLevel, criticalLevel)
    }

    /** The cost recorded for an action of type `kind` under the current settings. */
    function UnitCost(kind: string): JsNumber
      reads this
    {
      if kind == "sms" then smsCost else if kind == "call" then callCost else Num(0.0)
    }

    function HasReachedCriticalLevel(): bool
      reads this`actionList, this`criticalLevel
    {
      CriticalReached(GrandTotal(actionList), criticalLevel)
    }

    function HasReachedWarningLevel(): (r: bool)
      reads this
      ensures r ==> !HasReachedCriticalLevel()
    {
      WarningReached(GrandTotal(actionList), warningLevel, criticalLevel)
    }

    /** Appends one entry costed from the settings, unless the critical level
        has been reached, in which case nothing changes. Only the log changes. */
    method RecordAction(kind: string, timestamp: int)
      modifies this`actionList
      ensures old(HasReachedCriticalLevel()) ==> actionList == old(actionList)
      ensures !old(HasReachedCriticalLevel()) ==>
                actionList == old(actionList) + [Action(kind, UnitCost(kind), timestamp)]
      ensures !old(HasReachedCriticalLevel()) ==>
                GrandTotal(actionList) ==
                  if kind == "sms" || kind == "call" then Plus(old(GrandTotal(actionList)), UnitCost(kind))
                  else old(GrandTotal(actionList))
    {
      if !HasReachedCriticalLevel() {
        var before := actionList;
        var entry := Action(kind, UnitCost(kind), timestamp);
        actionList := actionList + [entry];
        GrandTotalAppendOne(before, entry);
      }
    }

    function Actions(): seq<Action>
      reads this
    {
      actionList
    }

    /** The entries of the log whose type is `kind`, in log order. */
    method ActionsFor(kind: string) returns (filtered: seq<Action>)
      ensures filtered == Filter(actionList, kind)
    {
      filtered := [];
      var index := 0;
      while index < |actionList|
        invariant 0 <= index <= |actionList|
        invariant filtered == Filter(actionList[..index], kind)
      {
        var action := actionList[index];
        FilterAppendOne(actionList[..index], action, kind);
        assert actionList[..index + 1] == actionList[..index] + [action];
        if action.kind == kind {
          filtered := filtered + [action];
        }
        index := index + 1;
      }
      assert actionList[..index] == actionList;
    }

    /** The sum of the costs of the entries of type `kind`. */
    method GetTotal(kind: string) returns (total: JsNumber)
      ensures total == Total(actionList, kind)
    {
      total := Num(0.0);
      var index := 0;
      while index < |actionList|
        invariant 0 <= index <= |actionList|
        invariant total == Total(actionList[..index], kind)
      {
        var action := actionList[index];
        TotalAppendOne(actionList[..index], action, kind);
        assert actionList[..index + 1] == actionList[..index] + [action];
        if action.kind == kind {
          total := Plus(total, action.cost);
        }
        index := index + 1;
      }
      assert actionList[..index] == actionList;
    }

    /** The sms total plus the call total. */
    method ComputeGrandTotal() returns (total: JsNumber)
      ensures total == GrandTotal(actionList)
    {
      var sms := GetTotal("sms");
      var call := GetTotal("call");
      total := Plus(sms, call);
    }

    /** The sms, call and grand totals, each computed from the unrounded sums. */
    method GetTotals() returns (t: Totals)
      ensures t.smsTotal == Total(actionList, "sms")
      ensures t.callTotal == Total(actionList, "call")
      ensures t.grandTotal == Plus(t.smsTotal, t.callTotal)
    {
      var sms := GetTotal("sms");
      var call := GetTotal("call");
      var grand := ComputeGrandTotal();
      t := Totals(sms, call, grand);
    }

    // ---------------------------------------------------------------
    // Accumulator model
    // ---------------------------------------------------------------

    method SetCallCost(cost: real)
      modifies this`theCallCost
      ensures HasReachedCriticalLevel() == old(HasReachedCriticalLevel())
      ensures GetCallCost() == cost
    {
      theCallCost := cost;
    }

    function GetCallCost(): real
      reads this
    {
      theCallCost
    }

    method SetSmsCost(cost: real)
      modifies this`theSmsCost
      ensures HasReachedCriticalLevel() == old(HasReachedCriticalLevel())
      ensures GetSmsCost() == cost
    {
      theSmsCost := cost;
    }

    function GetSmsCost(): real
      reads this
    {
      theSmsCost
    }

    method SetWarningLevel(level: real)
      modifies this`theWarningLevel
      ensures HasReachedCriticalLevel() == old(HasReachedCriticalLevel())
      ensures GetWarningLevel() == level
    {
      theWarningLevel := level;
    }

    function GetWarningLevel(): real
      reads this
    {
      theWarningLevel
    }

    method SetCriticalLevel(level: real)
      modifies this`theCriticalLevel
      ensures HasReachedCriticalLevel() == old(HasReachedCriticalLevel())
      ensures GetCriticalLevel() == level
    {
      theCriticalLevel := level;
    }

    function GetCriticalLevel(): real
      reads this
    {
      theCriticalLevel
    }

    function GetTotalCost(): real
      reads this
    {
      callCostTotal + smsCostTotal
    }

    function GetTotalCallCost(): real
      reads this
    {
      callCostTotal
    }

    function GetTotalSmsCost(): real
      reads this
    {
      smsCostTotal
    }

    /** Adds the call cost to the call total unless the action-log critical
        level has been reached; only the call total changes. */
    method MakeCall()
      modifies this`callCostTotal
      ensures HasReachedCriticalLevel() == old(HasReachedCriticalLevel())
      ensures callCostTotal == old(callCostTotal) + if HasReachedCriticalLevel() then 0.0 else theCallCost
    {
      if !HasReachedCriticalLevel() {
        callCostTotal := callCostTotal + theCallCost;
      }
    }

    /** Adds the sms cost to the sms total unless the action-log critical
        level has been reached; only the sms total changes. */
    method SendSms()
      modifies this`smsCostTotal
      ensures HasReachedCriticalLevel() == old(HasReachedCriticalLevel())
      ensures smsCostTotal == old(smsCostTotal) + if HasReachedCriticalLevel() then 0.0 else theSmsCost
    {
      if !HasReachedCriticalLevel() {
        smsCostTotal := smsCostTotal + theSmsCost;
      }
    }

    function TotalClassName(): Option<StatusClass>
      reads this
    {
      ClassName(GetTotalCost(), GetWarningLevel(), GetCriticalLevel())
    }
  }
}
