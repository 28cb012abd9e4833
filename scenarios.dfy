/**
 * Concrete runs of the `SettingsBill` model. Most replay a situation of the
 * module's test suite: each builds a fresh bill, drives it through the same
 * calls in the same order and states in its postcondition what the model
 * computes. Where the model (following the code) differs from what the suite
 * expects, the postcondition states the code's value and the comment says so.
 * Two more runs show how an action recorded before any settings behaves.
 */
module Scenarios {
  import opened Wrappers
  import opened JsNumbers
  import opened ActionLog
  import opened Billing

  /** A call recorded before any settings is logged with an undefined cost
      (an sms would be too; any other type is logged at 0). The grand total
      is then NaN, so neither level is reported, even once settings are
      stored, until the log is emptied (see ResetClearsUndefinedCost). */
  method RecordBeforeSettings(t0: int) returns (calls: nat, settings: Settings, grand: JsNumber, critical: bool)
    ensures calls == 1
    ensures settings == Settings(Num(2.35), Num(3.35), Num(30.0), Num(40.0))
    ensures grand == NaN
    ensures !critical
  {
    var bill := new SettingsBill();
    bill.RecordAction("call", t0);
    var recorded := bill.ActionsFor("call");
    calls := |recorded|;
    bill.SetSettings(SettingsInput(2.35, 3.35, 30.0, 40.0));
    settings := bill.GetSettings();
    var totals := bill.GetTotals();
    grand := totals.grandTotal;
    critical := bill.HasReachedCriticalLevel();
  }

  /** Emptying the log also discards an undefined cost: with a call before
      any settings the critical level of 5 is not reported, but after
      `resetButton` a single call at 5 reaches it. */
  method ResetClearsUndefinedCost(t0: int, t1: int) returns (before: bool, after: bool)
    ensures !before && after
  {
    var bill := new SettingsBill();
    assert GrandTotal(bill.actionList) == Num(0.0);
    assert !bill.HasReachedCriticalLevel();
    assert bill.UnitCost("call") == Undefined;
    bill.RecordAction("call", t0);
    assert GrandTotal(bill.actionList) == NaN;
    bill.SetSettings(SettingsInput(2.0, 5.0, 1.0, 5.0));
    before := bill.HasReachedCriticalLevel();
    bill.ResetButton();
    assert bill.criticalLevel == Num(5.0);
    assert bill.UnitCost("call") == Num(5.0);
    assert !bill.HasReachedCriticalLevel();
    bill.RecordAction("call", t1);
    assert GrandTotal(bill.actionList) == Num(5.0);
    after := bill.HasReachedCriticalLevel();
  }

  /** An action of any type other than sms or call, recorded before any
      settings, is logged at cost 0 and leaves the grand total a number. */
  method OtherTypeBeforeSettings(t0: int) returns (logged: nat, grand: JsNumber)
    ensures logged == 1 && grand == Num(0.0)
  {
    var bill := new SettingsBill();
    assert GrandTotal(bill.actionList) == Num(0.0);
    assert !bill.HasReachedCriticalLevel();
    bill.RecordAction("fax", t0);
    logged := |bill.Actions()|;
    grand := bill.ComputeGrandTotal();
  }

  /** One call then one sms, at 3.35 per call and 2.35 per sms. */
  method TotalsAfterOneEach(t0: int, t1: int) returns (totals: Totals)
    ensures totals == Totals(Num(2.35), Num(3.35), Num(5.70))
  {
    var bill := new SettingsBill();
    bill.SetSettings(SettingsInput(2.35, 3.35, 30.0, 40.0));
    assert bill.criticalLevel == Num(40.0);
    assert bill.UnitCost("call") == Num(3.35);
    assert bill.UnitCost("sms") == Num(2.35);
    assert Total(bill.actionList, "sms") == Num(0.0) && Total(bill.actionList, "call") == Num(0.0);
    assert !bill.HasReachedCriticalLevel();
    ghost var log := bill.actionList;
    bill.RecordAction("call", t0);
    TotalAppendOne(log, Action("call", Num(3.35), t0), "sms");
    TotalAppendOne(log, Action("call", Num(3.35), t0), "call");
    assert Total(bill.actionList, "sms") == Num(0.0) && Total(bill.actionList, "call") == Num(3.35);
    assert !bill.HasReachedCriticalLevel();
    log := bill.actionList;
    bill.RecordAction("sms", t1);
    TotalAppendOne(log, Action("sms", Num(2.35), t1), "sms");
    TotalAppendOne(log, Action("sms", Num(2.35), t1), "call");
    assert Total(bill.actionList, "sms") == Num(2.35) && Total(bill.actionList, "call") == Num(3.35);
    totals := bill.GetTotals();
  }

  /** Two calls then two sms under the same settings. */
  method TotalsAfterTwoEach(t0: int, t1: int, t2: int, t3: int) returns (totals: Totals)
    ensures totals == Totals(Num(4.70), Num(6.70), Num(11.40))
  {
    var bill := new SettingsBill();
    bill.SetSettings(SettingsInput(2.35, 3.35, 30.0, 40.0));
    assert bill.criticalLevel == Num(40.0);
    assert bill.UnitCost("call") == Num(3.35);
    assert bill.UnitCost("sms") == Num(2.35);
    assert Total(bill.actionList, "sms") == Num(0.0) && Total(bill.actionList, "call") == Num(0.0);
    assert !bill.HasReachedCriticalLevel();
    ghost var log := bill.actionList;
    bill.RecordAction("call", t0);
    TotalAppendOne(log, Action("call", Num(3.35), t0), "sms");
    TotalAppendOne(log, Action("call", Num(3.35), t0), "call");
    assert Total(bill.actionList, "sms") == Num(0.0) && Total(bill.actionList, "call") == Num(3.35);
    assert !bill.HasReachedCriticalLevel();
    log := bill.actionList;
    bill.RecordAction("call", t1);
    TotalAppendOne(log, Action("call", Num(3.35), t1), "sms");
    TotalAppendOne(log, Action("call", Num(3.35), t1), "call");
    assert Total(bill.actionList, "sms") == Num(0.0) && Total(bill.actionList, "call") == Num(6.70);
    assert !bill.HasReachedCriticalLevel();
    log := bill.actionList;
    bill.RecordAction("sms", t2);
    TotalAppendOne(log, Action("sms", Num(2.35), t2), "sms");
    TotalAppendOne(log, Action("sms", Num(2.35), t2), "call");
    assert Total(bill.actionList, "sms") == Num(2.35) && Total(bill.actionList, "call") == Num(6.70);
    assert !bill.HasReachedCriticalLevel();
    log := bill.actionList;
    bill.RecordAction("sms", t3);
    TotalAppendOne(log, Action("sms", Num(2.35), t3), "sms");
    TotalAppendOne(log, Action("sms", Num(2.35), t3), "call");
    assert Total(bill.actionList, "sms") == Num(4.70) && Total(bill.actionList, "call") == Num(6.70);
    totals := bill.GetTotals();
  }

  /** With 5.00 per call, 2.50 per sms, warning at 5 and critical at 10, a
      call and an sms (7.50) reach the warning level only. */
  method WarningLevelScenario(t0: int, t1: int) returns (warning: bool, critical: bool)
    ensures warning && !critical
  {
    var bill := new SettingsBill();
    bill.SetSettings(SettingsInput(2.50, 5.00, 5.0, 10.0));
    assert bill.warningLevel == Num(5.0) && bill.criticalLevel == Num(10.0);
    assert bill.UnitCost("call") == Num(5.0);
    assert bill.UnitCost("sms") == Num(2.5);
    assert GrandTotal(bill.actionList) == Num(0.0);
    assert !bill.HasReachedCriticalLevel();
    bill.RecordAction("call", t0);
    assert GrandTotal(bill.actionList) == Num(5.0);
    assert !bill.HasReachedCriticalLevel();
    bill.RecordAction("sms", t1);
    assert GrandTotal(bill.actionList) == Num(7.50);
    assert WarningReached(Num(7.50), Num(5.0), Num(10.0));
    warning := bill.HasReachedWarningLevel();
    critical := bill.HasReachedCriticalLevel();
  }

  /** Under the same settings two calls (10.00) reach the critical level, so
      the sms recorded after them is dropped and the log keeps two entries. */
  method CriticalLevelScenario(t0: int, t1: int, t2: int) returns (logged: nat, critical: bool)
    ensures logged == 2 && critical
  {
    var bill := new SettingsBill();
    bill.SetSettings(SettingsInput(2.50, 5.00, 5.0, 10.0));
    assert bill.criticalLevel == Num(10.0);
    assert bill.UnitCost("call") == Num(5.0);
    assert GrandTotal(bill.actionList) == Num(0.0);
    assert !bill.HasReachedCriticalLevel();
    bill.RecordAction("call", t0);
    assert GrandTotal(bill.actionList) == Num(5.0);
    assert !bill.HasReachedCriticalLevel();
    bill.RecordAction("call", t1);
    assert GrandTotal(bill.actionList) == Num(10.0);
    assert bill.HasReachedCriticalLevel();
    bill.RecordAction("sms", t2);
    logged := |bill.Actions()|;
    critical := bill.HasReachedCriticalLevel();
  }

  /** Three calls at 2.25 with no sms: the call total and the total are 6.75. */
  method AccumulatedCalls() returns (total: real, callPart: real, smsPart: real)
    ensures total == 6.75 && callPart == 6.75 && smsPart == 0.0
  {
    var bill := new SettingsBill();
    assert GrandTotal(bill.actionList) == Num(0.0);
    assert !bill.HasReachedCriticalLevel();
    bill.SetCriticalLevel(10.0);
    bill.SetCallCost(2.25);
    bill.SetSmsCost(0.85);
    bill.MakeCall();
    bill.MakeCall();
    bill.MakeCall();
    total := bill.GetTotalCost();
    callPart := bill.GetTotalCallCost();
    smsPart := bill.GetTotalSmsCost();
  }

  /** One call at 1.35 and two sms at 0.85: 1.35 + 1.70 = 3.05. */
  method AccumulatedCallsAndSms() returns (total: real, callPart: real, smsPart: real)
    ensures total == 3.05 && callPart == 1.35 && smsPart == 1.70
  {
    var bill := new SettingsBill();
    assert GrandTotal(bill.actionList) == Num(0.0);
    assert !bill.HasReachedCriticalLevel();
    bill.SetCriticalLevel(10.0);
    bill.SetCallCost(1.35);
    bill.SetSmsCost(0.85);
    bill.MakeCall();
    bill.SendSms();
    bill.SendSms();
    total := bill.GetTotalCost();
    callPart := bill.GetTotalCallCost();
    smsPart := bill.GetTotalSmsCost();
  }

  /** Four calls at 1.35 (5.40), with warning at 5 and critical at 10, give
      the class name "warning". */
  method WarningClassName() returns (name: Option<StatusClass>)
    ensures name == Some(Warning)
    ensures name.Some? && name.value.Name() == "warning"
  {
    var bill := new SettingsBill();
    assert GrandTotal(bill.actionList) == Num(0.0);
    assert !bill.HasReachedCriticalLevel();
    bill.SetCallCost(1.35);
    bill.SetSmsCost(0.85);
    bill.SetWarningLevel(5.0);
    bill.SetCriticalLevel(10.0);
    bill.MakeCall();
    assert bill.callCostTotal == 1.35;
    bill.MakeCall();
    assert bill.callCostTotal == 2.70;
    bill.MakeCall();
    assert bill.callCostTotal == 4.05;
    bill.MakeCall();
    assert bill.GetTotalCost() == 5.40;
    name := bill.TotalClassName();
  }

  /** Four calls at 2.50 (10.00), with warning at 10 and the critical level
      left at its initial 0, give the class name "critical". */
  method CriticalClassName() returns (name: Option<StatusClass>)
    ensures name == Some(Critical)
    ensures name.Some? && name.value.Name() == "critical"
  {
    var bill := new SettingsBill();
    assert GrandTotal(bill.actionList) == Num(0.0);
    assert !bill.HasReachedCriticalLevel();
    bill.SetCallCost(2.50);
    bill.SetSmsCost(0.85);
    bill.SetWarningLevel(10.0);
    bill.MakeCall();
    assert bill.callCostTotal == 2.50;
    bill.MakeCall();
    assert bill.callCostTotal == 5.00;
    bill.MakeCall();
    assert bill.callCostTotal == 7.50;
    bill.MakeCall();
    assert bill.GetTotalCost() == 10.0;
    name := bill.TotalClassName();
  }

  /** Five calls at 2.50 with warning and critical at 10. None of them is
      stopped, because the guard of makeCall looks at the action log (empty
      here), not at the accumulators. */
  method FiveCallsPastCritical() returns (bill: SettingsBill)
    ensures fresh(bill)
    ensures bill.callCostTotal == 12.50 && bill.smsCostTotal == 0.0
    ensures bill.theCallCost == 2.50 && bill.theWarningLevel == 10.0 && bill.theCriticalLevel == 10.0
    ensures !bill.HasReachedCriticalLevel()
  {
    bill := new SettingsBill();
    assert GrandTotal(bill.actionList) == Num(0.0);
    assert !bill.HasReachedCriticalLevel();
    bill.SetCallCost(2.50);
    bill.SetSmsCost(0.85);
    bill.SetWarningLevel(10.0);
    bill.SetCriticalLevel(10.0);
    bill.MakeCall();
    assert bill.callCostTotal == 2.50;
    bill.MakeCall();
    assert bill.callCostTotal == 5.00;
    bill.MakeCall();
    assert bill.callCostTotal == 7.50;
    bill.MakeCall();
    assert bill.callCostTotal == 10.0;
    bill.MakeCall();
    assert bill.callCostTotal == 12.50;
  }

  /** After those five calls the call total is 12.50 rather than the 10 the
      clamp would give, and the class name is "critical". */
  method CriticalDoesNotClampAccumulators() returns (callTotal: real, name: Option<StatusClass>)
    ensures callTotal == 12.50 && name == Some(Critical)
  {
    var bill := FiveCallsPastCritical();
    callTotal := bill.GetTotalCallCost();
    name := bill.TotalClassName();
  }

  /** Raising the critical level to 20 afterwards turns "critical" into
      "warning" without any cost changing; two more calls bring the call
      total to 17.50 rather than 15. */
  method RaisedCriticalLevel() returns (name: Option<StatusClass>, callTotal: real)
    ensures name == Some(Warning) && callTotal == 17.50
  {
    var bill := FiveCallsPastCritical();
    bill.SetCriticalLevel(20.0);
    name := bill.TotalClassName();
    bill.MakeCall();
    bill.MakeCall();
    callTotal := bill.GetTotalCallCost();
  }
}
