/**
 * reconcileDelete and cleanupAttempts (internal/controller/stripepaymentmethod_controller.go:304-386):
 * cancel and detach on Stripe, count the failed attempts in an annotation, and give up at twelve.
 */
module Cleanup {
  import opened Wrappers

  const MAX_ATTEMPTS := 12
  const INT_MAX := 0x7FFF_FFFF_FFFF_FFFF
  const INT_MIN := -0x8000_0000_0000_0000

  /** Go's int is 64 bits wide here, and its increment wraps. */
  newtype Int = n: int | INT_MIN <= n <= INT_MAX

  function Increment(n: Int): Int {
    if n as int == INT_MAX then INT_MIN as Int else n + 1
  }

  // ----- the counter: fmt.Sprintf("%d") and fmt.Sscanf("%d") -----

  function Digit(d: nat): char
    requires d < 10
  {
    '0' + (d as char)
  }

  predicate IsDigit(c: char) {
    '0' <= c <= '9'
  }

  function DigitValue(c: char): nat
    requires IsDigit(c)
  {
    (c - '0') as nat
  }

  function PrintNat(n: nat): string {
    if n < 10 then [Digit(n)] else PrintNat(n / 10) + [Digit(n % 10)]
  }

  function Print(n: Int): string {
    if n < 0 then "-" + PrintNat(-(n as int)) else PrintNat(n as int)
  }

  /** The longest prefix of digits. */
  function Digits(s: string): (d: string)
    ensures forall i :: 0 <= i < |d| ==> IsDigit(d[i])
  {
    if s != [] && IsDigit(s[0]) then [s[0]] + Digits(s[1..]) else []
  }

  function ValueOf(d: string): nat
    requires forall i :: 0 <= i < |d| ==> IsDigit(d[i])
  {
    if d == [] then 0 else 10 * ValueOf(d[..|d| - 1]) + DigitValue(d[|d| - 1])
  }

  function SkipBlanks(s: string): string {
    if s != [] && (s[0] == ' ' || s[0] == '\t') then SkipBlanks(s[1..]) else s
  }

  /** No digits, or a value out of range, leaves the count at zero; what follows the digits is ignored. */
  function Parse(v: string): Int {
    var s := SkipBlanks(v);
    var signed := s != [] && (s[0] == '+' || s[0] == '-');
    var d := Digits(if signed then s[1..] else s);
    var n := if signed && s[0] == '-' then -(ValueOf(d) as int) else ValueOf(d);
    if d == [] || !(INT_MIN <= n <= INT_MAX) then 0 else n as Int
  }

  lemma {:induction false} DigitsOfPrinted(n: nat)
    ensures Digits(PrintNat(n)) == PrintNat(n) && ValueOf(PrintNat(n)) == n && PrintNat(n) != []
    ensures IsDigit(PrintNat(n)[0])
  {
    if n >= 10 {
      var p := PrintNat(n / 10);
      DigitsOfPrinted(n / 10);
      DigitsSnoc(p, Digit(n % 10));
      assert PrintNat(n)[..|p|] == p;
    } else {
      assert [Digit(n)][1..] == [] && [Digit(n)][..0] == [];
    }
  }

  lemma {:induction false} DigitsSnoc(p: string, c: char)
    requires Digits(p) == p && IsDigit(c)
    ensures Digits(p + [c]) == p + [c]
  {
    if p == [] {
      assert [c][1..] == [];
    } else {
      assert p == [p[0]] + Digits(p[1..]) && Digits(p[1..]) == p[1..];
      DigitsSnoc(p[1..], c);
      assert (p + [c])[1..] == p[1..] + [c];
    }
  }

  /** The counter survives being written to the annotation and read back. */
  lemma CounterRoundTrip(n: Int)
    ensures Parse(Print(n)) == n
  {
    var m: nat := if n < 0 then -(n as int) else n as int;
    DigitsOfPrinted(m);
    if n < 0 { assert Print(n)[1..] == PrintNat(m); }
  }

  // ----- one pass -----

  datatype SetupIntent = SetupIntent(id: string, status: string)

  /** What the API server stores of a StripePaymentMethod that is being deleted. */
  datatype Stored = Stored(
    finalizer: bool, attempts: string, setupIntent: Option<SetupIntent>, paymentMethodId: string,
    cleanupIncomplete: bool)

  /** The answers a pass gets. */
  datatype Answers = Answers(configOk: bool, cancelOk: bool, detachOk: bool, statusPatchOk: bool, updateOk: bool)

  predicate NeedsCancel(si: Option<SetupIntent>) {
    si.Some? && si.value.id != "" && si.value.status != "succeeded" && si.value.status != "canceled"
  }

  /** Cancel, when needed, and detach both came back clean; detaching nothing is clean. */
  predicate Clean(s: Stored, a: Answers) {
    a.configOk && (NeedsCancel(s.setupIntent) ==> a.cancelOk) && (s.paymentMethodId != "" ==> a.detachOk)
  }

  function Attempts(s: Stored): Int {
    if s.attempts == "" then 0 else Parse(s.attempts)
  }

  function Pass(s: Stored, a: Answers): Stored {
    if !s.finalizer then s
    else if Clean(s, a) then (if a.updateOk then s.(finalizer := false) else s)
    else
      var attempts := Increment(Attempts(s));
      if attempts as int >= MAX_ATTEMPTS then
        s.(finalizer := !a.updateOk, cleanupIncomplete := s.cleanupIncomplete || a.statusPatchOk)
      else if a.updateOk then s.(attempts := Print(attempts))
      else s
  }

  /** The object as the API server stores it; the pass works on its own copy. */
  class StripePaymentMethod {
    var stored: Stored

    method ReconcileDelete(answers: Answers)
      modifies this
      ensures stored == Pass(old(stored), answers)
      ensures old(stored.finalizer) ==>
        var was := old(stored);
        (!stored.finalizer <==>
          && answers.updateOk
          && (|| 11 <= Attempts(was) as int < 0x7FFF_FFFF_FFFF_FFFF
              || (&& answers.configOk
                  && (was.paymentMethodId != "" ==> answers.detachOk)
                  && ((was.setupIntent.Some? && was.setupIntent.value.id != "" &&
                      was.setupIntent.value.status !in {"succeeded", "canceled"}) ==> answers.cancelOk))))
    {
      var spm := stored;
      if !spm.finalizer { return; }
      var attempts := if spm.attempts == "" then 0 else Parse(spm.attempts);
      var failed := false;
      if !answers.configOk {
        failed := true;
      } else {
        if NeedsCancel(spm.setupIntent) && !answers.cancelOk { failed := true; }
        if !failed && spm.paymentMethodId != "" && !answers.detachOk { failed := true; }
      }
      if !failed {
        spm := spm.(finalizer := false);
        if answers.updateOk { stored := spm; }
        return;
      }
      attempts := Increment(attempts);
      if attempts as int >= MAX_ATTEMPTS {
        if answers.statusPatchOk {
          stored := stored.(cleanupIncomplete := true);
          spm := stored;
        }
        spm := spm.(finalizer := false);
        if answers.updateOk { stored := spm; }
        return;
      }
      spm := spm.(attempts := Print(attempts));
      if answers.updateOk { stored := spm; }
    }
  }

  // ----- any number of passes -----

  function Passes(s: Stored, answers: seq<Answers>): Stored {
    if answers == [] then s
    else Pass(Passes(s, answers[..|answers| - 1]), answers[|answers| - 1])
  }

  /** The passes whose object Update succeeded. */
  function Updates(answers: seq<Answers>): nat {
    if answers == [] then 0 else
    Updates(answers[..|answers| - 1]) + (if answers[|answers| - 1].updateOk then 1 else 0)
  }

  /** max(1, 12 - n) */
  function Bound(n: Int): (bound: nat)
    ensures n < 12 ==> bound == 12 - n as int
    ensures n >= 12 ==> bound == 1
  {
    if n as int >= MAX_ATTEMPTS - 1 then 1 else MAX_ATTEMPTS - (n as int)
  }

  /** While the finalizer is there, every successful update has counted one attempt. */
  lemma {:induction false} AttemptsCounted(s: Stored, answers: seq<Answers>)
    requires s.finalizer && Attempts(s) as int != INT_MAX
    ensures var s', u := Passes(s, answers), Updates(answers);
      s'.finalizer ==> Attempts(s') as int == Attempts(s) as int + u && u < Bound(Attempts(s))
  {
    if answers != [] {
      var before := answers[..|answers| - 1];
      AttemptsCounted(s, before);
      var s1 := Passes(s, before);
      if s1.finalizer && Attempts(s1) as int != INT_MAX {
        CounterRoundTrip(Increment(Attempts(s1)));
        PrintNotEmpty(Increment(Attempts(s1)));
      }
    }
  }

  lemma PrintNotEmpty(n: Int)
    ensures Print(n) != ""
  {
    DigitsOfPrinted(if n < 0 then -(n as int) else n as int);
  }

  /** Deletion ends: whatever Stripe or the config answer, the bound on successful updates is enough. */
  lemma FinalizerGone(s: Stored, answers: seq<Answers>)
    requires Attempts(s) as int != 0x7FFF_FFFF_FFFF_FFFF && Updates(answers) >= Bound(Attempts(s))
    ensures !Passes(s, answers).finalizer
  {
    if s.finalizer { AttemptsCounted(s, answers); } else { NeverBack(s, answers); }
  }

  lemma {:induction false} NeverBack(s: Stored, answers: seq<Answers>)
    requires !s.finalizer
    ensures Passes(s, answers) == s
  {
    if answers != [] { NeverBack(s, answers[..|answers| - 1]); }
  }

  const ALL_FAIL := Answers(false, false, false, false, true)

  /** At the largest count the increment wraps around, and the pass that should give up starts over. */
  lemma WrapsAround(s: Stored)
    requires s.finalizer && Attempts(s) as int == 0x7FFF_FFFF_FFFF_FFFF
    ensures Updates([ALL_FAIL]) == Bound(Attempts(s)) && Passes(s, [ALL_FAIL]).finalizer
  {
    assert [ALL_FAIL][..0] == [];
    assert Updates([ALL_FAIL][..0]) == 0 && Passes(s, [ALL_FAIL][..0]) == s;
  }

  /** Exactly when max(1, 12 - n) successful updates always suffice: when the count can still be incremented. */
  lemma BoundHoldsIff(s: Stored)
    requires s.finalizer
    ensures (forall answers :: Updates(answers) >= Bound(Attempts(s)) ==> !Passes(s, answers).finalizer)
              <==> Attempts(s) as int != 0x7FFF_FFFF_FFFF_FFFF
  {
    if Attempts(s) as int != INT_MAX {
      forall answers | Updates(answers) >= Bound(Attempts(s)) ensures !Passes(s, answers).finalizer {
        FinalizerGone(s, answers);
      }
    } else {
      WrapsAround(s);
    }
  }

  /**
   * A pass removes the finalizer exactly when its update succeeds and either the attempt counts as
   * the twelfth or a later one, or everything came back clean: the configuration, the detach of a
   * card that is recorded, and the cancel of a SetupIntent that can still be canceled.
   */
  lemma RemovedIff(s: Stored, a: Answers)
    requires s.finalizer
    ensures !Pass(s, a).finalizer <==>
              && a.updateOk
              && (|| 11 <= Attempts(s) as int < 0x7FFF_FFFF_FFFF_FFFF
                  || (&& a.configOk
                      && (s.paymentMethodId != "" ==> a.detachOk)
                      && ((s.setupIntent.Some? && s.setupIntent.value.id != "" &&
                          s.setupIntent.value.status !in {"succeeded", "canceled"}) ==> a.cancelOk)))
  {}

  function Failures(n: nat): (answers: seq<Answers>)
    ensures |answers| == n && forall i :: 0 <= i < n ==> answers[i] == ALL_FAIL
  {
    seq(n, i => ALL_FAIL)
  }

  /** Without a count so far, it is the twelfth failing pass in a row that gives up. */
  lemma {:induction false} GivesUpAtTwelfth(s: Stored, n: nat)
    requires s.finalizer && s.attempts == ""
    ensures Passes(s, Failures(n)).finalizer <==> n < 12
    ensures n < 12 ==> Attempts(Passes(s, Failures(n))) as int == n
  {
    if n > 0 {
      var before := Failures(n - 1);
      assert Failures(n)[..n - 1] == before;
      GivesUpAtTwelfth(s, n - 1);
      if n <= 12 { RemovedIff(Passes(s, before), ALL_FAIL); }
      if n < 12 {
        CounterRoundTrip(Increment(Attempts(Passes(s, before))));
        PrintNotEmpty(Increment(Attempts(Passes(s, before))));
      }
    }
  }

  /** The object records the failed cleanup exactly when a pass gives up and its status patch succeeds. */
  lemma RecordsGivingUpIff(s: Stored, a: Answers)
    requires s.finalizer && !s.cleanupIncomplete
    ensures Pass(s, a).cleanupIncomplete <==>
              && 11 <= Attempts(s) as int < 0x7FFF_FFFF_FFFF_FFFF && a.statusPatchOk
              && (|| !a.configOk
                  || (s.paymentMethodId != "" && !a.detachOk)
                  || (s.setupIntent.Some? && s.setupIntent.value.id != "" &&
                      s.setupIntent.value.status !in {"succeeded", "canceled"} && !a.cancelOk))
  {}

  /** Before the count reaches twelve, the finalizer goes only through a pass in which nothing failed. */
  lemma {:induction false} EarlyOnlyWhenClean(s: Stored, answers: seq<Answers>)
    requires s.finalizer && Attempts(s) as int + Updates(answers) < 12
    requires !Passes(s, answers).finalizer
    ensures exists i ::
              && 0 <= i < |answers| && Passes(s, answers[..i]).finalizer
              && answers[i].configOk && answers[i].updateOk
              && (s.paymentMethodId != "" ==> answers[i].detachOk)
              && ((s.setupIntent.Some? && s.setupIntent.value.id != "" &&
                  s.setupIntent.value.status !in {"succeeded", "canceled"}) ==> answers[i].cancelOk)
  {
    var n := |answers| - 1;
    var before := answers[..n];
    SameObject(s, before);
    if Passes(s, before).finalizer {
      AttemptsCounted(s, before);
      RemovedIff(Passes(s, before), answers[n]);
    } else {
      EarlyOnlyWhenClean(s, before);
      var i :|
        && 0 <= i < n && Passes(s, before[..i]).finalizer
        && before[i].configOk && before[i].updateOk
        && (s.paymentMethodId != "" ==> before[i].detachOk)
        && ((s.setupIntent.Some? && s.setupIntent.value.id != "" &&
            s.setupIntent.value.status !in {"succeeded", "canceled"}) ==> before[i].cancelOk);
      assert before[..i] == answers[..i];
    }
  }

  /** Cleaning up never changes what there is to clean up. */
  lemma {:induction false} SameObject(s: Stored, answers: seq<Answers>)
    ensures Passes(s, answers).setupIntent == s.setupIntent
    ensures Passes(s, answers).paymentMethodId == s.paymentMethodId
  {
    if answers != [] { SameObject(s, answers[..|answers| - 1]); }
  }

  /** One clean pass is enough: the first whose calls and update succeed ends the deletion. */
  lemma {:induction false} CleanPassEnds(s: Stored, answers: seq<Answers>, i: nat)
    requires i < |answers| && answers[i].configOk && answers[i].updateOk
    requires s.paymentMethodId != "" ==> answers[i].detachOk
    requires (s.setupIntent.Some? && s.setupIntent.value.id != "" &&
               s.setupIntent.value.status !in {"succeeded", "canceled"}) ==> answers[i].cancelOk
    ensures !Passes(s, answers).finalizer
  {
    var before := answers[..|answers| - 1];
    if i < |before| {
      CleanPassEnds(s, before, i);
    } else {
      SameObject(s, before);
      if Passes(s, before).finalizer { RemovedIff(Passes(s, before), answers[i]); }
    }
  }
}
