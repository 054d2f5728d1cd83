/** The shared confirm-then-delete helper of src/utils/confirmAndDelete.js: a minimum-count
    guard, a confirmation prompt, the deletion callback and the report toast. */
module DeleteGuard {
  import opened Common

  // ---------------------------------------------------------------------------------------
  // Message text
  // ---------------------------------------------------------------------------------------

  /** Upper-casing of one character, for the ASCII letters the labels are written in. */
  function UpperChar(c: char): char
  {
    if 'a' <= c <= 'z' then (c as int - 32) as char else c
  }

  /** The label with its first character upper-cased and the rest as it was. */
  function Capitalize(s: string): (r: string)
    ensures |r| == |s|
    ensures s == [] ==> r == []
    ensures s != [] ==> r[0] == UpperChar(s[0])
    ensures s != [] && 'a' <= s[0] <= 'z' ==> 'A' <= r[0] <= 'Z'
    ensures forall k :: 0 < k < |s| ==> r[k] == s[k]
  {
    if s == [] then [] else [UpperChar(s[0])] + s[1..]
  }

  /** Capitalizing twice is capitalizing once. */
  lemma CapitalizeIdempotent(s: string)
    ensures Capitalize(Capitalize(s)) == Capitalize(s)
  {
    if s != [] {
      assert Capitalize(s)[0] == UpperChar(s[0]);
    }
  }

  function Digit(d: nat): char
    requires d < 10
  {
    ('0' as int + d) as char
  }

  predicate IsDigits(s: string)
  {
    forall k :: 0 <= k < |s| ==> '0' <= s[k] <= '9'
  }

  /** How a template literal renders a non-negative integer count: its decimal digits. */
  function DecimalDigits(n: nat): (d: string)
    ensures |d| >= 1 && IsDigits(d)
    // no leading zero: the only rendering that starts with '0' is the one of zero
    ensures n == 0 ==> d == "0"
    ensures 0 < n ==> d[0] != '0'
  {
    if n < 10 then [Digit(n)] else DecimalDigits(n / 10) + [Digit(n % 10)]
  }

  /** The number a string of decimal digits denotes. */
  function DecimalValue(d: string): nat
    requires IsDigits(d)
  {
    if d == [] then 0 else DecimalValue(d[..|d| - 1]) * 10 + (d[|d| - 1] as int - '0' as int)
  }

  /** The rendered count reads back as the count itself. */
  lemma {:induction false} DecimalRoundTrip(n: nat)
    ensures DecimalValue(DecimalDigits(n)) == n
  {
    var d := DecimalDigits(n);
    if n >= 10 {
      DecimalRoundTrip(n / 10);
      assert d[..|d| - 1] == DecimalDigits(n / 10);
    }
  }

  predicate EndsWith(s: string, suffix: string)
  {
    |suffix| <= |s| && s[|s| - |suffix|..] == suffix
  }

  const GUARD_PREFIX := "\U{274C} You must have at least "

  /** The toast shown when the guard refuses: the minimum, the label, and an "s" when the
      minimum is non-zero. */
  function GuardMessage(protectIfOnly: nat, itemLabel: string): (m: string)
    ensures |m| == |GUARD_PREFIX| + |DecimalDigits(protectIfOnly)| + |itemLabel| + (if protectIfOnly != 0 then 3 else 2)
    ensures m[..|GUARD_PREFIX| + |DecimalDigits(protectIfOnly)|] == GUARD_PREFIX + DecimalDigits(protectIfOnly)
    ensures EndsWith(m, " " + itemLabel + "s.") <==> protectIfOnly != 0
    ensures EndsWith(m, " " + itemLabel + ".") <==> protectIfOnly == 0
  {
    var m := GUARD_PREFIX + DecimalDigits(protectIfOnly) + " " + itemLabel
             + (if protectIfOnly != 0 then "s" else "") + ".";
    GuardMessageEnding(protectIfOnly, itemLabel, m);
    m
  }

  /** The character before " <label>" in a guard message is the last digit, never a space or
      an "s", so the two possible endings exclude each other. */
  lemma GuardMessageEnding(protectIfOnly: nat, itemLabel: string, m: string)
    requires m == GUARD_PREFIX + DecimalDigits(protectIfOnly) + " " + itemLabel
                  + (if protectIfOnly != 0 then "s" else "") + "."
    ensures EndsWith(m, " " + itemLabel + "s.") <==> protectIfOnly != 0
    ensures EndsWith(m, " " + itemLabel + ".") <==> protectIfOnly == 0
  {
    var digits := DecimalDigits(protectIfOnly);
    var plural := " " + itemLabel + "s.";
    var singular := " " + itemLabel + ".";
    assert m[|GUARD_PREFIX| + |digits| - 1] == digits[|digits| - 1];
    if protectIfOnly != 0 {
      assert m[|m| - |plural|..] == plural;
      // "<label>s." and " <label>." differ in how many "s" they hold
      var tail := itemLabel + "s.";
      assert m[|m| - |singular|..] == tail;
      assert multiset(tail)['s'] == multiset(itemLabel)['s'] + 1;
      assert multiset(singular)['s'] == multiset(itemLabel)['s'];
    } else {
      assert m[|m| - |singular|..] == singular;
      assert m[|m| - |plural|] == digits[|digits| - 1];
      assert plural[0] == ' ';
    }
  }

  function ConfirmQuestion(itemLabel: string): string
  {
    "Are you sure you want to delete this " + itemLabel + "?"
  }

  function DeletedMessage(itemLabel: string): string
  {
    "\U{1F5D1}\U{FE0F} " + Capitalize(itemLabel) + " deleted"
  }

  // ---------------------------------------------------------------------------------------
  // The guard
  // ---------------------------------------------------------------------------------------

  /** The toasts in an effect log, in order. */
  function Toasts(t: seq<Effect>): seq<string>
  {
    if t == [] then []
    else (if t[0].Toast? then [t[0].message] else []) + Toasts(t[1..])
  }

  /** The confirmation prompts in an effect log, in order. */
  function Prompts(t: seq<Effect>): seq<string>
  {
    if t == [] then []
    else (if t[0].ConfirmPrompt? then [t[0].question] else []) + Prompts(t[1..])
  }

  /** How many times the deletion callback ran. */
  function Calls(t: seq<Effect>): nat
  {
    if t == [] then 0 else (if t[0].DeleteCallback? then 1 else 0) + Calls(t[1..])
  }

  /** Everything one call of `confirmAndDelete` shows and does, given the operator's answer
      to the prompt (consulted only if the prompt is shown). */
  function GuardEffects(itemLabel: string, protectIfOnly: nat, total: nat, confirmAnswer: bool): (t: seq<Effect>)
    // at or below the minimum: exactly one "must have at least" toast
    ensures Toasts(t) == if total <= protectIfOnly then [GuardMessage(protectIfOnly, itemLabel)]
                         else if confirmAnswer then [DeletedMessage(itemLabel)] else []
    // the prompt is shown once exactly when the guard lets the deletion through
    ensures Prompts(t) == if protectIfOnly < total then [ConfirmQuestion(itemLabel)] else []
    // the callback runs once exactly when the guard passes and the operator confirms
    ensures Calls(t) == if protectIfOnly < total && confirmAnswer then 1 else 0
    // ... and is followed by the report toast, whatever the callback did
    ensures Calls(t) == 1 ==> |t| >= 2 && t[|t| - 2] == DeleteCallback
                              && t[|t| - 1] == Toast(DeletedMessage(itemLabel))
  {
    if total <= protectIfOnly then [Toast(GuardMessage(protectIfOnly, itemLabel))]
    else if !confirmAnswer then [ConfirmPrompt(ConfirmQuestion(itemLabel))]
    else
      ConfirmedTrace(ConfirmQuestion(itemLabel), DeletedMessage(itemLabel));
      [ConfirmPrompt(ConfirmQuestion(itemLabel)), DeleteCallback, Toast(DeletedMessage(itemLabel))]
  }

  /** The projections of the trace of a confirmed deletion. */
  lemma ConfirmedTrace(question: string, report: string)
    ensures Toasts([ConfirmPrompt(question), DeleteCallback, Toast(report)]) == [report]
    ensures Prompts([ConfirmPrompt(question), DeleteCallback, Toast(report)]) == [question]
    ensures Calls([ConfirmPrompt(question), DeleteCallback, Toast(report)]) == 1
  {
    var last := [Toast(report)];
    assert last[1..] == [];
    assert Toasts(last) == [report] && Prompts(last) == [] && Calls(last) == 0;
    var tail := [DeleteCallback] + last;
    assert tail[1..] == last;
    assert Toasts(tail) == [report] && Prompts(tail) == [] && Calls(tail) == 1;
    var t := [ConfirmPrompt(question)] + tail;
    assert t[1..] == tail;
    assert t == [ConfirmPrompt(question), DeleteCallback, Toast(report)];
  }

  /** `confirmAndDelete`, with its default arguments. It reports whether it invoked the
      callback; the caller performs its own deletion at that point. */
  method ConfirmAndDelete(confirmAnswer: bool, itemLabel: string := "item",
                          protectIfOnly: nat := 0, total: nat := 1)
    returns (deleteCalled: bool, trace: seq<Effect>)
    ensures trace == GuardEffects(itemLabel, protectIfOnly, total, confirmAnswer)
    ensures deleteCalled <==> Calls(trace) == 1
  {
    if total <= protectIfOnly {
      trace := [Toast(GuardMessage(protectIfOnly, itemLabel))];
      return false, trace;
    }
    trace := [ConfirmPrompt(ConfirmQuestion(itemLabel))];
    if !confirmAnswer {
      return false, trace;
    }
    trace := trace + [DeleteCallback];
    deleteCalled := true;
    trace := trace + [Toast(DeletedMessage(itemLabel))];
  }

  /** With the default minimum and total the guard always shows the prompt. */
  lemma DefaultsNeverBlock(itemLabel: string, confirmAnswer: bool)
    ensures Prompts(GuardEffects(itemLabel, 0, 1, confirmAnswer)) == [ConfirmQuestion(itemLabel)]
  {
  }

  /** With a minimum of zero the guard refuses only an empty collection. */
  lemma ZeroMinimumBlocksOnlyEmpty(itemLabel: string, total: nat, confirmAnswer: bool)
    ensures Prompts(GuardEffects(itemLabel, 0, total, confirmAnswer)) == [] <==> total == 0
  {
  }
}
