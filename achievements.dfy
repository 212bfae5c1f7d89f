/** src/hooks/useAchievements.ts: the hook remembers, per instance, which
    achievement codes it has already tried, and tries the first-login and
    the saver achievements in that order. `achievementService.unlock` is an
    oracle: each call's reply is a parameter. */
module Achievements {
  import opened Wrappers
  import opened Text
  import opened Domain

  const FirstLogin := "FIRST_LOGIN"
  const SaverLevel1 := "SAVER_Level_1"

  /** How an `unlock` call ends: a record, `null`, or a thrown error (which
      ends the whole check, left unhandled). */
  datatype UnlockReply = Unlocked | NotUnlocked | Failed

  /** One transaction that counts as saving. */
  predicate IsSaving(t: Transaction) {
    t.category == "Investimento" || t.category == "Investimentos" || Contains(ToLowerAscii(t.description), "guard")
  }

  /** `transactions.some(...)`. */
  predicate HasSavings(txs: seq<Transaction>) {
    if txs == [] then false else IsSaving(txs[0]) || HasSavings(txs[1..])
  }

  /** `hasSavings` holds exactly when some transaction counts as saving. */
  lemma {:induction false} HasSavingsIff(txs: seq<Transaction>)
    ensures HasSavings(txs) <==> exists i :: 0 <= i < |txs| && IsSaving(txs[i])
  {
    if txs != [] {
      HasSavingsIff(txs[1..]);
      if HasSavings(txs[1..]) {
        var i :| 0 <= i < |txs[1..]| && IsSaving(txs[1..][i]);
        assert IsSaving(txs[i + 1]);
      }
      if exists i :: 0 <= i < |txs| && IsSaving(txs[i]) {
        var i :| 0 <= i < |txs| && IsSaving(txs[i]);
        if i > 0 {
          assert txs[1..][i - 1] == txs[i];
        }
      }
    }
  }

  /** What one run of `checkAchievements` did. */
  datatype CheckOutcome = CheckOutcome(attempts: seq<string>, celebrations: seq<string>, checked: set<string>)

  /** One run of the effect, starting from the codes already `checked`. */
  function CheckRun(checked: set<string>, userId: Option<string>, txs: seq<Transaction>, first: UnlockReply, saver: UnlockReply): CheckOutcome {
    if userId.None? || userId.value == "" then CheckOutcome([], [], checked)
    else
      var tryFirst := FirstLogin !in checked;
      if tryFirst && first == Failed then CheckOutcome([FirstLogin], [], checked)
      else
        var a1 := if tryFirst then [FirstLogin] else [];
        var c1 := if tryFirst && first == Unlocked then [FirstLogin] else [];
        var k1 := if tryFirst then checked + {FirstLogin} else checked;
        if |txs| > 0 && SaverLevel1 !in k1 && HasSavings(txs) then
          if saver == Failed then CheckOutcome(a1 + [SaverLevel1], c1, k1)
          else CheckOutcome(a1 + [SaverLevel1], c1 + (if saver == Unlocked then [SaverLevel1] else []), k1 + {SaverLevel1})
        else CheckOutcome(a1, c1, k1)
  }

  /** Without a user nothing is tried. The checked set only grows, and only
      by the two codes; a code joins it only in the run that tried it, and
      every celebration is of a code tried in that run whose unlock gave a
      record. */
  lemma CheckRunBounds(checked: set<string>, userId: Option<string>, txs: seq<Transaction>, first: UnlockReply, saver: UnlockReply)
    ensures var o := CheckRun(checked, userId, txs, first, saver);
      (userId.None? || userId.value == "" ==> o.attempts == [] && o.checked == checked) &&
      checked <= o.checked && o.checked - checked <= {FirstLogin, SaverLevel1} &&
      (forall c :: c in o.checked - checked ==> c in o.attempts) &&
      (forall i :: 0 <= i < |o.celebrations| ==> o.celebrations[i] in o.attempts) &&
      (FirstLogin in o.celebrations ==> first == Unlocked) &&
      (SaverLevel1 in o.celebrations ==> saver == Unlocked)
  {
  }

  /** FIRST_LOGIN is tried exactly when there is a user and it has not been
      checked, and it joins the set whatever the reply, unless the call
      threw. */
  lemma FirstLoginRule(checked: set<string>, userId: Option<string>, txs: seq<Transaction>, first: UnlockReply, saver: UnlockReply)
    ensures var o := CheckRun(checked, userId, txs, first, saver);
      (FirstLogin in o.attempts <==> userId.Some? && userId.value != "" && FirstLogin !in checked) &&
      (FirstLogin in o.attempts && first != Failed ==> FirstLogin in o.checked)
  {
  }

  /** SAVER_Level_1 is tried exactly when there is a user, the first step
      did not throw, there are transactions, the code is unchecked and some
      transaction is savings; only then can it join the set. */
  lemma SaverRule(checked: set<string>, userId: Option<string>, txs: seq<Transaction>, first: UnlockReply, saver: UnlockReply)
    ensures var o := CheckRun(checked, userId, txs, first, saver);
      (SaverLevel1 in o.attempts <==>
        userId.Some? && userId.value != "" && !(FirstLogin !in checked && first == Failed) &&
        |txs| > 0 && SaverLevel1 !in checked && (exists i :: 0 <= i < |txs| && IsSaving(txs[i]))) &&
      (SaverLevel1 in o.checked - checked ==> SaverLevel1 in o.attempts && saver != Failed)
  {
    HasSavingsIff(txs);
  }

  /** After a run that did not throw, a second run on the same hook that
      starts once the first has finished never tries FIRST_LOGIN again.
      Overlapping runs are not modelled. */
  lemma FirstLoginAtMostOnce(checked: set<string>, userId: Option<string>, txs: seq<Transaction>, first1: UnlockReply, saver1: UnlockReply,
                             txs2: seq<Transaction>, first2: UnlockReply, saver2: UnlockReply)
    requires first1 != Failed
    ensures var o1 := CheckRun(checked, userId, txs, first1, saver1);
      FirstLogin !in CheckRun(o1.checked, userId, txs2, first2, saver2).attempts
  {
  }

  /** The hook instance: `checkedRef.current`. */
  class Checker {
    var checked: set<string>

    /** A new hook has checked nothing. */
    constructor ()
      ensures checked == {}
    {
      checked := {};
    }

    /** `checkAchievements`, trying the codes in order and recording each one
        after its unlock returns. */
    method Check(userId: Option<string>, txs: seq<Transaction>, first: UnlockReply, saver: UnlockReply)
      returns (attempts: seq<string>, celebrations: seq<string>)
      modifies this
      ensures CheckRun(old(checked), userId, txs, first, saver) == CheckOutcome(attempts, celebrations, checked)
    {
      attempts, celebrations := [], [];
      if userId.None? || userId.value == "" {
        return;
      }
      if FirstLogin !in checked {
        attempts := attempts + [FirstLogin];
        if first == Failed {
          return;
        }
        if first == Unlocked {
          celebrations := celebrations + [FirstLogin];
        }
        checked := checked + {FirstLogin};
      }
      if |txs| > 0 && SaverLevel1 !in checked {
        if HasSavings(txs) {
          attempts := attempts + [SaverLevel1];
          if saver == Failed {
            return;
          }
          if saver == Unlocked {
            celebrations := celebrations + [SaverLevel1];
          }
          checked := checked + {SaverLevel1};
        }
      }
    }
  }
}
