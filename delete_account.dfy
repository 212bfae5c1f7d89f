/** The account deletion dialog of src/components/DeleteAccountModal.tsx:
    the reason that is reported, when confirming reports it, and when the
    confirm button is disabled. */
module DeleteAccount {
  import opened Wrappers
  import opened Text

  const OtherReason := "Outro motivo"

  /** The radio options, in order. */
  const Reasons: seq<string> := ["Não achei útil", "Achei muito caro", "Encontrei outro app melhor", OtherReason]

  /** `finalReason`: the free text for "Outro motivo", else the option. */
  function FinalReason(reason: string, customReason: string): string {
    if reason == OtherReason then customReason else reason
  }

  /** `handleConfirm`: what `onConfirm` is called with, if it is called. */
  function Confirm(reason: string, customReason: string): Option<string> {
    var r := FinalReason(reason, customReason);
    if Trim(r) != "" then Some(r) else None
  }

  /** The `disabled` expression of the confirm button. */
  predicate Disabled(reason: string, customReason: string) {
    reason == "" || (reason == OtherReason && customReason == "")
  }

  /** What the dialog shows: nothing when closed; otherwise whether the free
      text box is visible and whether the confirm button is disabled. */
  datatype Shown = Shown(customBox: bool, confirmDisabled: bool)

  function View(isOpen: bool, reason: string, customReason: string): Option<Shown> {
    if !isOpen then None
    else Some(Shown(reason == OtherReason, Disabled(reason, customReason)))
  }

  /** `onConfirm` fires exactly when the final reason has a non-whitespace
      character, and it receives the reason untrimmed. */
  lemma ConfirmIff(reason: string, customReason: string)
    ensures Confirm(reason, customReason).Some? <==> !AllWhitespace(FinalReason(reason, customReason))
    ensures Confirm(reason, customReason).Some? ==> Confirm(reason, customReason).value == FinalReason(reason, customReason)
    ensures reason != OtherReason && Confirm(reason, customReason).Some? ==> Confirm(reason, customReason).value == reason
  {
    TrimEmptyIff(FinalReason(reason, customReason));
  }

  /** Whenever confirming would report a reason, the button is enabled. */
  lemma ConfirmNeedsEnabled(reason: string, customReason: string)
    requires Confirm(reason, customReason).Some?
    ensures !Disabled(reason, customReason)
  {
    TrimEmptyIff(FinalReason(reason, customReason));
  }

  /** The converse fails: a whitespace-only free text enables the button,
      and pressing it then does nothing. */
  lemma WhitespaceEnablesButDoesNothing(customReason: string)
    requires customReason != "" && AllWhitespace(customReason)
    ensures !Disabled(OtherReason, customReason)
    ensures Confirm(OtherReason, customReason) == None
  {
    TrimEmptyIff(customReason);
  }

  /** Every listed option but the last is reported as chosen; the last one
      needs a free text. */
  lemma FixedReasonsConfirm(i: nat)
    requires i < 3
    ensures Confirm(Reasons[i], "") == Some(Reasons[i])
    ensures !Disabled(Reasons[i], "") && Disabled(OtherReason, "")
  {
    var r := Reasons[i];
    assert r[0] != ' ' && !IsWhitespace(r[0]);
    TrimNonEmpty(r, 0);
  }

  /** A closed dialog renders nothing, whatever its state. */
  lemma ClosedRendersNothing(reason: string, customReason: string)
    ensures View(false, reason, customReason) == None
    ensures View(true, reason, customReason).Some?
  {
  }

  /** The dialog's two pieces of state. */
  class Modal {
    var reason: string
    var customReason: string

    constructor ()
      ensures reason == "" && customReason == ""
    {
      reason := "";
      customReason := "";
    }

    /** A radio button change. */
    method SelectReason(r: string)
      modifies this
      ensures reason == r && customReason == old(customReason)
    {
      reason := r;
    }

    /** Typing in the free text box. */
    method EditCustomReason(text: string)
      modifies this
      ensures customReason == text && reason == old(reason)
    {
      customReason := text;
    }
  }

  /** A dialog just opened has its button disabled and confirming does
      nothing. */
  method OpenedDialog() returns (shown: Option<Shown>, confirmed: Option<string>)
    ensures shown == Some(Shown(false, true)) && confirmed == None
  {
    var m := new Modal();
    shown := View(true, m.reason, m.customReason);
    confirmed := Confirm(m.reason, m.customReason);
  }
}
