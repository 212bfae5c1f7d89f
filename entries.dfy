/** The entry form of src/pages/EntriesPage.tsx: choosing a category resets
    the form, and submitting turns one form into the sequence of dated
    transactions it sends to the store, followed by at most one goal
    contribution. `parseFloat` and `parseInt` are passed in as partial
    parsers (`None` is NaN); "today" is passed in as text. */
module Entries {
  import opened Wrappers
  import opened Text
  import opened Calendar
  import opened Categories
  import opened Domain
  import opened Numbers

  const InvalidAmountAlert := "Por favor, insira um valor válido."
  const InvestmentLabel := "Investimentos"

  /** Everything the form holds. */
  datatype FormState = FormState(
    transactionType: TxType,
    overlayOpen: bool,
    selectedCategory: Option<CategoryItem>,
    amount: string,
    description: string,
    date: string,
    isRecurring: bool,
    recurrenceCount: string)

  /** What one press of the submit button does. */
  datatype SubmitOutcome =
    | Ignored                       // empty amount or no category: plain return
    | Rejected(alert: string)       // amount is NaN or not positive
    | DateError                     // toISOString throws on an Invalid Date
    | Submitted(records: seq<NewTransaction>, contribution: Option<Number>)

  /** The fields every generated record shares, and the pieces of its
      description. */
  datatype Template = Template(
    base: string, amount: real, category: string, txType: TxType,
    recurring: bool, count: int)

  /** The categories shown for a transaction type. */
  function ActiveCategories(t: TxType): (r: seq<CategoryItem>)
    ensures t == Expense ==> r == ExpenseCategories
    ensures t == Income ==> r == IncomeCategories
    ensures t == Transfer ==> r == TransferCategories
    ensures |r| >= 1
    ensures (exists i :: 0 <= i < |r| && r[i].labelText == InvestmentLabel) <==> t == Income
  {
    InvestimentosOnlyIncome();
    if t == Expense then ExpenseCategories
    else if t == Income then IncomeCategories
    else TransferCategories
  }

  /** The description a record starts from: the trimmed description, or the
      category label when that is blank. */
  function BaseDescription(description: string, fallback: string): (r: string)
    ensures AllWhitespace(description) ==> r == fallback
    ensures !AllWhitespace(description) ==> r == Trim(description) && r != ""
  {
    TrimEmptyIff(description);
    if Trim(description) == "" then fallback else Trim(description)
  }

  /** The type written into the records: transfers are sent as expenses. */
  function RecordType(t: TxType): (r: TxType)
    ensures r != Transfer
    ensures t == Transfer ==> r == Expense
    ensures t != Transfer ==> r == t
  {
    if t == Transfer then Expense else t
  }

  /** How many times the loop `for (i = 0; i < count; i++)` runs; a NaN or
      non-positive count runs it zero times. */
  function Iterations(count: Option<int>): (n: nat)
    ensures count.Some? && count.value > 0 ==> n == count.value
    ensures count.None? || count.value <= 0 ==> n == 0
  {
    if count.Some? && count.value > 0 then count.value else 0
  }

  /** The ` (i+1/count)` appended to a recurring record's description. */
  function Suffix(i: nat, count: int): string {
    " (" + IntToString(i + 1) + "/" + IntToString(count) + ")"
  }

  /** Record `i` of the expansion. */
  function RecordAt(t: Template, start: Date, i: nat): NewTransaction
    requires Valid(start)
  {
    NewTransaction(
      if t.recurring then t.base + Suffix(i, t.count) else t.base,
      t.amount,
      FormatIso(AddMonths(start, i)),
      t.category,
      "",
      Some(t.txType),
      None,
      None)
  }

  /** The first `n` records. */
  function Expansion(t: Template, start: Date, n: nat): (r: seq<NewTransaction>)
    requires Valid(start)
    ensures |r| == n
  {
    seq(n, i requires 0 <= i < n => RecordAt(t, start, i))
  }

  /** The loop of `handleSubmit`: one record per iteration, record `i` dated
      `i` months after the start. */
  method Expand(t: Template, start: Date, n: nat) returns (records: seq<NewTransaction>)
    requires Valid(start)
    ensures records == Expansion(t, start, n)
  {
    records := [];
    for i := 0 to n
      invariant records == Expansion(t, start, i)
    {
      records := records + [RecordAt(t, start, i)];
    }
  }

  /** The template a submission expands, given the parsed amount and count. */
  function TemplateOf(s: FormState, numAmount: real, count: int): Template
    requires s.selectedCategory.Some?
  {
    var category := s.selectedCategory.value;
    Template(BaseDescription(s.description, category.labelText), numAmount, category.labelText,
             RecordType(s.transactionType), s.isRecurring, count)
  }

  /** The goal contribution made once every send has settled:
      `numAmount * count` for the "Investimentos" label, none otherwise. */
  function ContributionOf(categoryLabel: string, numAmount: real, count: Option<int>): (r: Option<Number>)
    ensures r.Some? <==> categoryLabel == InvestmentLabel
  {
    if categoryLabel != InvestmentLabel then None
    else if count.None? then Some(NaN)
    else Some(Finite(numAmount * count.value as real))
  }

  /** `handleSubmit` as a function of the form. */
  function SubmitSpec(s: FormState, parseFloat: string -> Option<real>, parseInt: string -> Option<int>): SubmitOutcome {
    if s.amount == "" || s.selectedCategory.None? then Ignored
    else
      var num := parseFloat(s.amount);
      if num.None? || num.value <= 0.0 then Rejected(InvalidAmountAlert)
      else
        var count := CountOf(s, parseInt);
        var n := Iterations(count);
        var start := ParseIso(s.date);
        if n > 0 && start.None? then DateError
        else
          var t := TemplateOf(s, num.value, count.GetOr(0));
          var records := if n == 0 then [] else Expansion(t, start.value, n);
          Submitted(records, ContributionOf(s.selectedCategory.value.labelText, num.value, count))
  }

  /** The count a submission uses: the parsed repetition count when
      recurring, else 1. */
  function CountOf(s: FormState, parseInt: string -> Option<int>): Option<int> {
    if s.isRecurring then parseInt(s.recurrenceCount) else Some(1)
  }

  /** An empty amount or a missing category ends the submission before
      anything is parsed: no record, no contribution. */
  lemma NothingWithoutAmountOrCategory(s: FormState, parseFloat: string -> Option<real>, parseInt: string -> Option<int>)
    requires s.amount == "" || s.selectedCategory.None?
    ensures SubmitSpec(s, parseFloat, parseInt) == Ignored
  {
  }

  /** A NaN or non-positive amount is rejected with an alert before any
      record is built. */
  lemma InvalidAmountRejected(s: FormState, parseFloat: string -> Option<real>, parseInt: string -> Option<int>)
    requires s.amount != "" && s.selectedCategory.Some?
    requires parseFloat(s.amount).None? || parseFloat(s.amount).value <= 0.0
    ensures SubmitSpec(s, parseFloat, parseInt) == Rejected(InvalidAmountAlert)
  {
  }

  /** How a submitted outcome is put together: both checks passed, the
      records are the expansion of the form's template from the parsed
      start date, one per iteration, and the contribution is computed from
      the label, the amount and the count. */
  lemma SubmittedParts(s: FormState, parseFloat: string -> Option<real>, parseInt: string -> Option<int>)
    requires SubmitSpec(s, parseFloat, parseInt).Submitted?
    ensures s.amount != "" && s.selectedCategory.Some?
    ensures parseFloat(s.amount).Some? && parseFloat(s.amount).value > 0.0
    ensures var n := Iterations(CountOf(s, parseInt));
      var r := SubmitSpec(s, parseFloat, parseInt).records;
      && |r| == n
      && (n > 0 ==>
            ParseIso(s.date).Some? &&
            r == Expansion(TemplateOf(s, parseFloat(s.amount).value, CountOf(s, parseInt).GetOr(0)), ParseIso(s.date).value, n))
    ensures SubmitSpec(s, parseFloat, parseInt).contribution ==
      ContributionOf(s.selectedCategory.value.labelText, parseFloat(s.amount).value, CountOf(s, parseInt))
  {
  }

  /** Records are only ever produced for a submission that passed both
      checks, and then all of them: one when not recurring, `count` when
      recurring, and none for a NaN or non-positive count. */
  lemma RecordCount(s: FormState, parseFloat: string -> Option<real>, parseInt: string -> Option<int>)
    requires SubmitSpec(s, parseFloat, parseInt).Submitted?
    ensures s.amount != "" && s.selectedCategory.Some?
    ensures parseFloat(s.amount).Some? && parseFloat(s.amount).value > 0.0
    ensures |SubmitSpec(s, parseFloat, parseInt).records| == Iterations(CountOf(s, parseInt))
    ensures !s.isRecurring ==> |SubmitSpec(s, parseFloat, parseInt).records| == 1
  {
    SubmittedParts(s, parseFloat, parseInt);
  }

  /** What record `i` holds: the start date moved on `i` months, the parsed
      amount, the category label, an empty establishment, the recorded type
      (transfer sent as expense), and the base description — followed, for
      a recurring entry, by ` (i+1/count)` whatever the count. */
  lemma RecordContents(s: FormState, parseFloat: string -> Option<real>, parseInt: string -> Option<int>, i: nat)
    requires SubmitSpec(s, parseFloat, parseInt).Submitted?
    requires i < |SubmitSpec(s, parseFloat, parseInt).records|
    ensures s.selectedCategory.Some? && parseFloat(s.amount).Some? && ParseIso(s.date).Some?
    ensures var r := SubmitSpec(s, parseFloat, parseInt).records;
      var category := s.selectedCategory.value;
      var base := BaseDescription(s.description, category.labelText);
      && r[i].date == FormatIso(AddMonths(ParseIso(s.date).value, i))
      && r[i].amount == parseFloat(s.amount).value
      && r[i].category == category.labelText
      && r[i].establishment == ""
      && r[i].txType == Some(RecordType(s.transactionType))
      && r[i].recurrence == None && r[i].adjustmentRate == None
      && r[i].description ==
           (if s.isRecurring then base + Suffix(i, |r|) else base)
  {
    SubmittedParts(s, parseFloat, parseInt);
    var r := SubmitSpec(s, parseFloat, parseInt).records;
    var count := CountOf(s, parseInt);
    var t := TemplateOf(s, parseFloat(s.amount).value, count.GetOr(0));
    assert r[i] == RecordAt(t, ParseIso(s.date).value, i);
    assert count.Some? && count.GetOr(0) == |r|;
  }

  /** The dates of a batch: each is a real calendar date, later than every
      date before it, and for a four-digit year its text reads back as that
      date. */
  lemma RecordDates(s: FormState, parseFloat: string -> Option<real>, parseInt: string -> Option<int>, i: nat, j: nat)
    requires SubmitSpec(s, parseFloat, parseInt).Submitted?
    requires i < j < |SubmitSpec(s, parseFloat, parseInt).records|
    ensures ParseIso(s.date).Some?
    ensures var start := ParseIso(s.date).value;
      var r := SubmitSpec(s, parseFloat, parseInt).records;
      && Valid(AddMonths(start, i)) && Valid(AddMonths(start, j))
      && Before(AddMonths(start, i), AddMonths(start, j))
      && (AddMonths(start, i).year <= 9999 ==> ParseIso(r[i].date) == Some(AddMonths(start, i)))
  {
    var start := ParseIso(s.date).value;
    RecordContents(s, parseFloat, parseInt, i);
    AddMonthsShape(start, i);
    AddMonthsShape(start, j);
    AddMonthsIncreasing(start, i, j);
    if AddMonths(start, i).year <= 9999 {
      FormatParseRoundTrip(AddMonths(start, i));
    }
  }

  /** A valid submission makes exactly one contribution when the category is
      "Investimentos" — the amount times the count, NaN when the count is
      NaN — and none otherwise. */
  lemma ContributionRule(s: FormState, parseFloat: string -> Option<real>, parseInt: string -> Option<int>)
    requires SubmitSpec(s, parseFloat, parseInt).Submitted?
    ensures var c := SubmitSpec(s, parseFloat, parseInt).contribution;
      var count := CountOf(s, parseInt);
      && (c.Some? <==> s.selectedCategory.value.labelText == InvestmentLabel)
      && (c.Some? && count.Some? ==> c.value == Finite(parseFloat(s.amount).value * count.value as real))
      && (c.Some? && count.None? ==> c.value == NaN)
  {
    SubmittedParts(s, parseFloat, parseInt);
  }

  /** A submission that is not recurring sends one record, dated the start
      date, described by the base description alone. */
  lemma SingleRecord(s: FormState, parseFloat: string -> Option<real>, parseInt: string -> Option<int>)
    requires SubmitSpec(s, parseFloat, parseInt).Submitted? && !s.isRecurring
    ensures ParseIso(s.date).Some?
    ensures var r := SubmitSpec(s, parseFloat, parseInt).records;
      && |r| == 1
      && r[0].date == FormatIso(ParseIso(s.date).value)
      && r[0].description == BaseDescription(s.description, s.selectedCategory.value.labelText)
  {
    SubmittedParts(s, parseFloat, parseInt);
    RecordContents(s, parseFloat, parseInt, 0);
    var start := ParseIso(s.date).value;
    assert AddMonths(start, 0) == start by { AddMonthsShape(start, 0); }
  }

  /** The first record of a batch is dated with the start date's text. */
  lemma FirstExpansionDate(t: Template, start: Date, n: nat, text: string)
    requires Valid(start) && n > 0 && FormatIso(start) == text
    ensures Expansion(t, start, n)[0].date == text
  {
    assert AddMonths(start, 0) == start by { AddMonthsShape(start, 0); }
    BatchDate(t, start, n, 0, start, text);
  }

  /** The first record of any batch is dated with the very text that was
      typed in the date field. */
  lemma FirstRecordDate(s: FormState, parseFloat: string -> Option<real>, parseInt: string -> Option<int>)
    requires SubmitSpec(s, parseFloat, parseInt).Submitted?
    requires |SubmitSpec(s, parseFloat, parseInt).records| > 0
    ensures SubmitSpec(s, parseFloat, parseInt).records[0].date == s.date
  {
    SubmittedParts(s, parseFloat, parseInt);
    var start := ParseIso(s.date).value;
    ParseFormatRoundTrip(s.date);
    FirstExpansionDate(TemplateOf(s, parseFloat(s.amount).value, CountOf(s, parseInt).GetOr(0)), start,
                       Iterations(CountOf(s, parseInt)), s.date);
  }

  lemma SuffixExample()
    ensures Suffix(1, 3) == " (2/3)"
  {
    assert IntToString(2) == "2" && IntToString(3) == "3";
  }

  /** Record `i` of a batch carries the text of its date. */
  lemma BatchDate(t: Template, start: Date, n: nat, i: nat, d: Date, text: string)
    requires Valid(start) && i < n && Valid(d)
    requires AddMonths(start, i) == d && FormatIso(d) == text
    ensures Expansion(t, start, n)[i].date == text
  {
  }

  /** The dates of a three-record batch starting on 2024-01-31, whatever
      the template. */
  lemma ScenarioDates(t: Template, start: Date)
    requires start == Date(2024, 1, 31)
    ensures Expansion(t, start, 3)[0].date == "2024-01-31"
    ensures Expansion(t, start, 3)[1].date == "2024-03-02"
    ensures Expansion(t, start, 3)[2].date == "2024-03-31"
  {
    AddMonthsShape(start, 0);
    JanuaryThirtyFirstPlusOneMonth();
    FormatIsoExamples();
    BatchDate(t, start, 3, 0, start, "2024-01-31");
    BatchDate(t, start, 3, 1, Date(2024, 3, 2), "2024-03-02");
    BatchDate(t, start, 3, 2, Date(2024, 3, 31), "2024-03-31");
  }

  /** Record `i` of a recurring batch carries the base and its suffix. */
  lemma BatchDescription(t: Template, start: Date, n: nat, i: nat, text: string)
    requires Valid(start) && i < n && t.recurring
    requires t.base + Suffix(i, t.count) == text
    ensures Expansion(t, start, n)[i].description == text
  {
  }

  lemma ScenarioSuffixText()
    ensures InvestmentLabel + Suffix(1, 3) == "Investimentos (2/3)"
  {
    SuffixExample();
    assert InvestmentLabel + " (2/3)" == "Investimentos (2/3)";
  }

  /** The second description of a recurring "Investimentos" batch of three. */
  lemma ScenarioDescription(t: Template, start: Date)
    requires Valid(start) && t.base == InvestmentLabel && t.recurring && t.count == 3
    ensures Expansion(t, start, 3)[1].description == "Investimentos (2/3)"
  {
    ScenarioSuffixText();
    BatchDescription(t, start, 3, 1, "Investimentos (2/3)");
  }

  /** A recurring "Investimentos" income of 100 repeated 3 times from
      2024-01-31: the second date overflows February into 2024-03-02, the
      third lands on 2024-03-31, and the goal receives 300. */
  lemma InvestmentScenario(s: FormState, parseFloat: string -> Option<real>, parseInt: string -> Option<int>)
    requires s == FormState(Income, true, Some(CategoryItem("investments", InvestmentLabel)), "100", "", "2024-01-31", true, "3")
    requires parseFloat("100") == Some(100.0) && parseInt("3") == Some(3)
    ensures var out := SubmitSpec(s, parseFloat, parseInt);
      && out.Submitted?
      && |out.records| == 3
      && out.records[0].date == "2024-01-31"
      && out.records[1].date == "2024-03-02"
      && out.records[2].date == "2024-03-31"
      && out.records[1].description == "Investimentos (2/3)"
      && out.contribution == Some(Finite(300.0))
  {
    var start := Date(2024, 1, 31);
    ParseJanuaryThirtyFirst();
    assert CountOf(s, parseInt) == Some(3);
    assert SubmitSpec(s, parseFloat, parseInt).Submitted?;
    SubmittedParts(s, parseFloat, parseInt);
    var t := TemplateOf(s, 100.0, 3);
    assert t.base == InvestmentLabel by { assert AllWhitespace(s.description); }
    ScenarioDates(t, start);
    ScenarioDescription(t, start);
  }

  /** The entry page's form. */
  class EntryForm {
    var transactionType: TxType
    var overlayOpen: bool
    var selectedCategory: Option<CategoryItem>
    var amount: string
    var description: string
    var date: string
    var isRecurring: bool
    var recurrenceCount: string

    function State(): FormState
      reads this
    {
      FormState(transactionType, overlayOpen, selectedCategory, amount, description, date,
                isRecurring, recurrenceCount)
    }

    /** The initial form: expense tab, overlay closed, nothing selected,
        dated today, not recurring, twelve repetitions proposed. */
    constructor (today: string)
      ensures State() == FormState(Expense, false, None, "", "", today, false, "12")
    {
      transactionType := Expense;
      overlayOpen := false;
      selectedCategory := None;
      amount := "";
      description := "";
      date := today;
      isRecurring := false;
      recurrenceCount := "12";
    }

    /** A tab press: only the transaction type changes. */
    method SelectType(t: TxType)
      modifies this
      ensures State() == old(State()).(transactionType := t)
    {
      transactionType := t;
    }

    /** `handleCategoryClick`: select the category, open the overlay and
        reset every input; the tab is kept. */
    method CategoryClick(category: CategoryItem, today: string)
      modifies this
      ensures State() == FormState(old(transactionType), true, Some(category), "", "", today, false, "12")
    {
      selectedCategory := Some(category);
      overlayOpen := true;
      amount := "";
      description := "";
      date := today;
      isRecurring := false;
      recurrenceCount := "12";
    }

    /** `handleSubmit`. The records are what the loop hands, in order, to
        `onAddTransaction`; the overlay closes only when the loop ran to
        completion. */
    method Submit(parseFloat: string -> Option<real>, parseInt: string -> Option<int>)
      returns (outcome: SubmitOutcome)
      modifies this
      ensures outcome == SubmitSpec(old(State()), parseFloat, parseInt)
      ensures State() == old(State()).(overlayOpen := if outcome.Submitted? then false else old(overlayOpen))
    {
      if amount == "" || selectedCategory.None? {
        return Ignored;
      }
      var num := parseFloat(amount);
      if num.None? || num.value <= 0.0 {
        return Rejected(InvalidAmountAlert);
      }
      var count := if isRecurring then parseInt(recurrenceCount) else Some(1);
      assert count == CountOf(State(), parseInt);
      var n := Iterations(count);
      var start := ParseIso(date);
      if n > 0 && start.None? {
        return DateError;
      }
      var t := TemplateOf(State(), num.value, count.GetOr(0));
      var records: seq<NewTransaction> := [];
      if n > 0 {
        records := Expand(t, start.value, n);
      }
      outcome := Submitted(records, ContributionOf(selectedCategory.value.labelText, num.value, count));
      assert outcome == SubmitSpec(State(), parseFloat, parseInt);
      overlayOpen := false;
    }
  }
}
