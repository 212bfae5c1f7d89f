/** The daily savings challenge of src/App.tsx: the record kept in
    `localStorage` as JSON, how it is first loaded, when the effect over the
    transactions replaces it and what accepting it changes. "Today" (the
    ISO date of the clock) and `Math.random()` are parameters. */
module DailyChallenge {
  import opened Wrappers
  import opened Text
  import opened Numbers
  import opened Domain
  import opened Categories
  import opened Json

  const StorageKey := "dailyChallenge"
  const GenericText := "Mano, se liga: se trocar o café da rua por um em casa hoje, você aporta **R$ 15** a mais no seu projeto. Partiu?"
  const GenericAmount := 15

  /** `{date, text, amount, completed}`; the amount is always a whole
      number, 15 or a `Math.ceil`. */
  datatype Challenge = Challenge(date: string, text: string, amount: int, completed: bool)

  const DateKey := "{\"date\":"
  const TextKey := ",\"text\":"
  const AmountKey := ",\"amount\":"
  const CompletedKey := ",\"completed\":"

  /** `JSON.stringify` of the record, whose keys are written in the order
      of the object literals that build it. */
  function Encode(c: Challenge): string {
    DateKey + (Quote(c.date) + (TextKey + (Quote(c.text) + (AmountKey + (IntToString(c.amount) + (CompletedKey + (BoolText(c.completed) + "}")))))))
  }

  /** `JSON.parse` of a stored record written in that form; any other text
      gives `None`. */
  function Decode(s: string): Option<Challenge> {
    match Expect(s, DateKey)
    case None => None
    case Some(r0) =>
      match ParseString(r0)
      case None => None
      case Some((date, r1)) =>
        match Expect(r1, TextKey)
        case None => None
        case Some(r2) =>
          match ParseString(r2)
          case None => None
          case Some((text, r3)) =>
            match Expect(r3, AmountKey)
            case None => None
            case Some(r4) =>
              match ParseInt(r4)
              case None => None
              case Some((amount, r5)) =>
                match Expect(r5, CompletedKey)
                case None => None
                case Some(r6) =>
                  match ParseBool(r6)
                  case None => None
                  case Some((completed, r7)) =>
                    if r7 == "}" then Some(Challenge(date, text, amount, completed)) else None
  }

  /** What is stored is read back unchanged. */
  lemma DecodeEncode(c: Challenge)
    ensures Decode(Encode(c)) == Some(c)
  {
    var t7 := BoolText(c.completed) + "}";
    var t6 := CompletedKey + t7;
    var t5 := IntToString(c.amount) + t6;
    var t4 := AmountKey + t5;
    var t3 := Quote(c.text) + t4;
    var t2 := TextKey + t3;
    var t1 := Quote(c.date) + t2;
    ExpectConcat(DateKey, t1);
    QuoteRoundTrip(c.date, t2);
    ExpectConcat(TextKey, t3);
    QuoteRoundTrip(c.text, t4);
    ExpectConcat(AmountKey, t5);
    assert t6[0] == ',';
    IntRoundTrip(c.amount, t6);
    ExpectConcat(CompletedKey, t7);
    BoolRoundTrip(c.completed, "}");
  }

  /** The record offered when there is none for today. */
  function Generic(today: string): Challenge {
    Challenge(today, GenericText, GenericAmount, false)
  }

  /** The lazy initial state: today's stored record if there is one (an
      empty stored string counts as none), else the generic challenge. */
  function Initial(stored: Option<string>, today: string): Challenge {
    if stored.Some? && stored.value != "" then
      match Decode(stored.value)
      case Some(c) => if c.date == today then c else Generic(today)
      case None => Generic(today)
    else Generic(today)
  }

  /** The initial challenge is always dated today: the stored record when it
      is today's, unchanged, and otherwise the generic one. */
  lemma InitialRule(stored: Option<string>, today: string)
    ensures Initial(stored, today).date == today
    ensures stored.Some? && Decode(stored.value).Some? && Decode(stored.value).value.date == today ==>
      Initial(stored, today) == Decode(stored.value).value
    ensures stored.None? || Decode(stored.value).None? || Decode(stored.value).value.date != today ==>
      Initial(stored, today) == Generic(today)
  {
  }

  /** A record written today is what the next load starts from; one
      written on another day is replaced by the generic challenge. */
  lemma ReloadRoundTrip(c: Challenge, today: string)
    ensures Initial(Some(Encode(c)), today) == (if c.date == today then c else Generic(today))
  {
    DecodeEncode(c);
  }

  /** A transaction the challenge can be built from. */
  predicate IsExtra(t: Transaction) {
    t.category == "Extra" || t.category == "Lazer"
  }

  /** `transactions.filter(...)`, keeping the order. */
  function Extras(txs: seq<Transaction>): (r: seq<Transaction>)
    ensures |r| <= |txs|
    ensures forall k :: 0 <= k < |r| ==> IsExtra(r[k]) && r[k] in txs
  {
    if txs == [] then [] else (if IsExtra(txs[0]) then [txs[0]] else []) + Extras(txs[1..])
  }

  /** Some transaction survives the filter exactly when one qualifies. */
  lemma {:induction false} ExtrasNonEmpty(txs: seq<Transaction>)
    ensures |Extras(txs)| > 0 <==> exists i :: 0 <= i < |txs| && IsExtra(txs[i])
  {
    if txs != [] {
      ExtrasNonEmpty(txs[1..]);
      if exists i :: 0 <= i < |txs[1..]| && IsExtra(txs[1..][i]) {
        var i :| 0 <= i < |txs[1..]| && IsExtra(txs[1..][i]);
        assert IsExtra(txs[i + 1]);
      }
      if exists i :: 0 <= i < |txs| && IsExtra(txs[i]) {
        var i :| 0 <= i < |txs| && IsExtra(txs[i]);
        if i > 0 {
          assert txs[1..][i - 1] == txs[i];
        }
      }
    }
  }

  /** `Math.floor(Math.random() * n)`, `rand` being the random draw. */
  function PickIndex(rand: real, n: nat): (k: nat)
    requires 0.0 <= rand < 1.0 && n > 0
    ensures k < n
  {
    assert 0.0 <= rand * n as real < n as real;
    (rand * n as real).Floor
  }

  /** `x.toFixed(0)`: the nearest integer, halves away from zero, with a
      minus sign for every negative `x`, even when it rounds to zero. */
  function ToFixed0(x: real): string {
    if x < 0.0 then "-" + NatToString((-x + 0.5).Floor) else NatToString((x + 0.5).Floor)
  }

  /** The printed digits are the magnitude rounded to the nearest integer,
      halves going up, and the sign is printed exactly for negatives. */
  lemma ToFixed0Digits(x: real)
    ensures var m := if x < 0.0 then -x else x;
      var n := (m + 0.5).Floor;
      n >= 0 && ToFixed0(x) == (if x < 0.0 then "-" else "") + NatToString(n) &&
      n as real - 0.5 <= m < n as real + 0.5
  {
    if x < 0.0 {
      assert ToFixed0(x) == "-" + NatToString((-x + 0.5).Floor);
    } else {
      assert ToFixed0(x) == "" + NatToString((x + 0.5).Floor);
    }
  }

  /** A small negative amount prints as "-0". */
  lemma ToFixed0NegativeZero()
    ensures ToFixed0(-0.25) == "-0"
  {
    assert ToFixed0(-0.25) == "-" + NatToString(0);
  }

  /** The text of a challenge built from a transaction. */
  function ExtraText(description: string, amount: real): string {
    "Brother, que tal economizar '" + description + "' hoje? Dá pra salvar **R$ " + ToFixed0(amount) + "** pro seu sonho!"
  }

  /** The effect over the transactions: the new record, or `None` when it
      leaves the challenge as it is. */
  function Refreshed(c: Challenge, today: string, txs: seq<Transaction>, rand: real): Option<Challenge>
    requires 0.0 <= rand < 1.0
  {
    if c.date == today && c.amount != GenericAmount then None
    else
      var extras := Extras(txs);
      if |extras| == 0 then None
      else
        var t := extras[PickIndex(rand, |extras|)];
        Some(Challenge(today, ExtraText(t.description, t.amount), Ceil(t.amount), false))
  }

  /** A challenge customised today is kept. Otherwise a new one is made
      exactly when some transaction is "Extra" or "Lazer": it is dated
      today, not completed, and built from one of those transactions, its
      amount that transaction's amount rounded up. */
  lemma RefreshRule(c: Challenge, today: string, txs: seq<Transaction>, rand: real)
    requires 0.0 <= rand < 1.0
    ensures c.date == today && c.amount != GenericAmount ==> Refreshed(c, today, txs, rand) == None
    ensures !(c.date == today && c.amount != GenericAmount) ==>
      (Refreshed(c, today, txs, rand).Some? <==> exists i :: 0 <= i < |txs| && IsExtra(txs[i]))
    ensures Refreshed(c, today, txs, rand).Some? ==>
      var n := Refreshed(c, today, txs, rand).value;
      n.date == today && !n.completed &&
      exists t :: t in txs && IsExtra(t) && n.text == ExtraText(t.description, t.amount) &&
        n.amount as real - 1.0 < t.amount <= n.amount as real
  {
    ExtrasNonEmpty(txs);
  }

  /** The guard is keyed on the amount, not on completion: a generic
      challenge of today that was already accepted is replaced by a fresh,
      uncompleted one as soon as a qualifying transaction exists. */
  lemma CompletedGenericIsReset(today: string, txs: seq<Transaction>, rand: real, i: nat)
    requires 0.0 <= rand < 1.0
    requires i < |txs| && IsExtra(txs[i])
    ensures var c := Challenge(today, GenericText, GenericAmount, true);
      Refreshed(c, today, txs, rand).Some? && !Refreshed(c, today, txs, rand).value.completed
  {
    RefreshRule(Challenge(today, GenericText, GenericAmount, true), today, txs, rand);
  }

  /** No category of the catalogues is "Extra" or "Lazer", so transactions
      filed under catalogue labels never produce a challenge. */
  lemma CatalogLabelsNeverQualify(c: Challenge, today: string, txs: seq<Transaction>, rand: real)
    requires 0.0 <= rand < 1.0
    requires forall i :: 0 <= i < |txs| ==> exists k :: 0 <= k < |AllCategories()| && txs[i].category == AllCategories()[k].labelText
    ensures Refreshed(c, today, txs, rand) == None
  {
    NoChallengeLabels();
    ExtrasNonEmpty(txs);
  }

  /** `{...challenge, completed: true}`. */
  function Accepted(c: Challenge): (r: Challenge)
    ensures r.completed && r.date == c.date && r.text == c.text && r.amount == c.amount
    ensures r == c <==> c.completed
  {
    c.(completed := true)
  }

  /** An accepted challenge stays accepted through a reload on the same
      day. */
  lemma AcceptedSurvivesReload(c: Challenge, today: string)
    requires c.date == today
    ensures Initial(Some(Encode(Accepted(c))), today) == Accepted(c)
    ensures Initial(Some(Encode(Accepted(c))), today).completed
  {
    ReloadRoundTrip(Accepted(c), today);
  }
}
