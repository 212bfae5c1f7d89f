/** src/services/pluggyService.ts: the one-slot access-token cache in front
    of the Pluggy authentication endpoint, and the mapping of the bank's
    transactions into the app's records. The HTTP calls are oracle
    parameters: the authentication answer and the list of results. */
module Pluggy {
  import opened Wrappers
  import opened Text
  import opened Domain

  const MissingKeysError := "Missing Pluggy API Keys in .env"
  const DefaultCategory := "Geral"
  const UnknownMerchant := "Desconhecido"

  /** The fields of a Pluggy transaction the mapping reads. */
  datatype Merchant = Merchant(name: Option<string>)

  datatype PluggyTransaction = PluggyTransaction(
    description: string,
    amount: real,
    date: Option<string>,
    category: Option<string>,
    merchant: Option<Merchant>)

  /** `Partial<Transaction>` as the mapping builds it; the establishment is
      undefined when the merchant has no name. */
  datatype Imported = Imported(
    description: string,
    amount: real,
    date: string,
    category: string,
    establishment: Option<string>,
    txType: TxType,
    recurrence: Recurrence)

  function Abs(x: real): real {
    if x < 0.0 then -x else x
  }

  /** JavaScript truthiness of an optional string. */
  predicate Truthy(s: Option<string>) {
    s.Some? && s.value != ""
  }

  /** One element of the `map`; `today` is the ISO date of the clock. */
  function MapOne(pt: PluggyTransaction, today: string): Imported {
    Imported(
      pt.description,
      Abs(pt.amount),
      if Truthy(pt.date) then Split(pt.date.value, 'T')[0] else today,
      if Truthy(pt.category) then pt.category.value else DefaultCategory,
      if pt.merchant.Some? then pt.merchant.value.name else Some(UnknownMerchant),
      if pt.amount < 0.0 then Expense else Income,
      NoRecurrence)
  }

  /** `response.data.results.map(...)`. */
  function MapResults(results: seq<PluggyTransaction>, today: string): (r: seq<Imported>)
    ensures |r| == |results|
  {
    seq(|results|, i requires 0 <= i < |results| => MapOne(results[i], today))
  }

  /** Each result is mapped in place: the description is kept, the amount
      is made non-negative with its magnitude kept, the sign decides the
      type (zero is income), and the recurrence is always none. */
  lemma MappedAmounts(results: seq<PluggyTransaction>, today: string, i: nat)
    requires i < |results|
    ensures MapResults(results, today)[i].description == results[i].description
    ensures MapResults(results, today)[i].amount >= 0.0
    ensures MapResults(results, today)[i].amount == results[i].amount || MapResults(results, today)[i].amount == -results[i].amount
    ensures MapResults(results, today)[i].txType == Expense <==> results[i].amount < 0.0
    ensures MapResults(results, today)[i].txType in {Expense, Income}
    ensures MapResults(results, today)[i].recurrence == NoRecurrence
  {
  }

  /** The date is the text before the first `T` of a given date, whole if
      it has none, and today's date when none is given; a given category
      or merchant is kept, and a missing one falls back to its default. */
  lemma MappedDefaults(pt: PluggyTransaction, today: string)
    ensures var d := MapOne(pt, today).date;
      if Truthy(pt.date) then
        |d| <= |pt.date.value| && d == pt.date.value[..|d|] && 'T' !in d &&
        (|d| == |pt.date.value| || pt.date.value[|d|] == 'T')
      else d == today
    ensures MapOne(pt, today).category == DefaultCategory <==> !Truthy(pt.category) || pt.category.value == DefaultCategory
    ensures Truthy(pt.category) ==> MapOne(pt, today).category == pt.category.value
    ensures !Truthy(pt.category) ==> MapOne(pt, today).category == DefaultCategory
    ensures pt.merchant.None? ==> MapOne(pt, today).establishment == Some(UnknownMerchant)
    ensures pt.merchant.Some? ==> MapOne(pt, today).establishment == pt.merchant.value.name
  {
    if Truthy(pt.date) {
      SplitFirst(pt.date.value, 'T');
      var d := Split(pt.date.value, 'T')[0];
      assert forall i :: 0 <= i < |d| ==> d[i] != 'T';
    }
  }

  /** A timestamp keeps only its date part. */
  lemma TimestampDate(pt: PluggyTransaction, today: string)
    requires pt == PluggyTransaction("Pix", -12.5, Some("2024-01-31T10:00:00.000Z"), None, None)
    ensures MapOne(pt, today).date == "2024-01-31"
    ensures MapOne(pt, today).amount == 12.5 && MapOne(pt, today).txType == Expense
  {
    DatePart(pt.date.value);
  }

  lemma DatePart(s: string)
    requires s == "2024-01-31T10:00:00.000Z"
    ensures Split(s, 'T')[0] == "2024-01-31"
  {
    assert s[10] == 'T';
    assert s[..10] == "2024-01-31";
    SplitFirstAt(s, 'T', 10);
  }

  /** The module-level cache and the two keys the build is given. */
  datatype TokenOutcome = TokenOutcome(result: Result<string, string>, requested: bool, cache: Option<string>)

  /** `getAccessToken`: what it returns, whether it posted to the
      authentication endpoint (whose answer is `auth`), and the cache
      afterwards. */
  function TokenStep(cache: Option<string>, clientId: string, clientSecret: string, auth: Result<string, string>): TokenOutcome {
    if Truthy(cache) then TokenOutcome(Ok(cache.value), false, cache)
    else if clientId == "" || clientSecret == "" then TokenOutcome(Err(MissingKeysError), false, cache)
    else match auth
      case Ok(apiKey) => TokenOutcome(Ok(apiKey), true, Some(apiKey))
      case Err(e) => TokenOutcome(Err(e), true, cache)
  }

  /** A cached token is returned without a request; missing keys fail
      without a request and leave the cache as it was (empty, if it was);
      only a successful answer fills the cache, with the token returned. */
  lemma TokenCacheRules(cache: Option<string>, clientId: string, clientSecret: string, auth: Result<string, string>)
    ensures var o := TokenStep(cache, clientId, clientSecret, auth);
      (Truthy(cache) ==> !o.requested && o.result == Ok(cache.value) && o.cache == cache) &&
      (!Truthy(cache) && (clientId == "" || clientSecret == "") ==> !o.requested && o.result == Err(MissingKeysError) && o.cache == cache) &&
      (o.requested <==> !Truthy(cache) && clientId != "" && clientSecret != "") &&
      (o.cache != cache ==> o.requested && auth.Ok? && o.cache == Some(auth.value) && o.result == Ok(auth.value))
  {
  }

  /** Once a non-empty token is cached, later calls make no request and
      return it, whatever the endpoint would answer. */
  lemma TokenCachedOnce(clientId: string, clientSecret: string, auth1: Result<string, string>, auth2: Result<string, string>)
    requires clientId != "" && clientSecret != "" && auth1.Ok? && auth1.value != ""
    ensures var o1 := TokenStep(None, clientId, clientSecret, auth1);
      var o2 := TokenStep(o1.cache, clientId, clientSecret, auth2);
      o1.requested && !o2.requested && o2.result == o1.result == Ok(auth1.value) && o2.cache == o1.cache
  {
  }

  /** The service with its module-level cache. */
  class PluggyClient {
    const clientId: string
    const clientSecret: string
    var accessToken: Option<string>

    /** `accessToken` starts as `null`. */
    constructor (clientId: string, clientSecret: string)
      ensures this.clientId == clientId && this.clientSecret == clientSecret && accessToken == None
    {
      this.clientId := clientId;
      this.clientSecret := clientSecret;
      accessToken := None;
    }

    /** `getAccessToken`, with `auth` the answer the endpoint would give. */
    method GetAccessToken(auth: Result<string, string>) returns (result: Result<string, string>, requested: bool)
      modifies this
      ensures TokenStep(old(accessToken), clientId, clientSecret, auth) == TokenOutcome(result, requested, accessToken)
    {
      if accessToken.Some? && accessToken.value != "" {
        return Ok(accessToken.value), false;
      }
      if clientId == "" || clientSecret == "" {
        return Err(MissingKeysError), false;
      }
      requested := true;
      match auth {
        case Ok(apiKey) =>
          accessToken := Some(apiKey);
          result := Ok(apiKey);
        case Err(e) =>
          result := Err(e);
      }
    }

    /** `fetchTransactions`: the token first, whose failure is passed on
        without fetching; then the results are mapped. */
    method FetchTransactions(auth: Result<string, string>, response: Result<seq<PluggyTransaction>, string>, today: string)
      returns (result: Result<seq<Imported>, string>)
      modifies this
      ensures var o := TokenStep(old(accessToken), clientId, clientSecret, auth);
        accessToken == o.cache &&
        result == (if o.result.Err? then Err(o.result.error)
                   else if response.Err? then Err(response.error)
                   else Ok(MapResults(response.value, today)))
    {
      var token, _ := GetAccessToken(auth);
      if token.Err? {
        return Err(token.error);
      }
      match response {
        case Err(e) => result := Err(e);
        case Ok(results) => result := Ok(MapResults(results, today));
      }
    }
  }
}
