/** src/services/token.service.ts: the access token kept under one
    `localStorage` key, and a length check on its structure. */
module TokenService {
  import opened Wrappers
  import opened Storage
  import opened Text

  const TokenKey := "auth_access_token"

  /** What `getToken` reads from a store holding `items`. */
  function TokenIn(items: map<string, string>): Option<string> {
    if TokenKey in items then Some(items[TokenKey]) else None
  }

  /** `getToken()`. */
  method GetToken(store: LocalStorage) returns (token: Option<string>)
    ensures token == TokenIn(store.items)
  {
    token := store.GetItem(TokenKey);
  }

  /** `setToken(token)`: only the token key changes. */
  method SetToken(store: LocalStorage, token: string)
    modifies store
    ensures store.items == old(store.items)[TokenKey := token]
  {
    store.SetItem(TokenKey, token);
  }

  /** `removeToken()`: only the token key goes. */
  method RemoveToken(store: LocalStorage)
    modifies store
    ensures store.items == old(store.items) - {TokenKey}
  {
    store.RemoveItem(TokenKey);
  }

  /** A token read after a set is the one set, a later set overwrites it, a
      read after a removal finds nothing, and every other key keeps its
      value through all three. */
  lemma TokenLaws(items: map<string, string>, t: string, u: string, other: string)
    requires other != TokenKey
    ensures TokenIn(items[TokenKey := t]) == Some(t)
    ensures TokenIn(items[TokenKey := t][TokenKey := u]) == Some(u)
    ensures TokenIn(items - {TokenKey}) == None
    ensures (other in items[TokenKey := t]) == (other in items) && (other in items - {TokenKey}) == (other in items)
    ensures other in items ==> items[TokenKey := t][other] == items[other] && (items - {TokenKey})[other] == items[other]
  {
  }

  /** The three calls in a row on one store: set, read, remove, read. */
  method SetReadRemoveRead(store: LocalStorage, t: string) returns (first: Option<string>, second: Option<string>)
    modifies store
    ensures first == Some(t) && second == None
    ensures forall k :: k != TokenKey ==> (k in store.items <==> k in old(store.items))
    ensures forall k :: k != TokenKey && k in store.items ==> store.items[k] == old(store.items)[k]
  {
    SetToken(store, t);
    first := GetToken(store);
    RemoveToken(store);
    second := GetToken(store);
  }

  /** `isValidStructure(token)`: longer than ten code units. */
  predicate IsValidStructure(token: string) {
    Utf16Length(token) > 10
  }

  /** More than ten characters always pass and at most five never do; for
      text inside the Basic Multilingual Plane the rule is exactly "more
      than ten characters". */
  lemma ValidStructureBounds(token: string)
    ensures |token| > 10 ==> IsValidStructure(token)
    ensures |token| <= 5 ==> !IsValidStructure(token)
    ensures (forall i :: 0 <= i < |token| ==> token[i] as int <= 0xFFFF) ==> (IsValidStructure(token) <==> |token| > 10)
  {
    if forall i :: 0 <= i < |token| ==> token[i] as int <= 0xFFFF {
      BmpLength(token);
    }
  }
}
