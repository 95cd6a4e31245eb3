/** The key-value persistence adapter over the browser's localStorage
    (src/utils/storage.js): fail-soft get/set/remove, the list of keys the
    application owns, the pagination envelope and the email check. */
module Storage {
  import opened Common
  import opened Json
  import opened Entities
  import opened Seqs
  import opened Text

  const AUTH_TOKEN := "pharmacy_auth_token"
  const USER_DATA := "pharmacy_user_data"
  const CART_ITEMS := "pharmacy_cart_items"
  const USER_ORDERS := "pharmacy_user_orders"
  const USER_PREFERENCES := "pharmacy_user_preferences"
  const MOCK_USERS := "pharmacy_mock_users"
  const MOCK_MEDICINES := "pharmacy_mock_medicines"
  const MOCK_ORDERS := "pharmacy_mock_orders"

  /** `Object.values(STORAGE_KEYS)`, in declaration order. */
  const STORAGE_KEYS: seq<string> :=
    [AUTH_TOKEN, USER_DATA, CART_ITEMS, USER_ORDERS, USER_PREFERENCES,
     MOCK_USERS, MOCK_MEDICINES, MOCK_ORDERS]

  /** The eight keys are distinct and all carry the shared `pharmacy_` prefix. */
  lemma StorageKeysDistinctAndPrefixed()
    ensures forall i, j :: 0 <= i < j < |STORAGE_KEYS| ==> STORAGE_KEYS[i] != STORAGE_KEYS[j]
    ensures forall i :: 0 <= i < |STORAGE_KEYS| ==> |STORAGE_KEYS[i]| >= 9 && STORAGE_KEYS[i][..9] == "pharmacy_"
  {
  }

  /** What the services store, by kind: the token text, the user projection, the
      user table, the cart rows and the order table. */
  datatype Value =
    | TokenText(token: string)
    | UserData(record: Record)
    | UserTable(users: seq<Record>)
    | CartRows(rows: seq<CartItem>)
    | OrderTable(orders: seq<Order>)

  /** The text under a key: the serialisation of a value, or text JSON.parse rejects. */
  datatype Slot = Stored(value: Value) | Unparseable

  /** `getStorageItem(key, default)` on a snapshot of the store: the parsed value,
      or the default when the key is absent or its text does not parse. */
  function Lookup(slots: map<string, Slot>, key: string, default: Option<Value>): (v: Option<Value>)
    ensures key in slots && slots[key].Stored? ==> v == Some(slots[key].value)
    ensures key !in slots || slots[key].Unparseable? ==> v == default
  {
    if key in slots && slots[key].Stored? then Some(slots[key].value) else default
  }

  /** The browser store, shared by every service. */
  class LocalStorage {
    var slots: map<string, Slot>

    constructor (initial: map<string, Slot>)
      ensures slots == initial
    {
      slots := initial;
    }

    /** `getStorageItem`. */
    method GetItem(key: string, default: Option<Value>) returns (v: Option<Value>)
      ensures key in slots && slots[key].Stored? ==> v == Some(slots[key].value)
      ensures key !in slots || slots[key].Unparseable? ==> v == default
    {
      if key in slots && slots[key].Stored? {
        v := Some(slots[key].value);
      } else {
        v := default;
      }
    }

    /** `setStorageItem`: serialises the value under the key and reports success. */
    method SetItem(key: string, value: Value) returns (ok: bool)
      modifies this
      ensures ok
      ensures slots == old(slots)[key := Stored(value)]
    {
      slots := slots[key := Stored(value)];
      ok := true;
    }

    /** `removeStorageItem`. */
    method RemoveItem(key: string) returns (ok: bool)
      modifies this
      ensures ok
      ensures slots == old(slots) - {key}
    {
      slots := slots - {key};
      ok := true;
    }

    /** `clearAllStorageData`: removes every application key, one at a time. */
    method ClearAllStorageData() returns (ok: bool)
      modifies this
      ensures ok
      ensures slots.Keys == old(slots).Keys - set k | k in STORAGE_KEYS
      ensures forall k :: k in slots ==> slots[k] == old(slots)[k]
    {
      var i := 0;
      while i < |STORAGE_KEYS|
        invariant 0 <= i <= |STORAGE_KEYS|
        invariant slots.Keys == old(slots).Keys - set k | k in STORAGE_KEYS[..i]
        invariant forall k :: k in slots ==> slots[k] == old(slots)[k]
      {
        slots := slots - {STORAGE_KEYS[i]};
        assert STORAGE_KEYS[..i + 1] == STORAGE_KEYS[..i] + [STORAGE_KEYS[i]];
        i := i + 1;
      }
      assert STORAGE_KEYS[..i] == STORAGE_KEYS;
      ok := true;
    }
  }

  /** Round trip: what `setStorageItem` writes, `getStorageItem` reads back, whatever
      the default. */
  lemma SetThenGet(slots: map<string, Slot>, key: string, v: Value, default: Option<Value>)
    ensures Lookup(slots[key := Stored(v)], key, default) == Some(v)
  {
  }

  /** After `removeStorageItem(key)`, reading the key gives the default and every
      other key reads as before. */
  lemma RemoveThenGet(slots: map<string, Slot>, key: string, other: string, default: Option<Value>)
    requires other != key
    ensures Lookup(slots - {key}, key, default) == default
    ensures Lookup(slots - {key}, other, default) == Lookup(slots, other, default)
  {
  }

  // ---- what the services read, by key ----

  /** `getStorageItem(CART_ITEMS, [])`. */
  function CartOf(slots: map<string, Slot>): (rows: seq<CartItem>)
    ensures Lookup(slots, CART_ITEMS, None) == Some(CartRows(rows)) || rows == []
    ensures var v := Lookup(slots, CART_ITEMS, None);
      v.Some? && v.value.CartRows? ==> rows == v.value.rows
    ensures var v := Lookup(slots, CART_ITEMS, None);
      !(v.Some? && v.value.CartRows?) ==> rows == []
  {
    match Lookup(slots, CART_ITEMS, None)
      case Some(CartRows(rows)) => rows
      case _ => []
  }

  /** `getStorageItem(MOCK_USERS, [])`. */
  function UsersOf(slots: map<string, Slot>): (users: seq<Record>)
    ensures Lookup(slots, MOCK_USERS, None) == Some(UserTable(users)) || users == []
    ensures var v := Lookup(slots, MOCK_USERS, None);
      v.Some? && v.value.UserTable? ==> users == v.value.users
    ensures var v := Lookup(slots, MOCK_USERS, None);
      !(v.Some? && v.value.UserTable?) ==> users == []
  {
    match Lookup(slots, MOCK_USERS, None)
      case Some(UserTable(users)) => users
      case _ => []
  }

  /** `getStorageItem(MOCK_ORDERS, [])`. */
  function OrdersOf(slots: map<string, Slot>): (orders: seq<Order>)
    ensures Lookup(slots, MOCK_ORDERS, None) == Some(OrderTable(orders)) || orders == []
    ensures var v := Lookup(slots, MOCK_ORDERS, None);
      v.Some? && v.value.OrderTable? ==> orders == v.value.orders
    ensures var v := Lookup(slots, MOCK_ORDERS, None);
      !(v.Some? && v.value.OrderTable?) ==> orders == []
  {
    match Lookup(slots, MOCK_ORDERS, None)
      case Some(OrderTable(orders)) => orders
      case _ => []
  }

  /** `getStorageItem(USER_DATA)`: the stored user projection, or None (null). */
  function UserDataOf(slots: map<string, Slot>): (user: Option<Record>)
    ensures user.Some? ==> Lookup(slots, USER_DATA, None) == Some(UserData(user.value))
    ensures var v := Lookup(slots, USER_DATA, None);
      user.Some? <==> v.Some? && v.value.UserData?
  {
    match Lookup(slots, USER_DATA, None)
      case Some(UserData(record)) => Some(record)
      case _ => None
  }

  // ---- createPaginatedResponse ----

  datatype Pagination = Pagination(
    page: int,
    limit: int,
    total: int,
    pages: int,
    hasPrev: bool,
    hasNext: bool)

  datatype Paginated<T> = Paginated(data: seq<T>, pagination: Pagination)

  function Min(a: int, b: int): int {
    if a <= b then a else b
  }

  /** `startIndex = (page - 1) * limit`, the first position of a page. */
  function StartIndex(page: int, limit: int): (start: int)
    requires limit >= 1
    ensures page >= 1 ==> start >= 0
  {
    (page - 1) * limit
  }

  /** Each page starts `limit` positions after the one before. */
  lemma StartIndexStep(page: int, limit: int)
    requires limit >= 1
    ensures StartIndex(page + 1, limit) == StartIndex(page, limit) + limit
  {
  }

  lemma StartIndexMonotone(a: int, b: int, limit: int)
    requires a <= b && limit >= 1
    ensures StartIndex(a, limit) <= StartIndex(b, limit)
  {
    assert StartIndex(b, limit) - StartIndex(a, limit) == (b - a) * limit;
  }

  /** `Math.ceil(n / limit)` for a positive limit, as integer division: the last
      page is the one whose positions reach the n-th item. */
  function CeilDiv(n: nat, limit: int): (q: int)
    requires limit >= 1
    ensures n == 0 ==> q == 0
    ensures n > 0 ==> StartIndex(q, limit) < n
    ensures n <= StartIndex(q + 1, limit)
  {
    var q := (n + limit - 1) / limit;
    var rm := (n + limit - 1) % limit;
    assert n + limit - 1 == q * limit + rm;
    assert StartIndex(q, limit) == q * limit - limit;
    assert StartIndex(q + 1, limit) == q * limit;
    q
  }

  /** A slice of at most `width` positions never has more than `width` elements,
      whatever the signs of its bounds. */
  lemma SliceWidth<T>(xs: seq<T>, start: int, width: int)
    requires width >= 1
    ensures |JsSlice(xs, start, start + width)| <= width
  {
  }

  /** `data.slice(startIndex, endIndex)`: at most `limit` items, and from page 1 on
      the run of the page's positions that exist. */
  function PageItems<T>(data: seq<T>, page: int, limit: int): (r: seq<T>)
    requires limit >= 1
    ensures |r| <= limit
    ensures page >= 1 ==>
      r == data[Min(StartIndex(page, limit), |data|)..Min(StartIndex(page, limit) + limit, |data|)]
  {
    var startIndex := StartIndex(page, limit);
    SliceWidth(data, startIndex, limit);
    JsSlice(data, startIndex, startIndex + limit)
  }

  /** `createPaginatedResponse(data, page, limit)`. A limit below 1 is excluded: the
      page count `Math.ceil(length / limit)` is then not a number. */
  function Paginate<T>(data: seq<T>, page: int, limit: int): (r: Paginated<T>)
    requires limit >= 1
    ensures r.pagination.page == page && r.pagination.limit == limit
    ensures r.pagination.total == |data|
    ensures data == [] ==> r.pagination.pages == 0
    ensures data != [] ==> StartIndex(r.pagination.pages, limit) < |data|
    ensures |data| <= StartIndex(r.pagination.pages + 1, limit)
    ensures r.pagination.hasPrev <==> page > 1
    ensures r.pagination.hasNext <==> StartIndex(page, limit) + limit < |data|
    ensures |r.data| <= limit
    ensures page >= 1 ==>
      r.data == data[Min(StartIndex(page, limit), |data|)..Min(StartIndex(page, limit) + limit, |data|)]
  {
    var endIndex := StartIndex(page, limit) + limit;
    Paginated(
      PageItems(data, page, limit),
      Pagination(page, limit, |data|, CeilDiv(|data|, limit), page > 1, endIndex < |data|))
  }

  /** Every page from 1 to `pages` is non-empty, and every later page is empty. */
  lemma PagesInRangeAreNonEmpty<T>(data: seq<T>, page: int, limit: int)
    requires limit >= 1 && 1 <= page
    ensures page <= Paginate(data, page, limit).pagination.pages <==> Paginate(data, page, limit).data != []
  {
    var pages := Paginate(data, page, limit).pagination.pages;
    if page <= pages {
      StartIndexMonotone(page, pages, limit);
      assert StartIndex(page, limit) <= StartIndex(pages, limit) < |data|;
    } else {
      StartIndexMonotone(pages + 1, page, limit);
      assert |data| <= StartIndex(pages + 1, limit) <= StartIndex(page, limit);
    }
  }

  /** The items of pages 1..n in order. */
  function Pages<T>(data: seq<T>, n: nat, limit: int): seq<T>
    requires limit >= 1
  {
    if n == 0 then [] else Pages(data, n - 1, limit) + PageItems(data, n, limit)
  }

  /** Pages 1..n laid end to end give the first n·limit items. */
  lemma {:induction false} PagesConcatenate<T>(data: seq<T>, n: nat, limit: int)
    requires limit >= 1
    ensures Pages(data, n, limit) == data[..Min(StartIndex(n + 1, limit), |data|)]
  {
    if n > 0 {
      PagesConcatenate(data, n - 1, limit);
      StartIndexStep(n, limit);
      var lo := Min(StartIndex(n, limit), |data|);
      var hi := Min(StartIndex(n + 1, limit), |data|);
      assert Pages(data, n - 1, limit) == data[..lo];
      assert data[..lo] + data[lo..hi] == data[..hi];
    }
  }

  // ---- isValidEmail ----

  /** A character of the regular-expression class `[^\s@]`. */
  predicate Plain(c: char) {
    !IsWhitespace(c) && c != '@'
  }

  predicate AllPlain(s: string) {
    forall i :: 0 <= i < |s| ==> Plain(s[i])
  }

  /** `isValidEmail`: `/^[^\s@]+@[^\s@]+\.[^\s@]+$/.test(email)`, decided by a scan:
      the text before the first '@' is a non-empty plain run, and the rest is plain
      with a '.' strictly inside it. */
  predicate IsValidEmail(s: string) {
    match IndexOf(s, "@")
    case None => false
    case Some(at) =>
      var domain := s[at + 1..];
      at > 0 && AllPlain(s[..at]) && AllPlain(domain)
      && |domain| >= 3 && Includes(domain[1..|domain| - 1], ".")
  }

  /** The regular expression's own reading: `s` splits as `local '@' host '.' top`,
      three non-empty plain runs. */
  ghost predicate MatchesEmailPattern(s: string) {
    exists at, dot ::
      0 < at && at + 1 < dot && dot + 1 < |s|
      && s[at] == '@' && s[dot] == '.'
      && AllPlain(s[..at]) && AllPlain(s[at + 1..dot]) && AllPlain(s[dot + 1..])
  }

  lemma AllPlainSlice(x: string, i: int, j: int)
    requires AllPlain(x) && 0 <= i <= j <= |x|
    ensures AllPlain(x[i..j])
  {
    assert forall k :: 0 <= k < j - i ==> x[i..j][k] == x[i + k];
  }

  lemma AllPlainJoin(x: string, y: string)
    requires AllPlain(x) && AllPlain(y)
    ensures AllPlain(x + y)
  {
    assert forall k :: 0 <= k < |x + y| ==> (x + y)[k] == if k < |x| then x[k] else y[k - |x|];
  }

  /** What the scan accepts, the regular expression matches. */
  lemma ScanAcceptsOnlyPattern(s: string)
    requires IsValidEmail(s)
    ensures MatchesEmailPattern(s)
  {
    var at := IndexOf(s, "@").value;
    var domain := s[at + 1..];
    var inner := domain[1..|domain| - 1];
    var k := IndexOf(inner, ".").value;
    assert inner[k..k + 1] == ".";
    var dot := at + 2 + k;
    assert s[at..at + 1] == "@";
    assert s[dot] == inner[k];
    assert s[at + 1..dot] == domain[..k + 1];
    assert s[dot + 1..] == domain[k + 2..];
    AllPlainSlice(domain, 0, k + 1);
    AllPlainSlice(domain, k + 2, |domain|);
    assert 0 < at && at + 1 < dot && dot + 1 < |s|
      && s[at] == '@' && s[dot] == '.'
      && AllPlain(s[..at]) && AllPlain(s[at + 1..dot]) && AllPlain(s[dot + 1..]);
  }

  /** The first '@' of a string whose prefix before `at` is plain is at `at`. */
  lemma FirstAt(s: string, at: nat)
    requires at < |s| && s[at] == '@' && AllPlain(s[..at])
    ensures IndexOf(s, "@") == Some(at)
  {
    assert s[at..at + 1] == "@";
    forall j | 0 <= j < at
      ensures s[j] != '@'
    {
      assert s[..at][j] == s[j];
    }
    FirstOccurrence(s, "@", at);
  }

  /** What the regular expression matches, the scan accepts. */
  lemma PatternAcceptedByScan(s: string, at: nat, dot: nat)
    requires 0 < at && at + 1 < dot && dot + 1 < |s|
    requires s[at] == '@' && s[dot] == '.'
    requires AllPlain(s[..at]) && AllPlain(s[at + 1..dot]) && AllPlain(s[dot + 1..])
    ensures IsValidEmail(s)
  {
    FirstAt(s, at);
    var domain := s[at + 1..];
    assert domain == s[at + 1..dot] + [s[dot]] + s[dot + 1..];
    AllPlainJoin(s[at + 1..dot], [s[dot]]);
    AllPlainJoin(s[at + 1..dot] + [s[dot]], s[dot + 1..]);
    var inner := domain[1..|domain| - 1];
    var k := dot - at - 2;
    assert inner[k] == s[dot];
    assert inner[k..k + 1] == ".";
    assert OccursAt(inner, ".", k);
  }

  /** The scan accepts exactly the strings the regular expression matches. */
  lemma IsValidEmailMatchesPattern(s: string)
    ensures IsValidEmail(s) <==> MatchesEmailPattern(s)
  {
    if IsValidEmail(s) {
      ScanAcceptsOnlyPattern(s);
    }
    if MatchesEmailPattern(s) {
      var at, dot :| 0 < at && at + 1 < dot && dot + 1 < |s|
        && s[at] == '@' && s[dot] == '.'
        && AllPlain(s[..at]) && AllPlain(s[at + 1..dot]) && AllPlain(s[dot + 1..]);
      PatternAcceptedByScan(s, at, dot);
    }
  }

  /** The same condition in words: no whitespace, exactly one '@' with something
      before it, and after it a '.' with at least one character on each side. */
  ghost predicate EmailInWords(s: string) {
    && (forall i :: 0 <= i < |s| ==> !IsWhitespace(s[i]))
    && exists at :: 0 < at < |s| && s[at] == '@'
         && (forall i :: 0 <= i < |s| && i != at ==> s[i] != '@')
         && (exists dot :: at + 1 < dot < |s| - 1 && s[dot] == '.')
  }

  lemma PatternInWords(s: string, at: nat, dot: nat)
    requires 0 < at && at + 1 < dot && dot + 1 < |s|
    requires s[at] == '@' && s[dot] == '.'
    requires AllPlain(s[..at]) && AllPlain(s[at + 1..dot]) && AllPlain(s[dot + 1..])
    ensures EmailInWords(s)
  {
    forall i | 0 <= i < |s| && i != at ensures Plain(s[i]) {
      if i < at {
        assert s[..at][i] == s[i];
      } else if i < dot {
        assert s[at + 1..dot][i - at - 1] == s[i];
      } else if i > dot {
        assert s[dot + 1..][i - dot - 1] == s[i];
      }
    }
    assert at + 1 < dot < |s| - 1 && s[dot] == '.';
  }

  lemma InWordsPattern(s: string)
    requires EmailInWords(s)
    ensures MatchesEmailPattern(s)
  {
    var at :| 0 < at < |s| && s[at] == '@'
         && (forall i :: 0 <= i < |s| && i != at ==> s[i] != '@')
         && (exists dot :: at + 1 < dot < |s| - 1 && s[dot] == '.');
    var dot :| at + 1 < dot < |s| - 1 && s[dot] == '.';
    assert AllPlain(s[..at]);
    assert AllPlain(s[at + 1..dot]);
    assert AllPlain(s[dot + 1..]);
  }

  /** `isValidEmail` holds exactly for the strings described in words above. */
  lemma IsValidEmailInWords(s: string)
    ensures IsValidEmail(s) <==> EmailInWords(s)
  {
    IsValidEmailMatchesPattern(s);
    if MatchesEmailPattern(s) {
      var at, dot :| 0 < at && at + 1 < dot && dot + 1 < |s|
        && s[at] == '@' && s[dot] == '.'
        && AllPlain(s[..at]) && AllPlain(s[at + 1..dot]) && AllPlain(s[dot + 1..]);
      PatternInWords(s, at, dot);
    }
    if EmailInWords(s) {
      InWordsPattern(s);
    }
  }
}
