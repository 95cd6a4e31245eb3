/** The mock cart service (src/services/mock/MockCartService.js): a cart of rows
    persisted under the cart key, checked against the service's own copy of the
    medicine fixtures. Every operation first checks the session token. */
module CartService {
  import opened Common
  import opened Seqs
  import opened Numerals
  import opened Entities
  import opened Storage
  import opened Session
  import opened MockData

  const AUTH_REQUIRED := "Authentication required"
  const INVALID_INPUT := "Invalid medicine ID or quantity"
  const MEDICINE_NOT_FOUND := "Medicine not found"
  const NOT_AVAILABLE := "Medicine is currently not available"
  const QUANTITY_TOO_SMALL := "Quantity must be at least 1"
  const ITEM_NOT_FOUND := "Cart item not found"
  const CART_UPDATED := "Cart updated successfully"
  const ITEM_ADDED := "Item added to cart successfully"
  const ITEM_UPDATED := "Cart item updated successfully"
  const ITEM_REMOVED := "Item removed from cart successfully"
  const CART_CLEARED := "Cart cleared successfully"

  function StockMessage(stock: int): string {
    "Only " + IntText(stock) + " units available in stock"
  }

  function ExceedMessage(quantity: int, room: int): string {
    "Cannot add " + IntText(quantity) + " more. Only " + IntText(room) + " additional units available"
  }

  /** A cart row enriched with its medicine. */
  datatype CartLine = CartLine(item: CartItem, medicine: Medicine)
  datatype CartView = CartView(lines: seq<CartLine>, totalItems: int, totalAmount: int)
  datatype CartSummary = CartSummary(totalItems: int, totalAmount: int)

  // ---- reading the cart ----

  /** The `map`/`filter` of getCart: each row with its medicine, in order; rows
      whose medicine is unknown are dropped. */
  function Join(rows: seq<CartItem>, ms: seq<Medicine>): (lines: seq<CartLine>)
    ensures |lines| <= |rows|
    ensures forall l :: l in lines ==> l.item in rows && FindMedicine(ms, l.item.medicineId) == Some(l.medicine)
    decreases |rows|
  {
    if rows == [] then []
    else
      var init := Join(rows[..|rows| - 1], ms);
      var last := rows[|rows| - 1];
      match FindMedicine(ms, last.medicineId)
        case None => init
        case Some(m) => init + [CartLine(last, m)]
  }

  /** Every row whose medicine is known is in the joined cart. */
  lemma {:induction false} JoinKeepsKnown(rows: seq<CartItem>, ms: seq<Medicine>, row: CartItem)
    requires row in rows && FindMedicine(ms, row.medicineId).Some?
    ensures CartLine(row, FindMedicine(ms, row.medicineId).value) in Join(rows, ms)
    decreases |rows|
  {
    var last := rows[|rows| - 1];
    if row != last {
      assert rows == rows[..|rows| - 1] + [last];
      JoinKeepsKnown(rows[..|rows| - 1], ms, row);
    }
  }

  /** The cart rows behind the joined lines. */
  function Items(lines: seq<CartLine>): (items: seq<CartItem>)
    ensures |items| == |lines|
    ensures forall k :: 0 <= k < |lines| ==> items[k] == lines[k].item
  {
    seq(|lines|, k requires 0 <= k < |lines| => lines[k].item)
  }

  /** The joined cart is exactly the rows whose medicine is known, in their
      order and with their repetitions. */
  lemma {:induction false} JoinIsFilter(rows: seq<CartItem>, ms: seq<Medicine>)
    ensures Items(Join(rows, ms)) == Filter(rows, (r: CartItem) => FindMedicine(ms, r.medicineId).Some?)
    decreases |rows|
  {
    if rows != [] {
      var init := rows[..|rows| - 1];
      var last := rows[|rows| - 1];
      assert rows == init + [last];
      JoinIsFilter(init, ms);
      FilterSnoc(init, last, (r: CartItem) => FindMedicine(ms, r.medicineId).Some?);
      match FindMedicine(ms, last.medicineId)
        case None =>
        case Some(m) =>
          assert Items(Join(init, ms) + [CartLine(last, m)]) == Items(Join(init, ms)) + [last];
    }
  }

  /** `reduce((sum, item) => sum + item.quantity, 0)`. */
  function TotalItems(lines: seq<CartLine>): int
    decreases |lines|
  {
    if lines == [] then 0 else TotalItems(lines[..|lines| - 1]) + lines[|lines| - 1].item.quantity
  }

  /** `reduce((sum, item) => sum + item.medicine.price * item.quantity, 0)`, in cents. */
  function TotalAmount(lines: seq<CartLine>): int
    decreases |lines|
  {
    if lines == [] then 0
    else TotalAmount(lines[..|lines| - 1]) + lines[|lines| - 1].medicine.price * lines[|lines| - 1].item.quantity
  }

  /** Adding one more row to the cart adds its quantity and price to the totals
      when its medicine is known, and nothing otherwise. */
  lemma TotalsStep(rows: seq<CartItem>, ms: seq<Medicine>, i: int)
    requires 0 <= i < |rows|
    ensures var m := FindMedicine(ms, rows[i].medicineId);
      && TotalItems(Join(rows[..i + 1], ms))
           == TotalItems(Join(rows[..i], ms)) + (if m.Some? then rows[i].quantity else 0)
      && TotalAmount(Join(rows[..i + 1], ms))
           == TotalAmount(Join(rows[..i], ms)) + (if m.Some? then m.value.price * rows[i].quantity else 0)
  {
    assert rows[..i + 1][..i] == rows[..i];
    var before := Join(rows[..i], ms);
    var m := FindMedicine(ms, rows[i].medicineId);
    if m.Some? {
      var after := before + [CartLine(rows[i], m.value)];
      assert after[..|after| - 1] == before;
    }
  }

  /** With non-negative quantities and prices the totals are non-negative, and an
      empty cart totals zero. */
  lemma {:induction false} TotalsNonNegative(lines: seq<CartLine>)
    requires forall l :: l in lines ==> l.item.quantity >= 0 && l.medicine.price >= 0
    ensures TotalItems(lines) >= 0 && TotalAmount(lines) >= 0
    ensures lines == [] ==> TotalItems(lines) == 0 && TotalAmount(lines) == 0
    decreases |lines|
  {
    if lines != [] {
      var init := lines[..|lines| - 1];
      assert forall l :: l in init ==> l in lines;
      TotalsNonNegative(init);
      var last := lines[|lines| - 1];
      assert last in lines;
      assert last.medicine.price * last.item.quantity >= 0;
    }
  }

  // ---- finding rows ----

  /** `cartItems.findIndex(item => item.medicine_id === medicineId)`. */
  function RowOfMedicine(rows: seq<CartItem>, medicineId: string): (r: Option<nat>)
    ensures r.Some? ==> r.value < |rows| && rows[r.value].medicineId == medicineId
    ensures r.Some? ==> forall j :: 0 <= j < r.value ==> rows[j].medicineId != medicineId
    ensures r.None? <==> forall j :: 0 <= j < |rows| ==> rows[j].medicineId != medicineId
  {
    FindIndex(rows, (row: CartItem) => row.medicineId == medicineId)
  }

  /** `cartItems.findIndex(item => item.id === cartItemId)`. */
  function RowWithId(rows: seq<CartItem>, id: string): (r: Option<nat>)
    ensures r.Some? ==> r.value < |rows| && rows[r.value].id == id
    ensures r.Some? ==> forall j :: 0 <= j < r.value ==> rows[j].id != id
    ensures r.None? <==> forall j :: 0 <= j < |rows| ==> rows[j].id != id
  {
    FindIndex(rows, (row: CartItem) => row.id == id)
  }

  /** The cart holds at most one row per medicine. */
  predicate OneRowPerMedicine(rows: seq<CartItem>) {
    forall i, j :: 0 <= i < j < |rows| ==> rows[i].medicineId != rows[j].medicineId
  }

  /** The quantity of a medicine in the cart: that of its first row, or 0. */
  function CartQuantity(rows: seq<CartItem>, medicineId: string): int {
    match RowOfMedicine(rows, medicineId)
      case None => 0
      case Some(i) => rows[i].quantity
  }

  /** Replacing a row by one for the same medicine leaves every medicine's first row where it was. */
  lemma RowOfMedicineAfterReplace(rows: seq<CartItem>, i: nat, x: CartItem, medicineId: string)
    requires i < |rows| && x.medicineId == rows[i].medicineId
    ensures RowOfMedicine(rows[i := x], medicineId) == RowOfMedicine(rows, medicineId)
  {
    var after := rows[i := x];
    assert forall j :: 0 <= j < |rows| ==> after[j].medicineId == rows[j].medicineId;
  }

  /** Appending a row leaves earlier first rows in place; the new row is the first
      one only for a medicine not yet in the cart. */
  lemma RowOfMedicineAfterAppend(rows: seq<CartItem>, x: CartItem, medicineId: string)
    ensures RowOfMedicine(rows, medicineId).Some? ==>
      RowOfMedicine(rows + [x], medicineId) == RowOfMedicine(rows, medicineId)
    ensures RowOfMedicine(rows, medicineId).None? && x.medicineId == medicineId ==>
      RowOfMedicine(rows + [x], medicineId) == Some(|rows|)
    ensures RowOfMedicine(rows, medicineId).None? && x.medicineId != medicineId ==>
      RowOfMedicine(rows + [x], medicineId).None?
  {
    var after := rows + [x];
    assert forall j :: 0 <= j < |rows| ==> after[j] == rows[j];
    assert after[|rows|] == x;
  }

  // ---- addToCart ----

  /** What addToCart answers and the cart it leaves, for a valid token: the
      validation cascade, then a merge into the medicine's row or a new row. */
  function AddOutcome(rows: seq<CartItem>, ms: seq<Medicine>, medicineId: string, quantity: int,
                      newId: string, now: int): (r: (Response<CartLine>, seq<CartItem>))
    ensures r.0.Err? ==> r.1 == rows
  {
    if medicineId == "" || quantity < 1 then (Err(INVALID_INPUT), rows)
    else match FindMedicine(ms, medicineId)
      case None => (Err(MEDICINE_NOT_FOUND), rows)
      case Some(m) =>
        if m.availabilityStatus != AVAILABLE then (Err(NOT_AVAILABLE), rows)
        else if m.stockQuantity < quantity then (Err(StockMessage(m.stockQuantity)), rows)
        else match RowOfMedicine(rows, medicineId)
          case Some(i) =>
            var newQuantity := rows[i].quantity + quantity;
            if newQuantity > m.stockQuantity then
              (Err(ExceedMessage(quantity, m.stockQuantity - rows[i].quantity)), rows)
            else
              var item := rows[i].(quantity := newQuantity, updatedAt := now);
              (Ok(CART_UPDATED, CartLine(item, m)), rows[i := item])
          case None =>
            var item := CartItem(newId, medicineId, quantity, now, now);
            (Ok(ITEM_ADDED, CartLine(item, m)), rows + [item])
  }

  /** addToCart succeeds exactly when the id is given, the quantity is at least 1,
      the medicine exists with status exactly 'available', and both the quantity
      and the cart's quantity after adding fit in stock. */
  lemma AddSucceedsIff(rows: seq<CartItem>, ms: seq<Medicine>, medicineId: string, quantity: int,
                       newId: string, now: int)
    ensures AddOutcome(rows, ms, medicineId, quantity, newId, now).0.Ok? <==>
      && medicineId != "" && quantity >= 1
      && FindMedicine(ms, medicineId).Some?
      && FindMedicine(ms, medicineId).value.availabilityStatus == AVAILABLE
      && quantity <= FindMedicine(ms, medicineId).value.stockQuantity
      && CartQuantity(rows, medicineId) + quantity <= FindMedicine(ms, medicineId).value.stockQuantity
  {
  }

  /** The failures of addToCart, each with its message, checked in this order:
      input, existence, status (so 'low_stock' is refused too), stock, and the
      room left next to what the cart already holds. */
  lemma AddRejections(rows: seq<CartItem>, ms: seq<Medicine>, medicineId: string, quantity: int,
                      newId: string, now: int)
    ensures var r := AddOutcome(rows, ms, medicineId, quantity, newId, now).0;
      && (medicineId == "" || quantity < 1 ==> r == Err(INVALID_INPUT))
      && (medicineId != "" && quantity >= 1 && FindMedicine(ms, medicineId).None? ==> r == Err(MEDICINE_NOT_FOUND))
      && (medicineId != "" && quantity >= 1 && FindMedicine(ms, medicineId).Some? ==>
           var m := FindMedicine(ms, medicineId).value;
           && (m.availabilityStatus != AVAILABLE ==> r == Err(NOT_AVAILABLE))
           && (m.availabilityStatus == AVAILABLE && m.stockQuantity < quantity ==>
                 r == Err(StockMessage(m.stockQuantity)))
           && (m.availabilityStatus == AVAILABLE && m.stockQuantity >= quantity
               && RowOfMedicine(rows, medicineId).Some?
               && CartQuantity(rows, medicineId) + quantity > m.stockQuantity ==>
                 r == Err(ExceedMessage(quantity, m.stockQuantity - CartQuantity(rows, medicineId)))))
  {
  }

  /** addToCart never creates a second row for a medicine. */
  lemma AddKeepsOneRowPerMedicine(rows: seq<CartItem>, ms: seq<Medicine>, medicineId: string, quantity: int,
                                  newId: string, now: int)
    requires OneRowPerMedicine(rows)
    ensures OneRowPerMedicine(AddOutcome(rows, ms, medicineId, quantity, newId, now).1)
  {
    var r := AddOutcome(rows, ms, medicineId, quantity, newId, now);
    if r.0.Ok? {
      match RowOfMedicine(rows, medicineId)
        case Some(i) =>
          assert forall j :: 0 <= j < |rows| ==> r.1[j].medicineId == rows[j].medicineId;
        case None =>
          assert forall j :: 0 <= j < |rows| ==> r.1[j] == rows[j];
    }
  }

  /** On success the medicine's quantity grows by exactly the quantity added,
      every other medicine's quantity is unchanged, and the cart gains a row only
      when the medicine was not in it. */
  lemma AddQuantities(rows: seq<CartItem>, ms: seq<Medicine>, medicineId: string, quantity: int,
                      newId: string, now: int, other: string)
    requires other != medicineId
    ensures var r := AddOutcome(rows, ms, medicineId, quantity, newId, now);
      r.0.Ok? ==>
        && CartQuantity(r.1, medicineId) == CartQuantity(rows, medicineId) + quantity
        && CartQuantity(r.1, other) == CartQuantity(rows, other)
        && |r.1| == |rows| + (if RowOfMedicine(rows, medicineId).Some? then 0 else 1)
  {
    var r := AddOutcome(rows, ms, medicineId, quantity, newId, now);
    if r.0.Ok? {
      match RowOfMedicine(rows, medicineId)
        case Some(i) =>
          var item := rows[i].(quantity := rows[i].quantity + quantity, updatedAt := now);
          assert r.1 == rows[i := item];
          RowOfMedicineAfterReplace(rows, i, item, medicineId);
          RowOfMedicineAfterReplace(rows, i, item, other);
          var k := RowOfMedicine(rows, other);
          if k.Some? {
            assert k.value != i;
          }
        case None =>
          var item := CartItem(newId, medicineId, quantity, now, now);
          assert r.1 == rows + [item];
          RowOfMedicineAfterAppend(rows, item, medicineId);
          RowOfMedicineAfterAppend(rows, item, other);
          var k := RowOfMedicine(rows, other);
          if k.Some? {
            assert (rows + [item])[k.value] == rows[k.value];
          }
    }
  }

  // ---- updateCartItem ----

  /** What updateCartItem answers and the cart it leaves, for a valid token. */
  function UpdateOutcome(rows: seq<CartItem>, ms: seq<Medicine>, itemId: string, quantity: int, now: int)
    : (r: (Response<CartLine>, seq<CartItem>))
    ensures r.0.Err? ==> r.1 == rows
  {
    if quantity < 1 then (Err(QUANTITY_TOO_SMALL), rows)
    else match RowWithId(rows, itemId)
      case None => (Err(ITEM_NOT_FOUND), rows)
      case Some(i) =>
        match FindMedicine(ms, rows[i].medicineId)
          case None => (Err(MEDICINE_NOT_FOUND), rows)
          case Some(m) =>
            if quantity > m.stockQuantity then (Err(StockMessage(m.stockQuantity)), rows)
            else
              var item := rows[i].(quantity := quantity, updatedAt := now);
              (Ok(ITEM_UPDATED, CartLine(item, m)), rows[i := item])
  }

  /** updateCartItem refuses a quantity below 1, an unknown row, an unknown
      medicine and a quantity above stock, in that order; otherwise it succeeds. */
  lemma UpdateRejections(rows: seq<CartItem>, ms: seq<Medicine>, itemId: string, quantity: int, now: int)
    ensures var r := UpdateOutcome(rows, ms, itemId, quantity, now).0;
      && (quantity < 1 ==> r == Err(QUANTITY_TOO_SMALL))
      && (quantity >= 1 && RowWithId(rows, itemId).None? ==> r == Err(ITEM_NOT_FOUND))
      && (quantity >= 1 && RowWithId(rows, itemId).Some? ==>
           var m := FindMedicine(ms, rows[RowWithId(rows, itemId).value].medicineId);
           && (m.None? ==> r == Err(MEDICINE_NOT_FOUND))
           && (m.Some? && quantity > m.value.stockQuantity ==> r == Err(StockMessage(m.value.stockQuantity)))
           && (m.Some? && quantity <= m.value.stockQuantity ==> r.Ok?))
  {
  }

  /** A successful update sets the quantity of the first row with the id and
      leaves every other row, and the row's other fields but its time, unchanged. */
  lemma UpdateChangesOnlyThatRow(rows: seq<CartItem>, ms: seq<Medicine>, itemId: string, quantity: int, now: int)
    ensures var r := UpdateOutcome(rows, ms, itemId, quantity, now);
      r.0.Ok? ==>
        var i := RowWithId(rows, itemId).value;
        && |r.1| == |rows|
        && (forall j :: 0 <= j < |rows| && j != i ==> r.1[j] == rows[j])
        && r.1[i].quantity == quantity
        && r.1[i].id == rows[i].id && r.1[i].medicineId == rows[i].medicineId
        && r.1[i].addedAt == rows[i].addedAt
  {
  }

  // ---- removeFromCart ----

  /** What removeFromCart answers and the cart it leaves, for a valid token. */
  function RemoveOutcome(rows: seq<CartItem>, itemId: string): (r: (Response<()>, seq<CartItem>))
    ensures r.0.Err? ==> r.1 == rows
  {
    match RowWithId(rows, itemId)
      case None => (Err(ITEM_NOT_FOUND), rows)
      case Some(i) => (Ok(ITEM_REMOVED, ()), rows[..i] + rows[i + 1..])
  }

  /** removeFromCart fails exactly for an unknown id; otherwise it deletes the
      first row with the id, one row and no other, keeping the rest in order. */
  lemma RemoveDeletesExactlyThatRow(rows: seq<CartItem>, itemId: string)
    ensures var r := RemoveOutcome(rows, itemId);
      && (r.0.Err? <==> forall j :: 0 <= j < |rows| ==> rows[j].id != itemId)
      && (r.0.Err? ==> r.0.message == ITEM_NOT_FOUND)
      && (r.0.Ok? ==>
            var i := RowWithId(rows, itemId).value;
            && |r.1| == |rows| - 1
            && multiset(r.1) == multiset(rows) - multiset{rows[i]}
            && IsSubsequence(r.1, rows))
  {
    var r := RemoveOutcome(rows, itemId);
    if r.0.Ok? {
      var i := RowWithId(rows, itemId).value;
      assert rows == rows[..i] + [rows[i]] + rows[i + 1..];
      SpliceIsSubsequence(rows, i);
    }
  }

  /** Deleting one element leaves a subsequence. */
  lemma {:induction false} SpliceIsSubsequence<T>(xs: seq<T>, i: nat)
    requires i < |xs|
    ensures IsSubsequence(xs[..i] + xs[i + 1..], xs)
    decreases i
  {
    if i == 0 {
      assert xs[..0] + xs[1..] == xs[1..];
      SubsequenceSelf(xs[1..]);
      SubsequenceDrop(xs[1..], xs);
    } else {
      var rest := xs[1..];
      SpliceIsSubsequence(rest, i - 1);
      assert xs[..i] + xs[i + 1..] == [xs[0]] + (rest[..i - 1] + rest[i..]);
    }
  }

  /** Every sequence is a subsequence of itself. */
  lemma {:induction false} SubsequenceSelf<T>(xs: seq<T>)
    ensures IsSubsequence(xs, xs)
    decreases |xs|
  {
    if xs != [] {
      SubsequenceSelf(xs[1..]);
    }
  }

  /** With unique row ids, after a successful removal no row carries the id. */
  lemma RemoveLeavesNoSuchRow(rows: seq<CartItem>, itemId: string)
    requires forall i, j :: 0 <= i < j < |rows| ==> rows[i].id != rows[j].id
    ensures forall x :: x in RemoveOutcome(rows, itemId).1 ==> x.id != itemId
  {
    var r := RemoveOutcome(rows, itemId);
    if r.0.Ok? {
      var i := RowWithId(rows, itemId).value;
      forall x | x in r.1
        ensures x.id != itemId
      {
        var k :| 0 <= k < |r.1| && r.1[k] == x;
        if k < i {
          assert x == rows[k];
        } else {
          assert x == rows[k + 1];
        }
      }
    }
  }

  // ---- the service ----

  class MockCartService {
    const storage: LocalStorage
    /** The service's own copy of the medicine fixtures; stock changes made by the
        medicine service never reach it. */
    const medicines: seq<Medicine>

    constructor (storage: LocalStorage)
      ensures this.storage == storage && medicines == MockData.MOCK_MEDICINES
    {
      this.storage := storage;
      medicines := MockData.MOCK_MEDICINES;
    }

    /** `getCart(token)`. */
    method GetCart(token: Option<string>, now: int) returns (r: Response<CartView>)
      ensures !IsValidToken(token, now) ==> r == Err(AUTH_REQUIRED)
      ensures IsValidToken(token, now) ==>
        var lines := Join(CartOf(storage.slots), medicines);
        r == Ok("", CartView(lines, TotalItems(lines), TotalAmount(lines)))
    {
      if !IsValidToken(token, now) {
        return Err(AUTH_REQUIRED);
      }
      var lines := Join(CartOf(storage.slots), medicines);
      r := Ok("", CartView(lines, TotalItems(lines), TotalAmount(lines)));
    }

    /** `getCartSummary(token)`: one pass over the rows, counting only rows whose
        medicine is known; the totals are those getCart reports. */
    method GetCartSummary(token: Option<string>, now: int) returns (r: Response<CartSummary>)
      ensures !IsValidToken(token, now) ==> r == Err(AUTH_REQUIRED)
      ensures IsValidToken(token, now) ==>
        var lines := Join(CartOf(storage.slots), medicines);
        r == Ok("", CartSummary(TotalItems(lines), TotalAmount(lines)))
    {
      if !IsValidToken(token, now) {
        return Err(AUTH_REQUIRED);
      }
      var rows := CartOf(storage.slots);
      var totalItems, totalAmount := 0, 0;
      var i := 0;
      while i < |rows|
        invariant 0 <= i <= |rows|
        invariant totalItems == TotalItems(Join(rows[..i], medicines))
        invariant totalAmount == TotalAmount(Join(rows[..i], medicines))
      {
        var medicine := FindMedicine(medicines, rows[i].medicineId);
        TotalsStep(rows, medicines, i);
        if medicine.Some? {
          totalItems := totalItems + rows[i].quantity;
          totalAmount := totalAmount + medicine.value.price * rows[i].quantity;
        }
        i := i + 1;
      }
      assert rows[..i] == rows;
      r := Ok("", CartSummary(totalItems, totalAmount));
    }

    /** `addToCart(token, medicineId, quantity)`, with the new row's id and the
        time given. The cart is written only on success. */
    method AddToCart(token: Option<string>, medicineId: string, quantity: int, newId: string, now: int)
      returns (r: Response<CartLine>)
      modifies storage
      ensures !IsValidToken(token, now) ==> r == Err(AUTH_REQUIRED)
      ensures IsValidToken(token, now) ==> r == AddOutcome(CartOf(old(storage.slots)), medicines, medicineId, quantity, newId, now).0
      ensures r.Ok? ==>
        storage.slots == old(storage.slots)[CART_ITEMS := Stored(CartRows(AddOutcome(CartOf(old(storage.slots)), medicines, medicineId, quantity, newId, now).1))]
      ensures r.Err? ==> storage.slots == old(storage.slots)
    {
      if !IsValidToken(token, now) {
        return Err(AUTH_REQUIRED);
      }
      var rows;
      r, rows := AddRow(CartOf(storage.slots), medicineId, quantity, newId, now);
      if r.Ok? {
        var _ := storage.SetItem(CART_ITEMS, CartRows(rows));
      }
    }

    /** The checks and the row update of `addToCart`, on the rows read from storage. */
    method AddRow(rows: seq<CartItem>, medicineId: string, quantity: int, newId: string, now: int)
      returns (r: Response<CartLine>, after: seq<CartItem>)
      ensures (r, after) == AddOutcome(rows, medicines, medicineId, quantity, newId, now)
    {
      if medicineId == "" || quantity < 1 {
        return Err(INVALID_INPUT), rows;
      }
      var medicine := FindMedicine(medicines, medicineId);
      if medicine.None? {
        return Err(MEDICINE_NOT_FOUND), rows;
      }
      var m := medicine.value;
      if m.availabilityStatus != AVAILABLE {
        return Err(NOT_AVAILABLE), rows;
      }
      if m.stockQuantity < quantity {
        return Err(StockMessage(m.stockQuantity)), rows;
      }
      var existing := RowOfMedicine(rows, medicineId);
      var message, item;
      after := rows;
      if existing.Some? {
        var i := existing.value;
        var newQuantity := rows[i].quantity + quantity;
        if newQuantity > m.stockQuantity {
          return Err(ExceedMessage(quantity, m.stockQuantity - rows[i].quantity)), rows;
        }
        item := rows[i].(quantity := newQuantity, updatedAt := now);
        after := rows[i := item];
        message := CART_UPDATED;
      } else {
        item := CartItem(newId, medicineId, quantity, now, now);
        after := rows + [item];
        message := ITEM_ADDED;
      }
      r := Ok(message, CartLine(item, m));
    }

    /** `updateCartItem(token, cartItemId, quantity)`. The cart is written only on success. */
    method UpdateCartItem(token: Option<string>, itemId: string, quantity: int, now: int)
      returns (r: Response<CartLine>)
      modifies storage
      ensures !IsValidToken(token, now) ==> r == Err(AUTH_REQUIRED)
      ensures IsValidToken(token, now) ==> r == UpdateOutcome(CartOf(old(storage.slots)), medicines, itemId, quantity, now).0
      ensures r.Ok? ==>
        storage.slots == old(storage.slots)[CART_ITEMS := Stored(CartRows(UpdateOutcome(CartOf(old(storage.slots)), medicines, itemId, quantity, now).1))]
      ensures r.Err? ==> storage.slots == old(storage.slots)
    {
      if !IsValidToken(token, now) {
        return Err(AUTH_REQUIRED);
      }
      if quantity < 1 {
        return Err(QUANTITY_TOO_SMALL);
      }
      var rows := CartOf(storage.slots);
      var index := RowWithId(rows, itemId);
      if index.None? {
        return Err(ITEM_NOT_FOUND);
      }
      var i := index.value;
      var medicine := FindMedicine(medicines, rows[i].medicineId);
      if medicine.None? {
        return Err(MEDICINE_NOT_FOUND);
      }
      if quantity > medicine.value.stockQuantity {
        return Err(StockMessage(medicine.value.stockQuantity));
      }
      rows := rows[i := rows[i].(quantity := quantity, updatedAt := now)];
      var _ := storage.SetItem(CART_ITEMS, CartRows(rows));
      r := Ok(ITEM_UPDATED, CartLine(rows[i], medicine.value));
    }

    /** `removeFromCart(token, cartItemId)`: splices out the row. */
    method RemoveFromCart(token: Option<string>, itemId: string, now: int) returns (r: Response<()>)
      modifies storage
      ensures !IsValidToken(token, now) ==> r == Err(AUTH_REQUIRED)
      ensures IsValidToken(token, now) ==> r == RemoveOutcome(CartOf(old(storage.slots)), itemId).0
      ensures r.Ok? ==>
        storage.slots == old(storage.slots)[CART_ITEMS := Stored(CartRows(RemoveOutcome(CartOf(old(storage.slots)), itemId).1))]
      ensures r.Err? ==> storage.slots == old(storage.slots)
    {
      if !IsValidToken(token, now) {
        return Err(AUTH_REQUIRED);
      }
      var rows := CartOf(storage.slots);
      var index := RowWithId(rows, itemId);
      if index.None? {
        return Err(ITEM_NOT_FOUND);
      }
      var i := index.value;
      rows := rows[..i] + rows[i + 1..];
      var _ := storage.SetItem(CART_ITEMS, CartRows(rows));
      r := Ok(ITEM_REMOVED, ());
    }

    /** `clearCart(token)`: with a valid token it always succeeds and leaves an
        empty cart, so a second call succeeds as well; nothing else changes. */
    method ClearCart(token: Option<string>, now: int) returns (r: Response<()>)
      modifies storage
      ensures r.Ok? <==> IsValidToken(token, now)
      ensures !IsValidToken(token, now) ==> r == Err(AUTH_REQUIRED) && storage.slots == old(storage.slots)
      ensures IsValidToken(token, now) ==>
        && r == Ok(CART_CLEARED, ())
        && storage.slots == old(storage.slots)[CART_ITEMS := Stored(CartRows([]))]
        && CartOf(storage.slots) == []
    {
      if !IsValidToken(token, now) {
        return Err(AUTH_REQUIRED);
      }
      var _ := storage.SetItem(CART_ITEMS, CartRows([]));
      r := Ok(CART_CLEARED, ());
    }
  }
}
