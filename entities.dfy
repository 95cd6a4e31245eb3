/** The records the mock backend keeps. Medicines, cart rows, orders and pharmacies
    have a fixed shape written only by the services, so they are typed; users and
    the user projection are open JavaScript objects (see module Json). Money is in
    cents, ratings in tenths of a star, times in milliseconds since the epoch. */
module Entities {
  import opened Common
  import opened Json
  import opened Seqs

  const AVAILABLE := "available"
  const LOW_STOCK := "low_stock"
  const OUT_OF_STOCK := "out_of_stock"

  datatype Medicine = Medicine(
    id: string,
    name: string,
    brand: string,
    category: string,
    description: string,
    price: int,                  // cents
    stockQuantity: int,
    prescriptionRequired: bool,
    availabilityStatus: string,
    dosageForm: string,
    activeIngredients: seq<string>,
    rating: Option<int>,         // tenths of a star; absent in the service fixtures
    reviewCount: Option<int>,
    createdAt: int,
    updatedAt: int)

  /** One row of the persisted cart. */
  datatype CartItem = CartItem(
    id: string,
    medicineId: string,
    quantity: int,
    addedAt: int,
    updatedAt: int)

  datatype OrderItem = OrderItem(
    medicineId: string,
    quantity: int,
    unitPrice: int,
    totalPrice: int)

  /** A stored order. The owner, address, payment method and notes are copied from
      JavaScript values, so they are kept as such (None is undefined). */
  datatype Order = Order(
    id: string,
    userId: Option<Json>,
    status: string,
    items: seq<OrderItem>,
    totalAmount: int,
    deliveryAddress: Option<Json>,
    paymentMethod: Option<Json>,
    notes: Option<Json>,
    createdAt: int,
    updatedAt: int,
    estimatedDelivery: int)

  datatype Address = Address(
    street: string,
    city: string,
    state: string,
    zipCode: string,
    country: string)

  datatype Pharmacy = Pharmacy(
    id: string,
    name: string,
    address: Address,
    phone: string,
    email: string,
    hours: map<string, string>,  // lower-case weekday name to opening hours text
    services: seq<string>,
    rating: int,                 // tenths of a star
    isPartner: bool)

  /** `medicines.find(m => m.id === id)`: the first medicine with that id. */
  function FindMedicine(ms: seq<Medicine>, id: string): (r: Option<Medicine>)
    ensures r.Some? ==> r.value in ms && r.value.id == id
    ensures r.None? <==> forall m :: m in ms ==> m.id != id
    ensures forall i :: 0 <= i < |ms| && ms[i].id == id && (forall j :: 0 <= j < i ==> ms[j].id != id) ==>
      r == Some(ms[i])
  {
    match FindIndex(ms, (m: Medicine) => m.id == id)
      case None => None
      case Some(i) => Some(ms[i])
  }
}
