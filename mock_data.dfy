/** The fixture data of the mock backend (src/services/mock/mockData.js): the
    medicine catalogue and its categories, the seeded user accounts, the
    pharmacy locations and the order statuses. Prices are in cents, ratings in
    tenths of a star and times in milliseconds since the epoch. */
module MockData {
  import opened Common
  import opened Json
  import opened Text
  import opened Entities

  /** 2024-01-15T10:00:00Z, the creation and update time of every fixture medicine. */
  const FIXTURE_TIME := 1705312800000

  const MEDICINE_CATEGORIES: seq<string> := [
    "Pain Relief", "Antibiotics", "Vitamins & Supplements", "Digestive Health",
    "Cardiovascular", "Respiratory", "Skin Care", "Mental Health", "Diabetes Care",
    "Eye Care", "Women's Health", "Men's Health", "Children's Health", "Senior Care",
    "First Aid"]

  const MOCK_MEDICINES: seq<Medicine> := [
    Medicine(
      id := "med_001", name := "Acetaminophen 500mg", brand := "Tylenol",
      category := "Pain Relief",
      description := "Fast-acting pain reliever and fever reducer. Effective for headaches, muscle aches, and arthritis pain.",
      price := 1299, stockQuantity := 150, prescriptionRequired := false,
      availabilityStatus := "available", dosageForm := "Tablet",
      activeIngredients := ["Acetaminophen 500mg"],
      rating := None, reviewCount := None, createdAt := FIXTURE_TIME, updatedAt := FIXTURE_TIME),
    Medicine(
      id := "med_002", name := "Ibuprofen 400mg", brand := "Advil",
      category := "Pain Relief",
      description := "Non-steroidal anti-inflammatory drug (NSAID) for pain, inflammation, and fever reduction.",
      price := 1549, stockQuantity := 200, prescriptionRequired := false,
      availabilityStatus := "available", dosageForm := "Tablet",
      activeIngredients := ["Ibuprofen 400mg"],
      rating := None, reviewCount := None, createdAt := FIXTURE_TIME, updatedAt := FIXTURE_TIME),
    Medicine(
      id := "med_003", name := "Amoxicillin 500mg", brand := "Generic",
      category := "Antibiotics",
      description := "Broad-spectrum antibiotic for bacterial infections including respiratory tract infections.",
      price := 2599, stockQuantity := 100, prescriptionRequired := true,
      availabilityStatus := "available", dosageForm := "Capsule",
      activeIngredients := ["Amoxicillin 500mg"],
      rating := None, reviewCount := None, createdAt := FIXTURE_TIME, updatedAt := FIXTURE_TIME),
    Medicine(
      id := "med_004", name := "Azithromycin 250mg", brand := "Z-Pack",
      category := "Antibiotics",
      description := "Macrolide antibiotic for respiratory and skin infections.",
      price := 4599, stockQuantity := 75, prescriptionRequired := true,
      availabilityStatus := "available", dosageForm := "Tablet",
      activeIngredients := ["Azithromycin 250mg"],
      rating := None, reviewCount := None, createdAt := FIXTURE_TIME, updatedAt := FIXTURE_TIME),
    Medicine(
      id := "med_005", name := "Vitamin D3 2000 IU", brand := "Nature Made",
      category := "Vitamins & Supplements",
      description := "Essential vitamin for bone health and immune system support.",
      price := 1899, stockQuantity := 300, prescriptionRequired := false,
      availabilityStatus := "available", dosageForm := "Softgel",
      activeIngredients := ["Vitamin D3 2000 IU"],
      rating := None, reviewCount := None, createdAt := FIXTURE_TIME, updatedAt := FIXTURE_TIME),
    Medicine(
      id := "med_006", name := "Multivitamin Complete", brand := "Centrum",
      category := "Vitamins & Supplements",
      description := "Complete daily multivitamin with essential vitamins and minerals.",
      price := 2499, stockQuantity := 250, prescriptionRequired := false,
      availabilityStatus := "available", dosageForm := "Tablet",
      activeIngredients := ["Multiple vitamins and minerals"],
      rating := None, reviewCount := None, createdAt := FIXTURE_TIME, updatedAt := FIXTURE_TIME),
    Medicine(
      id := "med_007", name := "Omeprazole 20mg", brand := "Prilosec",
      category := "Digestive Health",
      description := "Proton pump inhibitor for acid reflux and heartburn relief.",
      price := 2299, stockQuantity := 120, prescriptionRequired := false,
      availabilityStatus := "available", dosageForm := "Capsule",
      activeIngredients := ["Omeprazole 20mg"],
      rating := None, reviewCount := None, createdAt := FIXTURE_TIME, updatedAt := FIXTURE_TIME),
    Medicine(
      id := "med_008", name := "Probiotics 50 Billion CFU", brand := "Garden of Life",
      category := "Digestive Health",
      description := "High-potency probiotic for digestive and immune health support.",
      price := 3599, stockQuantity := 80, prescriptionRequired := false,
      availabilityStatus := "available", dosageForm := "Capsule",
      activeIngredients := ["Multiple probiotic strains"],
      rating := None, reviewCount := None, createdAt := FIXTURE_TIME, updatedAt := FIXTURE_TIME),
    Medicine(
      id := "med_009", name := "Lisinopril 10mg", brand := "Generic",
      category := "Cardiovascular",
      description := "ACE inhibitor for high blood pressure and heart failure management.",
      price := 3299, stockQuantity := 90, prescriptionRequired := true,
      availabilityStatus := "available", dosageForm := "Tablet",
      activeIngredients := ["Lisinopril 10mg"],
      rating := None, reviewCount := None, createdAt := FIXTURE_TIME, updatedAt := FIXTURE_TIME),
    Medicine(
      id := "med_010", name := "Atorvastatin 20mg", brand := "Lipitor",
      category := "Cardiovascular",
      description := "Statin medication for cholesterol management and heart disease prevention.",
      price := 2899, stockQuantity := 110, prescriptionRequired := true,
      availabilityStatus := "available", dosageForm := "Tablet",
      activeIngredients := ["Atorvastatin 20mg"],
      rating := None, reviewCount := None, createdAt := FIXTURE_TIME, updatedAt := FIXTURE_TIME),
    Medicine(
      id := "med_011", name := "Albuterol Inhaler", brand := "ProAir",
      category := "Respiratory",
      description := "Bronchodilator inhaler for asthma and COPD rescue therapy.",
      price := 6599, stockQuantity := 50, prescriptionRequired := true,
      availabilityStatus := "available", dosageForm := "Inhaler",
      activeIngredients := ["Albuterol sulfate"],
      rating := None, reviewCount := None, createdAt := FIXTURE_TIME, updatedAt := FIXTURE_TIME),
    Medicine(
      id := "med_012", name := "Dextromethorphan Cough Syrup", brand := "Robitussin",
      category := "Respiratory",
      description := "Cough suppressant for dry, non-productive cough relief.",
      price := 1499, stockQuantity := 180, prescriptionRequired := false,
      availabilityStatus := "available", dosageForm := "Syrup",
      activeIngredients := ["Dextromethorphan HBr"],
      rating := None, reviewCount := None, createdAt := FIXTURE_TIME, updatedAt := FIXTURE_TIME),
    Medicine(
      id := "med_013", name := "Hydrocortisone Cream 1%", brand := "Cortizone-10",
      category := "Skin Care",
      description := "Topical anti-inflammatory for eczema, rashes, and itching relief.",
      price := 899, stockQuantity := 200, prescriptionRequired := false,
      availabilityStatus := "available", dosageForm := "Cream",
      activeIngredients := ["Hydrocortisone 1%"],
      rating := None, reviewCount := None, createdAt := FIXTURE_TIME, updatedAt := FIXTURE_TIME),
    Medicine(
      id := "med_014", name := "Tretinoin Gel 0.1%", brand := "Retin-A",
      category := "Skin Care",
      description := "Prescription retinoid for acne treatment and anti-aging.",
      price := 8599, stockQuantity := 30, prescriptionRequired := true,
      availabilityStatus := "available", dosageForm := "Gel",
      activeIngredients := ["Tretinoin 0.1%"],
      rating := None, reviewCount := None, createdAt := FIXTURE_TIME, updatedAt := FIXTURE_TIME),
    Medicine(
      id := "med_015", name := "Sertraline 50mg", brand := "Zoloft",
      category := "Mental Health",
      description := "SSRI antidepressant for depression and anxiety disorders.",
      price := 2999, stockQuantity := 85, prescriptionRequired := true,
      availabilityStatus := "available", dosageForm := "Tablet",
      activeIngredients := ["Sertraline HCl 50mg"],
      rating := None, reviewCount := None, createdAt := FIXTURE_TIME, updatedAt := FIXTURE_TIME),
    Medicine(
      id := "med_016", name := "Insulin Rapid Acting", brand := "Humalog",
      category := "Diabetes Care",
      description := "Fast-acting insulin for diabetes management.",
      price := 12599, stockQuantity := 0, prescriptionRequired := true,
      availabilityStatus := "out_of_stock", dosageForm := "Injection",
      activeIngredients := ["Insulin lispro"],
      rating := None, reviewCount := None, createdAt := FIXTURE_TIME, updatedAt := FIXTURE_TIME)
  ]

  function AddressRecord(street: string, city: string, state: string, zipCode: string, country: string): Json {
    Obj(map["street" := Str(street), "city" := Str(city), "state" := Str(state),
            "zip_code" := Str(zipCode), "country" := Str(country)])
  }

  const JOHN_EMAIL := "john.doe@example.com"
  const JANE_EMAIL := "jane.smith@example.com"

  const JOHN: Record := map[
    "id" := Str("user_001"),
    "email" := Str(JOHN_EMAIL),
    "password" := Str("password123"),
    "first_name" := Str("John"),
    "last_name" := Str("Doe"),
    "phone" := Str("+1-555-0123"),
    "date_of_birth" := Str("1985-06-15"),
    "address" := AddressRecord("123 Main St", "Springfield", "IL", "62701", "USA"),
    "insurance_info" := Obj(map["provider" := Str("Blue Cross Blue Shield"),
                                "policy_number" := Str("BC123456789"),
                                "group_number" := Str("GRP001")]),
    "created_at" := Num(1704873600000),
    "updated_at" := Num(1705329000000),
    "is_active" := Bool(true),
    "email_verified" := Bool(true)]

  const JANE: Record := map[
    "id" := Str("user_002"),
    "email" := Str(JANE_EMAIL),
    "password" := Str("securepass456"),
    "first_name" := Str("Jane"),
    "last_name" := Str("Smith"),
    "phone" := Str("+1-555-0456"),
    "date_of_birth" := Str("1992-03-22"),
    "address" := AddressRecord("456 Oak Ave", "Springfield", "IL", "62702", "USA"),
    "insurance_info" := Obj(map["provider" := Str("Aetna"),
                                "policy_number" := Str("AET987654321"),
                                "group_number" := Str("GRP002")]),
    "created_at" := Num(1705054500000),
    "updated_at" := Num(1705250700000),
    "is_active" := Bool(true),
    "email_verified" := Bool(true)]

  const MOCK_USERS: seq<Record> := [JOHN, JANE]

  const MOCK_PHARMACIES: seq<Pharmacy> := [
    Pharmacy(
      id := "pharmacy_001", name := "Springfield Community Pharmacy",
      address := Address("789 Health Blvd", "Springfield", "IL", "62703", "USA"),
      phone := "+1-555-HEALTH", email := "info@springfieldpharmacy.com",
      hours := map["monday" := "8:00 AM - 8:00 PM", "tuesday" := "8:00 AM - 8:00 PM",
                   "wednesday" := "8:00 AM - 8:00 PM", "thursday" := "8:00 AM - 8:00 PM",
                   "friday" := "8:00 AM - 8:00 PM", "saturday" := "9:00 AM - 6:00 PM",
                   "sunday" := "10:00 AM - 4:00 PM"],
      services := ["Prescription Filling", "Vaccinations", "Health Screenings", "Medication Consultation"],
      rating := 45, isPartner := true),
    Pharmacy(
      id := "pharmacy_002", name := "Downtown Wellness Pharmacy",
      address := Address("321 Center St", "Springfield", "IL", "62701", "USA"),
      phone := "+1-555-WELLNESS", email := "contact@downtownwellness.com",
      hours := map["monday" := "7:00 AM - 9:00 PM", "tuesday" := "7:00 AM - 9:00 PM",
                   "wednesday" := "7:00 AM - 9:00 PM", "thursday" := "7:00 AM - 9:00 PM",
                   "friday" := "7:00 AM - 9:00 PM", "saturday" := "8:00 AM - 7:00 PM",
                   "sunday" := "9:00 AM - 5:00 PM"],
      services := ["24/7 Emergency Fills", "Compound Medications", "Diabetic Supplies", "Medical Equipment"],
      rating := 48, isPartner := true)
  ]

  const PENDING := "pending"
  const CONFIRMED := "confirmed"
  const PROCESSING := "processing"
  const READY_FOR_PICKUP := "ready_for_pickup"
  const OUT_FOR_DELIVERY := "out_for_delivery"
  const DELIVERED := "delivered"
  const CANCELLED := "cancelled"

  const ORDER_STATUSES: seq<string> :=
    [PENDING, CONFIRMED, PROCESSING, READY_FOR_PICKUP, OUT_FOR_DELIVERY, DELIVERED, CANCELLED]

  const CREDIT_CARD := "credit_card"

  // ---- consistency of the fixtures ----

  /** The number in a medicine id of the form "med_ddd". */
  function IdNumber(id: string): int
    requires |id| == 7
  {
    100 * (id[4] as int - '0' as int) + 10 * (id[5] as int - '0' as int) + (id[6] as int - '0' as int)
  }

  /** The sixteen medicine ids are pairwise distinct: the i-th is numbered i + 1. */
  lemma MedicineIdsDistinct()
    ensures |MOCK_MEDICINES| == 16
    ensures forall i, j :: 0 <= i < j < |MOCK_MEDICINES| ==> MOCK_MEDICINES[i].id != MOCK_MEDICINES[j].id
  {
    forall i | 0 <= i < |MOCK_MEDICINES|
      ensures |MOCK_MEDICINES[i].id| == 7 && IdNumber(MOCK_MEDICINES[i].id) == i + 1
    {
    }
  }

  /** A fixture medicine is out of stock exactly when its stock is zero, and
      med_016 is the only one. */
  lemma OutOfStockIffNoStock()
    ensures forall i :: 0 <= i < |MOCK_MEDICINES| ==>
      (MOCK_MEDICINES[i].availabilityStatus == OUT_OF_STOCK <==> MOCK_MEDICINES[i].stockQuantity == 0)
    ensures forall i :: 0 <= i < |MOCK_MEDICINES| && MOCK_MEDICINES[i].availabilityStatus == OUT_OF_STOCK ==>
      MOCK_MEDICINES[i].id == "med_016"
    ensures MOCK_MEDICINES[15].id == "med_016" && MOCK_MEDICINES[15].availabilityStatus == OUT_OF_STOCK
  {
  }

  /** Every fixture price is positive and every stock non-negative; every
      status is either 'available' or 'out_of_stock'. */
  lemma PricesAndStocksWellFormed()
    ensures forall i :: 0 <= i < |MOCK_MEDICINES| ==> MOCK_MEDICINES[i].price > 0 && MOCK_MEDICINES[i].stockQuantity >= 0
    ensures forall i :: 0 <= i < |MOCK_MEDICINES| ==>
      MOCK_MEDICINES[i].availabilityStatus == AVAILABLE || MOCK_MEDICINES[i].availabilityStatus == OUT_OF_STOCK
  {
  }

  /** Every fixture category is one of the fifteen distinct catalogue categories. */
  lemma CategoriesKnown()
    ensures |MEDICINE_CATEGORIES| == 15
    ensures forall i, j :: 0 <= i < j < |MEDICINE_CATEGORIES| ==> MEDICINE_CATEGORIES[i] != MEDICINE_CATEGORIES[j]
    ensures forall i :: 0 <= i < |MOCK_MEDICINES| ==> MOCK_MEDICINES[i].category in MEDICINE_CATEGORIES
  {
  }

  /** The seeded users are John's and Jane's accounts, in that order. */
  lemma UserEmails()
    ensures |MOCK_USERS| == 2
    ensures Get(MOCK_USERS[0], "email") == Some(Str(JOHN_EMAIL))
    ensures Get(MOCK_USERS[1], "email") == Some(Str(JANE_EMAIL))
  {
  }

  /** The two seeded emails differ even ignoring case. */
  lemma UserEmailsDistinct()
    ensures ToLower(JOHN_EMAIL) != ToLower(JANE_EMAIL)
  {
    ToLowerDiffers(JOHN_EMAIL, JANE_EMAIL, 1);
  }

  /** Both seeded users are active and verified. */
  lemma UsersActive()
    ensures forall i :: 0 <= i < |MOCK_USERS| ==>
      Truthy(Get(MOCK_USERS[i], "is_active")) && Truthy(Get(MOCK_USERS[i], "email_verified"))
  {
  }

  /** There are seven distinct order statuses. */
  lemma OrderStatusesDistinct()
    ensures |ORDER_STATUSES| == 7
    ensures forall i, j :: 0 <= i < j < |ORDER_STATUSES| ==> ORDER_STATUSES[i] != ORDER_STATUSES[j]
  {
  }
}
