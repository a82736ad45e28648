/** The records and enumerations the core passes around (mobile-app/src/core/types/index.ts).
    Money is in whole currency units (`int`), distances and coordinates are exact
    `real`s, and a date is an instant in milliseconds (`Timestamp`). A property
    marked optional in the source is an `Option`. */
module Types {
  import opened Wrappers

  type Timestamp = int

  // ==================== LOCATION ====================

  datatype City = Umuahia | Aba | Ohafia

  datatype Location = Location(latitude: real, longitude: real, address: string, city: City)

  // ==================== USER ====================

  datatype UserRole = AsUser | AsRunner | AsBoth

  datatype User = User(
    id: string,
    name: string,
    email: string,
    phone: string,
    role: UserRole,
    profilePicture: Option<string>,
    location: Option<Location>,
    kycCompleted: Option<bool>,
    createdAt: Timestamp)

  // ==================== RUNNER ====================

  datatype Runner = Runner(
    id: string,
    userId: string,
    name: string,
    phone: string,
    rating: real,
    totalDeliveries: int,
    currentLocation: Location,
    isAvailable: bool,
    earnings: int)

  // ==================== WALLET & PAYMENT ====================

  datatype TransactionType =
    Deposit | Withdrawal | TaskLock | TaskPayment | InstantLock | InstantPayment | Refund

  datatype TransactionStatus = Pending | Completed | Failed | Locked

  datatype Transaction = Transaction(
    id: string,
    userId: string,
    amount: int,
    kind: TransactionType,
    status: TransactionStatus,
    description: string,
    relatedTaskId: Option<string>,
    relatedInstantTaskId: Option<string>,
    createdAt: Timestamp)

  datatype Wallet = Wallet(
    userId: string,
    availableBalance: int,
    lockedBalance: int,
    totalEarnings: int,
    transactions: seq<Transaction>)

  // ==================== VENDORS & ITEMS ====================

  datatype VendorCategory = Food | Drinks | Groceries | Pharmacy | Stationery | Other

  datatype Vendor = Vendor(
    id: string,
    name: string,
    category: VendorCategory,
    location: Location,
    rating: real,
    isOpen: bool,
    logo: Option<string>)

  datatype PredefinedItem = PredefinedItem(
    id: string,
    vendorId: string,
    name: string,
    description: string,
    price: int,
    category: VendorCategory,
    image: Option<string>,
    isAvailable: bool)

  // ==================== INSTANT TASKS ====================

  datatype InstantTaskStatus = Open | Assigned | InProgress | Delivered | Completed | Cancelled

  datatype InstantTask = InstantTask(
    id: string,
    userId: string,
    itemId: string,
    vendorId: string,
    runnerId: Option<string>,
    itemPrice: int,
    deliveryFee: int,
    totalAmount: int,
    pickupLocation: Location,
    deliveryLocation: Location,
    status: InstantTaskStatus,
    createdAt: Timestamp,
    assignedAt: Option<Timestamp>,
    startedAt: Option<Timestamp>,
    deliveredAt: Option<Timestamp>,
    completedAt: Option<Timestamp>,
    userPhone: string,
    specialInstructions: Option<string>,
    isPaid: bool,
    paymentReleased: bool)

  // ==================== CUSTOM TASKS ====================

  datatype CustomTaskStatus = Open | Accepted | InProgress | AwaitingConfirmation | Completed | Cancelled

  datatype CustomTaskCategory = Shopping | Pickup | Delivery | SchoolErrand | Document | Other

  datatype CustomTask = CustomTask(
    id: string,
    userId: string,
    runnerId: Option<string>,
    title: string,
    description: string,
    category: CustomTaskCategory,
    budget: int,
    estimatedDuration: int,
    pickupLocation: Option<Location>,
    deliveryLocation: Option<Location>,
    status: CustomTaskStatus,
    createdAt: Timestamp,
    acceptedAt: Option<Timestamp>,
    startedAt: Option<Timestamp>,
    submittedAt: Option<Timestamp>,
    completedAt: Option<Timestamp>,
    userPhone: string,
    userEmail: string,
    amountLocked: bool,
    paymentReleased: bool)

  // ==================== NOTIFICATIONS ====================

  datatype NotificationType =
    InstantTaskAssigned | CustomTaskAccepted | TaskStarted | TaskCompleted
    | PaymentReleased | PaymentReceived | TaskCancelled

  datatype Notification = Notification(
    id: string,
    userId: string,
    kind: NotificationType,
    title: string,
    message: string,
    taskId: Option<string>,
    instantTaskId: Option<string>,
    isRead: bool,
    createdAt: Timestamp)

  // ==================== FARE CALCULATION ====================

  datatype FareConfig = FareConfig(flatRate: int, perKmRate: int, baseDistance: real, minimumFare: int)

  datatype FareCalculationResult = FareCalculationResult(
    distance: real,
    baseFare: int,
    distanceFare: int,
    totalFare: int)

  // ==================== ERRAND FLOW ====================

  datatype ErrandTaskType = BuyFood | RunErrand | PickUpDeliver | MakePurchase | TransportItem

  datatype ErrandFlowStep =
    TaskSelection | LocationConfirmation | TaskDetails | PricePreview
    | RunnerAssignment | FinalConfirmation | Completed

  datatype ErrandStatus =
    Draft | PendingAssignment | Assigned | InProgress | Delivered | Completed | Cancelled

  datatype ErrandLocation = ErrandLocation(
    latitude: real,
    longitude: real,
    address: string,
    city: string,
    labelText: Option<string>,
    instructions: Option<string>)

  datatype ErrandTaskDetails = ErrandTaskDetails(
    description: string,
    items: Option<seq<string>>,
    specialInstructions: Option<string>,
    scheduledTime: Option<Timestamp>,
    attachments: Option<seq<string>>)

  datatype ErrandPricing = ErrandPricing(
    baseFee: int,
    distanceFee: int,
    itemPurchaseCost: int,
    platformFee: int,
    discount: int,
    totalAmount: int,
    estimatedDistance: real)

  datatype SelectedRunner = SelectedRunner(
    id: string,
    name: string,
    rating: real,
    totalDeliveries: int,
    distance: real,
    estimatedArrival: int,
    profilePicture: Option<string>,
    phone: string)

  datatype PaymentKind = WalletPayment | CardPayment | CashPayment

  datatype PaymentMethod = PaymentMethod(
    id: string,
    kind: PaymentKind,
    labelText: string,
    details: Option<string>,
    isDefault: bool)

  datatype ErrandFlowState = ErrandFlowState(
    currentStep: ErrandFlowStep,
    taskType: Option<ErrandTaskType>,
    pickupLocation: Option<ErrandLocation>,
    deliveryLocation: Option<ErrandLocation>,
    taskDetails: Option<ErrandTaskDetails>,
    pricing: Option<ErrandPricing>,
    selectedRunner: Option<SelectedRunner>,
    paymentMethod: Option<PaymentMethod>,
    couponCode: Option<string>,
    status: ErrandStatus)
}
