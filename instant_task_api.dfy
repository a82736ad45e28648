/** The mock instant-task API (mobile-app/src/core/api/instantTaskApi.ts) with
    its simulated network delays dropped: catalogue lookups, the instant-task
    fare and task creation with automatic assignment of the nearest runner.
    The static catalogues are parameters; a failed `ApiResponse` is a
    `Failure` carrying its error text. */
module InstantTaskApi {
  import opened Wrappers
  import opened Types
  import Seqs
  import Helpers

  // ---------------------------------------------------------------------------
  // Catalogue lookups
  // ---------------------------------------------------------------------------

  /** `mockGetItemsByVendor`: exactly the vendor's items, in catalogue order. */
  function GetItemsByVendor(catalogue: seq<PredefinedItem>, vendorId: string): (r: seq<PredefinedItem>)
    ensures forall item :: item in r <==> item in catalogue && item.vendorId == vendorId
    ensures |r| <= |catalogue|
  {
    Seqs.Filter(catalogue, (item: PredefinedItem) => item.vendorId == vendorId)
  }

  /** The string literal each `VendorCategory` stands for. */
  function CategoryName(category: VendorCategory): string {
    match category
    case Food => "food"
    case Drinks => "drinks"
    case Groceries => "groceries"
    case Pharmacy => "pharmacy"
    case Stationery => "stationery"
    case Other => "other"
  }

  /** `mockGetItemsByCategory`: the caller passes any string; exactly the items
      whose category is written that way, in catalogue order. */
  function GetItemsByCategory(catalogue: seq<PredefinedItem>, category: string): (r: seq<PredefinedItem>)
    ensures forall item :: item in r <==> item in catalogue && CategoryName(item.category) == category
    ensures |r| <= |catalogue|
  {
    Seqs.Filter(catalogue, (item: PredefinedItem) => CategoryName(item.category) == category)
  }

  /** A string that names no category finds nothing. */
  lemma UnknownCategoryFindsNothing(catalogue: seq<PredefinedItem>, category: string)
    requires forall c: VendorCategory :: CategoryName(c) != category
    ensures GetItemsByCategory(catalogue, category) == []
  {
    Seqs.FilterNone(catalogue, (item: PredefinedItem) => CategoryName(item.category) == category);
  }

  /** The vendor lists of two catalogues concatenated are the two vendor lists
      concatenated: the lookup keeps catalogue order. */
  lemma ItemsByVendorKeepOrder(a: seq<PredefinedItem>, b: seq<PredefinedItem>, vendorId: string)
    ensures GetItemsByVendor(a + b, vendorId) == GetItemsByVendor(a, vendorId) + GetItemsByVendor(b, vendorId)
  {
    Seqs.FilterAppend(a, b, (item: PredefinedItem) => item.vendorId == vendorId);
  }

  /** `mockGetVendor`: the first vendor with the id, or "Vendor not found". */
  function GetVendor(vendors: seq<Vendor>, vendorId: string): (r: Result<Vendor, string>)
    ensures r.Failure? <==> forall v :: v in vendors ==> v.id != vendorId
    ensures r.Failure? ==> r.error == "Vendor not found"
    ensures r.Success? ==> exists i :: 0 <= i < |vendors| && vendors[i] == r.value && r.value.id == vendorId &&
                                      forall j :: 0 <= j < i ==> vendors[j].id != vendorId
  {
    match Seqs.Find(vendors, (v: Vendor) => v.id == vendorId)
    case None => Failure("Vendor not found")
    case Some(v) => Success(v)
  }

  // ---------------------------------------------------------------------------
  // Fare
  // ---------------------------------------------------------------------------

  datatype InstantFare = InstantFare(itemPrice: int, deliveryFee: int, totalAmount: int, distance: real)

  /** `mockCalculateInstantTaskFare`: the delivery fee is the tariff's total
      fare, the item price is left at 0 and the total is the delivery fee. */
  function CalculateInstantTaskFare(pickupLocation: Location, deliveryLocation: Location,
                                    calculateDistance: (Location, Location) -> real): (r: InstantFare)
    ensures r.distance == calculateDistance(pickupLocation, deliveryLocation)
    ensures r.itemPrice == 0
    ensures r.deliveryFee == r.totalAmount == Helpers.CalculateFare(r.distance).totalFare
    ensures r.totalAmount >= Helpers.Tariff.minimumFare
  {
    var distance := calculateDistance(pickupLocation, deliveryLocation);
    var fareResult := Helpers.CalculateFare(distance);
    InstantFare(0, fareResult.totalFare, fareResult.totalFare, fareResult.distance)
  }

  // ---------------------------------------------------------------------------
  // Task creation
  // ---------------------------------------------------------------------------

  /** The `taskData` argument: an instant task without its status, creation
      date and payment flags. Its type omits `id`, but the function reads one
      if the caller supplied it. */
  datatype InstantTaskDraft = InstantTaskDraft(
    id: Option<string>,
    userId: string,
    itemId: string,
    vendorId: string,
    runnerId: Option<string>,
    itemPrice: int,
    deliveryFee: int,
    totalAmount: int,
    pickupLocation: Location,
    deliveryLocation: Location,
    assignedAt: Option<Timestamp>,
    startedAt: Option<Timestamp>,
    deliveredAt: Option<Timestamp>,
    completedAt: Option<Timestamp>,
    userPhone: string,
    specialInstructions: Option<string>)

  datatype Assignment = Assignment(task: InstantTask, assignedRunner: Runner)

  /** `(taskData as any).id || generateId('instant_task')`: a supplied id is
      kept unless it is missing or empty. */
  function TaskId(taskData: InstantTaskDraft, generatedId: string): (id: string)
    ensures taskData.id.Some? && taskData.id.value != "" ==> id == taskData.id.value
    ensures taskData.id.None? || taskData.id.value == "" ==> id == generatedId
  {
    if taskData.id.Some? && taskData.id.value != "" then taskData.id.value else generatedId
  }

  /** `mockCreateInstantTask`: fails with "No available runners found" when
      the runner list is empty; otherwise builds an `assigned`, unpaid task for
      the runner nearest the pickup location and returns it with that runner. */
  function CreateInstantTask(taskData: InstantTaskDraft, availableRunners: seq<Runner>,
                             calculateDistance: (Location, Location) -> real,
                             generatedId: string, now: Timestamp): (r: Result<Assignment, string>)
    ensures r.Failure? <==> |availableRunners| == 0
    ensures r.Failure? ==> r.error == "No available runners found"
    ensures r.Success? ==>
      Helpers.NearestRunner(taskData.pickupLocation, availableRunners, calculateDistance) == Some(r.value.assignedRunner) &&
      r.value.task.runnerId == Some(r.value.assignedRunner.id)
    ensures r.Success? ==> exists k: nat ::
      Helpers.IsFirstNearest(taskData.pickupLocation, availableRunners, k, calculateDistance) &&
      availableRunners[k] == r.value.assignedRunner
    ensures r.Success? ==> var t := r.value.task;
      t.status == InstantTaskStatus.Assigned && !t.isPaid && !t.paymentReleased &&
      t.createdAt == now && t.assignedAt == Some(now) && t.id == TaskId(taskData, generatedId)
    ensures r.Success? ==> var t := r.value.task;
      t.userId == taskData.userId && t.itemId == taskData.itemId && t.vendorId == taskData.vendorId &&
      t.itemPrice == taskData.itemPrice && t.deliveryFee == taskData.deliveryFee &&
      t.totalAmount == taskData.totalAmount && t.pickupLocation == taskData.pickupLocation &&
      t.deliveryLocation == taskData.deliveryLocation && t.startedAt == taskData.startedAt &&
      t.deliveredAt == taskData.deliveredAt && t.completedAt == taskData.completedAt &&
      t.userPhone == taskData.userPhone && t.specialInstructions == taskData.specialInstructions
  {
    match Helpers.NearestRunner(taskData.pickupLocation, availableRunners, calculateDistance)
    case None => Failure("No available runners found")
    case Some(nearestRunner) =>
      var task := InstantTask(
        TaskId(taskData, generatedId), taskData.userId, taskData.itemId, taskData.vendorId,
        Some(nearestRunner.id),
        taskData.itemPrice, taskData.deliveryFee, taskData.totalAmount,
        taskData.pickupLocation, taskData.deliveryLocation,
        InstantTaskStatus.Assigned, now, Some(now),
        taskData.startedAt, taskData.deliveredAt, taskData.completedAt,
        taskData.userPhone, taskData.specialInstructions,
        false, false);
      Success(Assignment(task, nearestRunner))
  }
}
