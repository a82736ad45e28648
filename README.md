# Hustle errand app — verified model of the client-side core

This project models, in Dafny, the business logic of the Hustle (Ridely) errand
app's mobile client. Users book instant deliveries and custom errands, runners
carry them out, and a mock wallet locks, releases and refunds the money.

The model covers:

- **Wallet store.** A map from user id to wallet, with locking, releasing,
  refunding and crediting funds and a transaction log per wallet.
- **Instant-task and custom-task stores.** Lists of tasks rewritten by id, with
  a lifecycle status, timestamps and payment flags.
- **Pricing.**
  - The errand price estimate: base fee, per-kilometre fee, 5% platform fee,
    coupon and minimum total.
  - The instant-delivery fare: flat rate, 2 km base distance, per-kilometre
    rate and minimum fare.
- **Helpers.** The nearest-runner search, the delivery-time estimate and the
  phone-number and e-mail validators.
- **Instant-task API.** Catalogue queries, fare quote, and task creation with
  automatic assignment to the nearest runner.
- **Errand wizard store.** A step cursor over a fixed step order, plus the
  selections made so far.
- **Other stores.** Notifications, the runner list and the signed-in session.
- **Two screens.**
  - The runner-application form: its validation, the available-days toggle and
    the submitted payload.
  - The task-details page: its description check and item-list parsing.

One Dafny module per source file.

- **Stores are classes.** Each store is a class whose fields are the store's
  state. Each action is a method whose postcondition ties the new state to a
  pure transition function of the old state. The properties are lemmas about
  those functions.
- **Helper modules.**
  - `Seqs` holds the array operations the stores are built from.
  - `Strings` holds JavaScript's `trim`, `split` and `join`.
  - `Types` transcribes `mobile-app/src/core/types/index.ts`.
- **Values supplied as parameters.** Ids, `new Date()` (a `Timestamp`
  parameter `now`), the distance function and the mock catalogues are all
  parameters.
- **Numbers.** Money is an integer number of naira. Distance is an exact real.

The errand price follows `usePriceEstimation.ts`, which charges
`ceil(distance × 150)` for the whole distance: an errand estimate has no free
base distance. The 2 km base distance belongs only to `calculateFare`, which
prices instant deliveries.

## Model

| member | source | states |
|---|---|---|
| WalletStore.Initialized | mobile-app/src/core/stores/walletStore.ts:34-51 | a wallet with 5000 available, nothing locked or earned and an empty log is created only when the user has none; every existing wallet is kept as it was |
| WalletStore.InitializeIdempotent | mobile-app/src/core/stores/walletStore.ts:34-51 | initializing twice is initializing once |
| WalletStore.Locking | mobile-app/src/core/stores/walletStore.ts:53-85 | succeeds exactly when the wallet exists and has at least `amount` available; on failure nothing changes; on success only that wallet changes, available drops by `amount`, locked rises by `amount` (available+locked conserved) and one `locked` entry with the type, amount and task id is appended after the untouched log |
| WalletStore.Released | mobile-app/src/core/stores/walletStore.ts:87-113 | no-op for a missing wallet; otherwise only the locked balance drops by `amount` (holdings drop by `amount`) and one `task_payment`/`completed` entry is appended |
| WalletStore.ReleaseMayOverdraw | mobile-app/src/core/stores/walletStore.ts:87-113 | there is no check that enough is locked: releasing more than is locked leaves a negative locked balance |
| WalletStore.Refunded | mobile-app/src/core/stores/walletStore.ts:115-142 | no-op for a missing wallet; otherwise `amount` moves from locked to available (holdings conserved) and one `refund`/`completed` entry is appended |
| WalletStore.LockThenRefundRestores | mobile-app/src/core/stores/walletStore.ts:53-142 | a successful lock followed by a refund of the same amount gives back the same wallet, except that the log has grown by exactly the lock and refund entries |
| WalletStore.Credited | mobile-app/src/core/stores/walletStore.ts:144-171 | no-op for a missing wallet; otherwise available and total earnings both rise by `amount`, locked is unchanged, and one `task_payment`/`completed` entry is appended |
| WalletStore.Recorded | mobile-app/src/core/stores/walletStore.ts:173-193 | appends one entry built from the draft and leaves every balance alone |
| WalletStore.TransactionsOf | mobile-app/src/core/stores/walletStore.ts:195-198 | the wallet's log, or the empty list for a missing wallet |
| WalletStore.WalletStore.GetWallet | mobile-app/src/core/stores/walletStore.ts:32 | the user's wallet, or nothing exactly when the user has none |
| WalletStore.WalletStore.GetTransactions | mobile-app/src/core/stores/walletStore.ts:195-198 | the wallet's log, or the empty list for a missing wallet |
| WalletStore.HoldingsOverRun | mobile-app/src/core/stores/walletStore.ts:34-193 | over any sequence of wallet actions, a user's available+locked changes by exactly the credits minus the releases aimed at them |
| WalletStore.LogOnlyGrows | mobile-app/src/core/stores/walletStore.ts:34-193 | over any sequence of wallet actions, a wallet's earlier log is a prefix of its later log |
| WalletStore.OthersUntouched | mobile-app/src/core/stores/walletStore.ts:34-193 | a sequence of actions aimed at other users leaves a wallet exactly as it was |
| WalletStore.WalletStore.constructor | mobile-app/src/core/stores/walletStore.ts:30 | the store starts with no wallets |
| WalletStore.WalletStore.InitializeWallet | mobile-app/src/core/stores/walletStore.ts:34-51 | the new map is `Initialized` of the old |
| WalletStore.WalletStore.LockFunds | mobile-app/src/core/stores/walletStore.ts:53-85 | returns whether the lock succeeded; the new map is `Locking` of the old |
| WalletStore.WalletStore.ReleaseFunds | mobile-app/src/core/stores/walletStore.ts:87-113 | the new map is `Released` of the old |
| WalletStore.WalletStore.RefundFunds | mobile-app/src/core/stores/walletStore.ts:115-142 | the new map is `Refunded` of the old |
| WalletStore.WalletStore.AddEarnings | mobile-app/src/core/stores/walletStore.ts:144-171 | the new map is `Credited` of the old |
| WalletStore.WalletStore.AddTransaction | mobile-app/src/core/stores/walletStore.ts:173-193 | the new map is `Recorded` of the old |
| InstantTaskStore.WithStatus | mobile-app/src/core/stores/instantTaskStore.ts:24-47 | sets the status with no guard; stamps that status's timestamp (none for `open`/`cancelled`) and no other; on `completed` sets `paymentReleased` but never `isPaid`; the order itself is unchanged |
| InstantTaskStore.WithRunner | mobile-app/src/core/stores/instantTaskStore.ts:49-61 | sets the runner, `assigned` and `assignedAt`, from any status, touching nothing else |
| InstantTaskStore.AsCompleted | mobile-app/src/core/stores/instantTaskStore.ts:63-76 | `completed`, `completedAt`, and both `isPaid` and `paymentReleased` set |
| InstantTaskStore.AsCancelled | mobile-app/src/core/stores/instantTaskStore.ts:78-88 | changes the status to `cancelled` and nothing else |
| InstantTaskStore.CompletionPathsDiffer | mobile-app/src/core/stores/instantTaskStore.ts:24-76 | completing by status update and by `completeTask` agree exactly when the task was already paid |
| InstantTaskStore.Rewrite | mobile-app/src/core/stores/instantTaskStore.ts:24-88 | every action rewrites exactly the tasks with the given id, in place, keeping the list's length |
| InstantTaskStore.AfterUpdateStatus | mobile-app/src/core/stores/instantTaskStore.ts:24-47 | every task with the id becomes `WithStatus` of itself, every other task is kept, in place |
| InstantTaskStore.AfterAssignRunner | mobile-app/src/core/stores/instantTaskStore.ts:49-61 | every task with the id becomes `WithRunner` of itself, every other task is kept, in place |
| InstantTaskStore.AfterComplete | mobile-app/src/core/stores/instantTaskStore.ts:63-76 | every task with the id becomes `AsCompleted` of itself, every other task is kept, in place |
| InstantTaskStore.AfterCancel | mobile-app/src/core/stores/instantTaskStore.ts:78-88 | every task with the id becomes `AsCancelled` of itself, every other task is kept, in place |
| InstantTaskStore.UserTasks | mobile-app/src/core/stores/instantTaskStore.ts:90-92 | exactly the user's tasks |
| InstantTaskStore.RunnerTasks | mobile-app/src/core/stores/instantTaskStore.ts:94-96 | exactly the tasks assigned to the runner |
| InstantTaskStore.TaskById | mobile-app/src/core/stores/instantTaskStore.ts:98-100 | nothing exactly when no task has the id; otherwise the first task with it |
| InstantTaskStore.UserTasksAfterAdd | mobile-app/src/core/stores/instantTaskStore.ts:19-22 | adding a task appends it to its owner's list and changes no other user's list |
| InstantTaskStore.TaskByIdAfterUpdate | mobile-app/src/core/stores/instantTaskStore.ts:24-47 | after a status update, the lookup by id finds the updated version of the task it found before |
| InstantTaskStore.CancelAfterComplete | mobile-app/src/core/stores/instantTaskStore.ts:63-88 | a completed task can be cancelled and stays marked paid and released |
| InstantTaskStore.InstantTaskStore.constructor | mobile-app/src/core/stores/instantTaskStore.ts:17 | the store starts empty |
| InstantTaskStore.InstantTaskStore.AddTask | mobile-app/src/core/stores/instantTaskStore.ts:19-22 | appends the task |
| InstantTaskStore.InstantTaskStore.UpdateTaskStatus | mobile-app/src/core/stores/instantTaskStore.ts:24-47 | the new list is the old one with `WithStatus` applied to the tasks with the id |
| InstantTaskStore.InstantTaskStore.AssignRunner | mobile-app/src/core/stores/instantTaskStore.ts:49-61 | the same with `WithRunner` |
| InstantTaskStore.InstantTaskStore.CompleteTask | mobile-app/src/core/stores/instantTaskStore.ts:63-76 | the same with `AsCompleted` |
| InstantTaskStore.InstantTaskStore.CancelTask | mobile-app/src/core/stores/instantTaskStore.ts:78-88 | the same with `AsCancelled` |
| InstantTaskStore.InstantTaskStore.GetUserTasks | mobile-app/src/core/stores/instantTaskStore.ts:90-92 | exactly the stored tasks of the user |
| InstantTaskStore.InstantTaskStore.GetRunnerTasks | mobile-app/src/core/stores/instantTaskStore.ts:94-96 | exactly the stored tasks assigned to the runner |
| InstantTaskStore.InstantTaskStore.GetTaskById | mobile-app/src/core/stores/instantTaskStore.ts:98-100 | nothing exactly when no stored task has the id; otherwise the first one with it |
| CustomTaskStore.WithStatus | mobile-app/src/core/stores/customTaskStore.ts:25-48 | sets the status with no guard; stamps that status's timestamp and no other; on `completed` sets `paymentReleased`; the errand itself is unchanged |
| CustomTaskStore.WithRunner | mobile-app/src/core/stores/customTaskStore.ts:50-62 | sets the runner, `accepted` and `acceptedAt`, from any status |
| CustomTaskStore.AsCompleted | mobile-app/src/core/stores/customTaskStore.ts:64-76 | `completed`, `completedAt` and `paymentReleased` |
| CustomTaskStore.AsCancelled | mobile-app/src/core/stores/customTaskStore.ts:78-88 | changes the status to `cancelled` and nothing else |
| CustomTaskStore.CompletionPathsAgree | mobile-app/src/core/stores/customTaskStore.ts:25-76 | for custom tasks, completing by status update and by `completeTask` give the same task |
| CustomTaskStore.Rewrite | mobile-app/src/core/stores/customTaskStore.ts:25-88 | every action rewrites exactly the tasks with the given id, in place |
| CustomTaskStore.AfterUpdateStatus | mobile-app/src/core/stores/customTaskStore.ts:25-48 | every task with the id becomes `WithStatus` of itself, every other task is kept, in place |
| CustomTaskStore.AfterAccept | mobile-app/src/core/stores/customTaskStore.ts:50-62 | every task with the id becomes `WithRunner` of itself, every other task is kept, in place |
| CustomTaskStore.AfterComplete | mobile-app/src/core/stores/customTaskStore.ts:64-76 | every task with the id becomes `AsCompleted` of itself, every other task is kept, in place |
| CustomTaskStore.AfterCancel | mobile-app/src/core/stores/customTaskStore.ts:78-88 | every task with the id becomes `AsCancelled` of itself, every other task is kept, in place |
| CustomTaskStore.OpenTasks | mobile-app/src/core/stores/customTaskStore.ts:90-92 | exactly the `open` tasks |
| CustomTaskStore.UserTasks | mobile-app/src/core/stores/customTaskStore.ts:94-96 | exactly the user's tasks |
| CustomTaskStore.RunnerTasks | mobile-app/src/core/stores/customTaskStore.ts:98-100 | exactly the runner's tasks |
| CustomTaskStore.TaskById | mobile-app/src/core/stores/customTaskStore.ts:102-104 | nothing exactly when no task has the id; otherwise the first task with it |
| CustomTaskStore.AcceptRemovesFromOpen | mobile-app/src/core/stores/customTaskStore.ts:50-62 | after `acceptTask`, no open task has the id and every task with it is in the runner's list |
| CustomTaskStore.OpenTasksAfterAdd | mobile-app/src/core/stores/customTaskStore.ts:20-23 | adding an open task appends it to the open list; adding any other leaves that list alone |
| CustomTaskStore.TaskByIdAfterUpdate | mobile-app/src/core/stores/customTaskStore.ts:25-48 | after a status update, the lookup by id finds the updated version of the task it found before |
| CustomTaskStore.ReopenAfterComplete | mobile-app/src/core/stores/customTaskStore.ts:25-76 | a completed errand can be set back to `open` while still marked released |
| CustomTaskStore.CustomTaskStore.constructor | mobile-app/src/core/stores/customTaskStore.ts:18 | the store starts empty |
| CustomTaskStore.CustomTaskStore.AddTask | mobile-app/src/core/stores/customTaskStore.ts:20-23 | appends the task |
| CustomTaskStore.CustomTaskStore.UpdateTaskStatus | mobile-app/src/core/stores/customTaskStore.ts:25-48 | the new list is the old one with `WithStatus` applied to the tasks with the id |
| CustomTaskStore.CustomTaskStore.AcceptTask | mobile-app/src/core/stores/customTaskStore.ts:50-62 | the same with `WithRunner` |
| CustomTaskStore.CustomTaskStore.CompleteTask | mobile-app/src/core/stores/customTaskStore.ts:64-76 | the same with `AsCompleted` |
| CustomTaskStore.CustomTaskStore.CancelTask | mobile-app/src/core/stores/customTaskStore.ts:78-88 | the same with `AsCancelled` |
| CustomTaskStore.CustomTaskStore.GetOpenTasks | mobile-app/src/core/stores/customTaskStore.ts:90-92 | exactly the stored `open` tasks |
| CustomTaskStore.CustomTaskStore.GetUserTasks | mobile-app/src/core/stores/customTaskStore.ts:94-96 | exactly the stored tasks of the user |
| CustomTaskStore.CustomTaskStore.GetRunnerTasks | mobile-app/src/core/stores/customTaskStore.ts:98-100 | exactly the stored tasks the runner accepted |
| CustomTaskStore.CustomTaskStore.GetTaskById | mobile-app/src/core/stores/customTaskStore.ts:102-104 | nothing exactly when no stored task has the id; otherwise the first one with it |
| Numeric.Ceil | mobile-app/src/core/hooks/usePriceEstimation.ts:27 | `Math.ceil`: the least integer at or above its argument |
| PriceEstimation.Price | mobile-app/src/core/hooks/usePriceEstimation.ts:25-47 | base fee 500; distance fee the ceiling of 150 per km; platform fee the ceiling of 5% of the subtotal; discount the smaller of coupon and pre-discount total; total the larger of the discounted total and 800 |
| PriceEstimation.EstimatePrice | mobile-app/src/core/hooks/usePriceEstimation.ts:13-48 | no price exactly when a location is missing; otherwise exactly `Price` at the measured distance, with a missing item cost or coupon counted as 0, so every fee, the capped discount and the 800 floor of `Price` apply |
| PriceEstimation.PriceMonotoneInDistance | mobile-app/src/core/hooks/usePriceEstimation.ts:25-37 | a longer distance never costs less |
| PriceEstimation.ZeroDistanceIsMinimum | mobile-app/src/core/constants/errandTasks.ts:41-46 | a zero-distance errand with no items costs the 800 minimum |
| PriceEstimation.FiveKilometreExample | mobile-app/src/core/hooks/usePriceEstimation.ts:25-47 | 5 km, no items, no coupon: 500 + 750 + 63 = 1313 |
| Helpers.CalculateFare | mobile-app/src/core/utils/helpers.ts:46-73 | flat 500; nothing extra within 2 km; beyond it 150 per started kilometre past the second; total at least the 500 minimum, which never binds |
| Helpers.FareExample | mobile-app/src/core/utils/helpers.ts:56-73 | 5 km costs 950; 2 km costs 500; 2.01 km costs 650 |
| Helpers.FareMonotone | mobile-app/src/core/utils/helpers.ts:56-73 | a longer distance never costs less |
| Helpers.FirstNearestIndex | mobile-app/src/core/utils/helpers.ts:78-104 | among the first `n` runners, the index of a closest one with no earlier runner as close |
| Helpers.NearestRunner | mobile-app/src/core/utils/helpers.ts:78-104 | nothing exactly for an empty list; a lone runner is chosen; otherwise a closest runner, the earliest on ties |
| Helpers.FindNearestRunner | mobile-app/src/core/utils/helpers.ts:78-104 | the loop returns `NearestRunner`: nothing for an empty list, otherwise the earliest runner at the least distance |
| Helpers.EstimateDeliveryTime | mobile-app/src/core/utils/helpers.ts:137-145 | the ceiling of 3 minutes per km plus 10, so at least 10 minutes |
| Helpers.ValidatePhoneNumber | mobile-app/src/core/utils/helpers.ts:150-153 | an accepted number is 14 characters starting `+234` or 11 starting `0` |
| Helpers.PhoneNumberAccepted | mobile-app/src/core/utils/helpers.ts:150-153 | every `+234` or `0` prefix, a 7/8/9 digit, a 0/1 digit and eight digits is accepted |
| Helpers.PhoneNumberShape | mobile-app/src/core/utils/helpers.ts:150-153 | every accepted number is a `+234` or `0` prefix, a 7/8/9 digit, a 0/1 digit and eight digits (the converse of `PhoneNumberAccepted`) |
| Helpers.PhoneNumberLength | mobile-app/src/core/utils/helpers.ts:150-153 | every accepted number is 14 characters starting `+234` or 11 starting `0`, digits after the first character |
| Helpers.ValidateEmail | mobile-app/src/core/utils/helpers.ts:158-161 | an accepted address has an `@` with a non-empty part before it and at least three characters after it |
| Helpers.EmailAccepted | mobile-app/src/core/utils/helpers.ts:158-161 | `local@domain.tld` with non-empty parts free of whitespace and `@` is accepted |
| Helpers.EmailParts | mobile-app/src/core/utils/helpers.ts:158-161 | every accepted address is `local@domain.tld` with non-empty parts free of whitespace and `@` (the converse of `EmailAccepted`) |
| Helpers.EmailShape | mobile-app/src/core/utils/helpers.ts:158-161 | an accepted address has no whitespace and exactly one `@` |
| InstantTaskApi.GetItemsByVendor | mobile-app/src/core/api/instantTaskApi.ts:37-50 | exactly the catalogue items of the vendor |
| InstantTaskApi.ItemsByVendorKeepOrder | mobile-app/src/core/api/instantTaskApi.ts:42-44 | the vendor filter keeps catalogue order |
| InstantTaskApi.GetItemsByCategory | mobile-app/src/core/api/instantTaskApi.ts:55-68 | exactly the catalogue items whose category is written as the given string |
| InstantTaskApi.UnknownCategoryFindsNothing | mobile-app/src/core/api/instantTaskApi.ts:55-68 | a string that names no category yields the empty list |
| InstantTaskApi.GetVendor | mobile-app/src/core/api/instantTaskApi.ts:85-103 | fails with "Vendor not found" exactly when no vendor has the id; otherwise the first vendor with it, as `find` returns |
| InstantTaskApi.CalculateInstantTaskFare | mobile-app/src/core/api/instantTaskApi.ts:108-133 | item price 0; delivery fee and total both the `calculateFare` total at the measured distance, so at least 500 |
| InstantTaskApi.TaskId | mobile-app/src/core/api/instantTaskApi.ts:162 | the caller's id when it is a non-empty string, the generated one otherwise |
| InstantTaskApi.CreateInstantTask | mobile-app/src/core/api/instantTaskApi.ts:138-183 | fails with "No available runners found" exactly when there are no runners; otherwise assigns the nearest runner (earliest on ties), status `assigned`, unpaid and unreleased, created and assigned now, every other field from the caller |
| ErrandFlowStore.IndexOf | mobile-app/src/core/stores/errandFlowStore.ts:79 | `indexOf`: -1 exactly when absent, otherwise the first position holding the step |
| ErrandFlowStore.Next | mobile-app/src/core/stores/errandFlowStore.ts:77-83 | the step one position further along the step order, or `completed` itself at the end |
| ErrandFlowStore.Previous | mobile-app/src/core/stores/errandFlowStore.ts:85-91 | the step one position back along the step order, or `task_selection` itself at the start |
| ErrandFlowStore.StepOrderListsEachStepOnce | mobile-app/src/core/stores/errandFlowStore.ts:31-39 | every step occurs in the step order exactly once |
| ErrandFlowStore.NextAdvancesOne | mobile-app/src/core/stores/errandFlowStore.ts:77-83 | `nextStep` moves one position forward, and stays at `completed` |
| ErrandFlowStore.PreviousBacksOne | mobile-app/src/core/stores/errandFlowStore.ts:85-91 | `previousStep` moves one position back, and stays at `task_selection` |
| ErrandFlowStore.NextPreviousInverse | mobile-app/src/core/stores/errandFlowStore.ts:77-91 | forward then back is the identity except at the last step; back then forward is the identity except at the first |
| ErrandFlowStore.ErrandFlowStore.constructor | mobile-app/src/core/stores/errandFlowStore.ts:41-55 | the store starts at `initialState` |
| ErrandFlowStore.ErrandFlowStore.SetTaskType | mobile-app/src/core/stores/errandFlowStore.ts:57 | sets the task type and nothing else |
| ErrandFlowStore.ErrandFlowStore.SetPickupLocation | mobile-app/src/core/stores/errandFlowStore.ts:59 | sets the pickup and nothing else |
| ErrandFlowStore.ErrandFlowStore.SetDeliveryLocation | mobile-app/src/core/stores/errandFlowStore.ts:61 | sets the delivery location and nothing else |
| ErrandFlowStore.ErrandFlowStore.SetTaskDetails | mobile-app/src/core/stores/errandFlowStore.ts:63 | sets the details and nothing else |
| ErrandFlowStore.ErrandFlowStore.SetPricing | mobile-app/src/core/stores/errandFlowStore.ts:65 | sets the pricing and nothing else |
| ErrandFlowStore.ErrandFlowStore.SetSelectedRunner | mobile-app/src/core/stores/errandFlowStore.ts:67 | sets the runner and nothing else |
| ErrandFlowStore.ErrandFlowStore.SetPaymentMethod | mobile-app/src/core/stores/errandFlowStore.ts:69 | sets the payment method and nothing else |
| ErrandFlowStore.ErrandFlowStore.SetCouponCode | mobile-app/src/core/stores/errandFlowStore.ts:71 | sets the coupon and nothing else |
| ErrandFlowStore.ErrandFlowStore.SetCurrentStep | mobile-app/src/core/stores/errandFlowStore.ts:73 | sets the step and nothing else |
| ErrandFlowStore.ErrandFlowStore.SetStatus | mobile-app/src/core/stores/errandFlowStore.ts:75 | sets the status and nothing else |
| ErrandFlowStore.ErrandFlowStore.NextStep | mobile-app/src/core/stores/errandFlowStore.ts:77-83 | the step becomes `Next` of the old step; nothing else changes |
| ErrandFlowStore.ErrandFlowStore.PreviousStep | mobile-app/src/core/stores/errandFlowStore.ts:85-91 | the step becomes `Previous` of the old step; nothing else changes |
| ErrandFlowStore.ErrandFlowStore.ResetFlow | mobile-app/src/core/stores/errandFlowStore.ts:93 | from any state, back to `initialState` |
| NotificationStore.Issued | mobile-app/src/core/stores/notificationStore.ts:19-30 | the added notification is unread, has the given id and time, and carries the caller's fields |
| NotificationStore.AfterAdd | mobile-app/src/core/stores/notificationStore.ts:19-30 | the list grows by one at the front, the old list following unchanged; the new notification heads its recipient's list and no other user's list changes |
| NotificationStore.AfterMarkAsRead | mobile-app/src/core/stores/notificationStore.ts:32-39 | exactly the notifications with the id become read; nothing else changes |
| NotificationStore.AfterMarkAllAsRead | mobile-app/src/core/stores/notificationStore.ts:41-46 | exactly the user's notifications become read; nothing else changes |
| NotificationStore.AfterClear | mobile-app/src/core/stores/notificationStore.ts:58-63 | keeps exactly the other users' notifications |
| NotificationStore.UserNotifications | mobile-app/src/core/stores/notificationStore.ts:48-50 | exactly the user's notifications |
| NotificationStore.UnreadCount | mobile-app/src/core/stores/notificationStore.ts:52-56 | at most the list's length, and zero exactly when the user has nothing unread |
| NotificationStore.UnreadAfterAdd | mobile-app/src/core/stores/notificationStore.ts:19-30 | adding raises the recipient's unread count by one and no one else's |
| NotificationStore.UnreadAtMostUserNotifications | mobile-app/src/core/stores/notificationStore.ts:48-56 | the unread count is exactly the number of unread entries among the user's notifications, so never more than the user's notification count |
| NotificationStore.MarkAsReadIdempotent | mobile-app/src/core/stores/notificationStore.ts:32-39 | marking read twice is marking read once |
| NotificationStore.MarkAllAsReadEffect | mobile-app/src/core/stores/notificationStore.ts:41-56 | afterwards the user has nothing unread and keeps every notification; other users' unread counts are unchanged |
| NotificationStore.ClearEffect | mobile-app/src/core/stores/notificationStore.ts:48-63 | afterwards the user has no notifications; every other user's list is unchanged, in order |
| NotificationStore.NotificationStore.constructor | mobile-app/src/core/stores/notificationStore.ts:17 | the store starts empty |
| NotificationStore.NotificationStore.AddNotification | mobile-app/src/core/stores/notificationStore.ts:19-30 | prepends the issued notification |
| NotificationStore.NotificationStore.MarkAsRead | mobile-app/src/core/stores/notificationStore.ts:32-39 | the new list is `AfterMarkAsRead` of the old |
| NotificationStore.NotificationStore.MarkAllAsRead | mobile-app/src/core/stores/notificationStore.ts:41-46 | the new list is `AfterMarkAllAsRead` of the old |
| NotificationStore.NotificationStore.ClearNotifications | mobile-app/src/core/stores/notificationStore.ts:58-63 | the new list is `AfterClear` of the old |
| NotificationStore.NotificationStore.GetUserNotifications | mobile-app/src/core/stores/notificationStore.ts:48-50 | exactly the stored notifications of the user |
| NotificationStore.NotificationStore.GetUnreadCount | mobile-app/src/core/stores/notificationStore.ts:52-56 | the number of unread entries among the user's stored notifications |
| RunnerStore.AfterSetAvailability | mobile-app/src/core/stores/runnerStore.ts:25-30 | sets the flag of exactly the runners with the id, in place |
| RunnerStore.Moved | mobile-app/src/core/stores/runnerStore.ts:36-43 | new coordinates, same address and city, nothing else changed |
| RunnerStore.AfterSetLocation | mobile-app/src/core/stores/runnerStore.ts:32-46 | moves exactly the runners with the id, in place |
| RunnerStore.AvailableRunners | mobile-app/src/core/stores/runnerStore.ts:48-50 | exactly the available runners |
| RunnerStore.RunnerById | mobile-app/src/core/stores/runnerStore.ts:52-54 | nothing exactly when no runner has the id; otherwise the first runner with it, as `find` returns |
| RunnerStore.AvailabilityControlsListing | mobile-app/src/core/stores/runnerStore.ts:25-50 | a runner switched off is no longer listed as available; one switched on is; no other runner's listing changes |
| RunnerStore.MoveKeepsAvailability | mobile-app/src/core/stores/runnerStore.ts:32-54 | moving a runner leaves the available list's length alone, and the lookup finds the moved runner |
| RunnerStore.RunnerStore.constructor | mobile-app/src/core/stores/runnerStore.ts:18 | the store starts empty |
| RunnerStore.RunnerStore.SetRunners | mobile-app/src/core/stores/runnerStore.ts:20-23 | replaces the list |
| RunnerStore.RunnerStore.UpdateRunnerAvailability | mobile-app/src/core/stores/runnerStore.ts:25-30 | the new list is `AfterSetAvailability` of the old |
| RunnerStore.RunnerStore.UpdateRunnerLocation | mobile-app/src/core/stores/runnerStore.ts:32-46 | the new list is `AfterSetLocation` of the old |
| RunnerStore.RunnerStore.GetAvailableRunners | mobile-app/src/core/stores/runnerStore.ts:48-50 | exactly the stored runners that are available |
| RunnerStore.RunnerStore.GetRunnerById | mobile-app/src/core/stores/runnerStore.ts:52-54 | nothing exactly when no stored runner has the id; otherwise the first one with it |
| AuthStore.Patched | mobile-app/src/core/stores/authStore.ts:29-32 | each given field replaces the profile's; the others are kept |
| AuthStore.AfterSetAuth | mobile-app/src/core/stores/authStore.ts:15-20 | signed in, holding exactly the given profile and token, consistently |
| AuthStore.AfterUpdateUser | mobile-app/src/core/stores/authStore.ts:29-32 | an existing profile becomes `Patched` by the update (given fields replace, the rest kept); the flag and token never change; a missing profile stays missing; consistency is kept |
| AuthStore.PatchLaws | mobile-app/src/core/stores/authStore.ts:29-32 | an empty patch changes nothing, a patch applied twice is applied once, a later patch wins field by field |
| AuthStore.UpdateAfterLogout | mobile-app/src/core/stores/authStore.ts:22-32 | updating after logout stays signed out |
| AuthStore.AuthStore.constructor | mobile-app/src/core/stores/authStore.ts:10-13 | starts signed out, consistently |
| AuthStore.AuthStore.SetAuth | mobile-app/src/core/stores/authStore.ts:15-20 | the state becomes `AfterSetAuth`: signed in with exactly the given profile and token |
| AuthStore.AuthStore.Logout | mobile-app/src/core/stores/authStore.ts:22-27 | from any state, signed out with no profile and no token |
| AuthStore.AuthStore.UpdateUser | mobile-app/src/core/stores/authStore.ts:29-32 | the state becomes `AfterUpdateUser` of the old (the profile patched when present) and stays consistent |
| RunnerApplication.ValidateForm | mobile-app/src/app/runner-application.tsx:75-94 | no message exactly when the name, e-mail, phone, birth date, address, motivation and hours are non-blank, a day is selected, and the applicant is on foot or gave make and model |
| RunnerApplication.FirstFailureIsFirst | mobile-app/src/app/runner-application.tsx:75-94 | the first-failure reference reports nothing exactly when all checks pass, and otherwise a failing check preceded only by passing ones |
| RunnerApplication.ValidateFormReportsFirstFailure | mobile-app/src/app/runner-application.tsx:76-91 | the message returned is that of the first failing check in the screen's order |
| RunnerApplication.Toggled | mobile-app/src/app/runner-application.tsx:69-73 | the toggled day's membership flips; every other day's is unchanged |
| RunnerApplication.ToggleTwiceRestores | mobile-app/src/app/runner-application.tsx:69-73 | toggling an unselected day twice restores the list |
| RunnerApplication.ToggleTwiceMovesToEnd | mobile-app/src/app/runner-application.tsx:69-73 | toggling a selected day twice moves it to the end |
| RunnerApplication.DayPicker.constructor | mobile-app/src/app/runner-application.tsx:51 | no day selected at first |
| RunnerApplication.DayPicker.ToggleDay | mobile-app/src/app/runner-application.tsx:69-73 | the selection becomes `Toggled` of the old |
| RunnerApplication.HandleSubmit | mobile-app/src/app/runner-application.tsx:96-141 | fails with the validation message exactly when there is one; otherwise a `pending` payload with the vehicle fields exactly when not on foot, the licence number only with a licence, experience years (0 when unparsable) and employer only with experience, and every other field from the form |
| Strings.Trim | mobile-app/src/app/task-details.tsx:56 | `trim`: empty exactly when the text is all whitespace; otherwise it starts and ends with non-whitespace; the result is the slice of the text left after dropping a blank prefix and a blank suffix |
| Strings.TrimEmptyIffBlank | mobile-app/src/app/task-details.tsx:56 | `!s.trim()` holds exactly for blank text |
| Strings.Split | mobile-app/src/app/task-details.tsx:61-62 | `split`: at least one piece, none containing the separator, joining back to the input |
| Strings.SplitJoin | mobile-app/src/app/task-details.tsx:41-42 | splitting a join of separator-free pieces gives the pieces back |
| TaskDetails.ParseItems | mobile-app/src/app/task-details.tsx:61-64 | never more items than lines, and no items exactly when every line is blank |
| TaskDetails.ParseOneLine | mobile-app/src/app/task-details.tsx:61-64 | a single line gives no item when blank, otherwise the one trimmed line |
| TaskDetails.ParseItemsConcat | mobile-app/src/app/task-details.tsx:61-64 | the items of `a + "\n" + b` are those of the line `a` followed by those of `b`; with `ParseOneLine` this makes the items exactly the non-blank lines, trimmed, in order |
| TaskDetails.ParsedItemsAreClean | mobile-app/src/app/task-details.tsx:61-64 | every parsed item is non-blank, trimmed and a single line |
| TaskDetails.ParseItemsOfJoin | mobile-app/src/app/task-details.tsx:40-42 | the page reopened on saved items parses them back unchanged |
| TaskDetails.BuildTaskDetails | mobile-app/src/app/task-details.tsx:66-71 | description trimmed; items absent exactly when none parse; instructions absent exactly when blank, else trimmed; a time only when not for now; no attachments |
| TaskDetails.HandleContinue | mobile-app/src/app/task-details.tsx:55-74 | a blank description yields the error and leaves the wizard untouched; otherwise the details are stored and the step becomes `price_preview` |

## Left out

- Distances: the Haversine formula and its `toFixed` rounding are not modelled. The distance is a parameter function, so `findNearestRunner` and the fares hold for any distance function.
- Floating point: money is exact integers and distance is exact reals.
  - `Math.ceil` over doubles is modelled as the exact ceiling.
  - The double rounding of `0.05` is not modelled.
- Ids, clocks and randomness: `generateId`, the `txn_`/`notif_` ids and every `new Date()` are parameters. Each action takes one `now`, even where the source calls `new Date()` twice.
- Delays and promises: the mock delays, `await`, the `ApiResponse` wrapper's `success` flag and its `message` text are not modelled. A `Result` stands for success or error.
- Canned API responses: `mockGetPredefinedItems`, `mockGetVendors`, `mockUpdateInstantTaskStatus` and `mockCompleteInstantTask` return fixed data. They are not modelled. The catalogues are parameters.
- Number parsing: `parseInt` of the experience years is not modelled. The form holds its result as an `Option<int>`, with `None` for NaN.
- Form submission: `submitRunnerApplication` is not part of this model, because the session store does not define it. `HandleSubmit` stops at the payload. The alerts, the loading flag, the failure branch and the navigation are not modelled.
- Task-details screen:
  - The field-error state is returned as a value.
  - `router.push` and the screen's title formatting are not modelled.
- AuthStore.Patched: a `Partial<User>` key that is present but `undefined` is not modelled. A patch field is either given or absent.
- Helpers.ValidatePhoneNumber, Helpers.ValidateEmail: the regular expressions are written out as predicates. Their equivalence to the regex engine is not modelled.
- Rendering, theming, React hooks, navigation and the `VehicleType` import are not modelled. `VehicleType` is imported from the types file but not declared there; the model uses the four picker values.
