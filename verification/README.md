# Verified model of the tracker registry, billing and device panel

Dafny 4.11 models of the parts of the platform whose correctness spans many functions, with proofs about every
input, every reachable state and every run. `dafny verify dfyconfig.toml` checks everything.

## What is modelled

**Device registry** (`RegistryTables`, `Registry`, `RegistryInvariant`, `RegistryEffects`, `RegistrySteps`,
`RegistryTransfer`, `RegistryReplacement`, `RegistryAgreement`, `RegistryScope`, `RegistryConstraints`,
`RegistryRuns`, `RegistryHistory`, `RegistryBulk`, `RegistryAnswers`, `RegistryTexts`, `RegistryWrites`,
`RegistryExamples`, `DevicesService`, `Options`). The tables are sequences of
rows, a row id is a position, so ids are fresh by construction. `Registry` gives each operation as a function from
tables to an outcome, guard by guard; `DevicesService.Registrar` is the service, a class whose methods write the tables
step by step and undo a failed transaction, each proved equal to its function and to keep the invariant. What the
functions answer and write is stated a second time without them: `RegistryAnswers`, `RegistryTexts` and
`RegistryWrites` say it of roles, rows and texts alone. A request is one atomic step and the
clock is a parameter. No guard of one operation establishes the invariant; it follows from all of them together.

**Billing** (`Decimals`, `InvoiceAmounts`, `CommissionRules`, `CommissionBounds`, `BillingBooks`, `BillingEngine`,
`CommissionAnswers`, `BillingAnswers`, `Billing`, `BillingRequests`, `BillingRuns`, `BillingInvoices`, `BillingInstalments`, `BillingRefunds`, `BillingExamples`,
`BillingService`). Money is integer cents, an allocation
ratio an integer of 1e-8, a quantity of 1e-3, a rate of 1e-4 percent; rounding is half away from zero. Error bounds are
stated without division: "within k * (0.5 cents + c * 0.5e-8)" appears as twice the error, scaled by 1e8 and by the
whole. `BillingService.Bookkeeper` is the engine and the services around it, loop by loop. `CommissionAnswers`,
`BillingAnswers` and `BillingRequests` state what the engine and the services answer and write of the rows alone, with
every rounding by its error bounds.

**Calendar** (`Calendar`, `BillingDates`). Time values and day arithmetic as in section 21.4.1 of ECMA-262, over all
integers; `UtcDate` is the Date object that `addInterval` changes in place.

**Device panel** (`DevicePanel`, `PanelAnswers`). The nested items of the toolbar, their filter, sort and prune, and the badge counts.

## Where the code differs from what one might expect

Each of these is proved exactly, with a condition and a concrete case; the registry and billing cases are runs from
empty tables.

- `requirePositive` lets zero through, because decimal.js calls +0 positive (`PositiveCheckAdmitsZero`).
- The line constraint of the database rounds the whole expression, the code only the gross, so one family of accepted
  lines is refused on insert (`AcceptedLinePassesConstraint`).
- `returnToPlatform` keeps `retiredAt` while it sets IN_STOCK, so returning a device that was retired while allocated
  violates the retirement constraint (`StepConstrained`, `RetiredReturnRefused`).
- A registration of separators only is stored as the empty string, which the lookup for duplicates skips
  (`SeparatorsRegisteredTwice`).
- `replace` does not refuse an archived customer, `install` does (`ReplaceIsRemoveThenInstall`).
- An installation time is not checked, so a backdated one makes two custody rows overlap, for good (`StepTime`,
  `StepDivides`, `BackdatedInstall`).
- Changing the managing dealer of a customer with an installed device breaks the agreement of custody and allocation
  (`ManagerChange`).
- `reverseEntry` takes back the full amount even after partial refunds, and can be repeated for an entry that is not
  AVAILABLE (`ReverseEntryTakesBackAll`, `ReversedTooMuch`), and partial refunds can take back more than the commission
  by rounding (`RefundWithin`, `RunWithin`, `HalvesReverseTwice`).
- A manual invoice takes a subscription and a period without looking for an earlier invoice, so it can bill a period
  twice (`CreateBillsOnce`, `PeriodBilledTwice`).
- Adding months does not keep the order of time values when two days are clamped to one (`MonthAdditionKeepsTimeOrder`),
  and `Date.UTC` reads year 0 as 1900 (`MonthLaw`).

## Model

| member | source | states |
|---|---|---|
| RegistryRuns.RunInvariant | services/backend-api/src/assets/devices/devices.service.ts:234-1605 | In every state any run from an empty registry reaches: exactly one open ownership and one open custody row per device, at most one active allocation and one active assignment, INSTALLED exactly when assigned, active assignments and completed installations one to one, at most one active primary per vehicle, and no archived vehicle with a device; the retirement, removal, assignment and identity constraints hold because a step that fails one is rolled back |
| RegistryRuns.CommitIsApply | services/backend-api/prisma/migrations/20260714095648_vehicle_device_foundation/migration.sql:385-460 | That roll-back is needed only for the two refused families of StepConstrained: every other accepted step is committed as it is |
| RegistryAgreement.StepSound | services/backend-api/src/assets/devices/devices.service.ts:234-1605 | Every accepted step keeps the invariant, and keeps the agreement of custody, allocation and installation while vehicles keep their managing dealers |
| RegistryRuns.RunAgreement | services/backend-api/src/assets/devices/devices.service.ts:568-675 | Over any run that changes no managing dealer of a customer with an installed device: a dealer custodian has the only, AVAILABLE, allocation; a platform custodian none; an installed device is with its vehicle's customer and has an INSTALLED allocation to the managing dealer exactly when there is one; uninstalled devices have no INSTALLED allocation |
| RegistryRuns.ManagerChange | services/backend-api/src/assets/devices/devices.service.ts:1432-1474 | Changing a customer keeps that agreement if and only if the managing dealer stays or the customer has no installed device |
| RegistryExamples.ManagerChangeBreaksAgreement | services/backend-api/src/assets/devices/devices.service.ts:1542-1599 | A run from an empty registry that ends with a change of the managing dealer breaks the agreement it had kept until then |
| RegistrySteps.MoveAllKeeps | services/backend-api/src/assets/devices/devices.service.ts:568-675 | A transfer leaves every listed device ALLOCATED, owned and held by the target with the prescribed allocation, and every other device's situation and row unchanged |
| RegistryTransfer.TransferForm | services/backend-api/src/assets/devices/devices.service.ts:568-675 | The transfer loop writes exactly a closed form: all listed rows ended or returned, one new row per listed device; TransferOutcome says who receives them |
| RegistryTransfer.TransferOrder | services/backend-api/src/assets/devices/devices.service.ts:483-675 | Acceptance, the error and, up to row ids, the tables after a transfer do not depend on the order of its list |
| RegistryReplacement.ReplaceIsRemoveThenInstall | services/backend-api/src/assets/devices/devices.service.ts:1087-1184 | Replace is accepted exactly when remove and then install on the same vehicle are, with identical tables; the one difference is that install refuses an archived customer |
| RegistryReplacement.ReplaceKeeps | services/backend-api/src/assets/devices/devices.service.ts:1150-1184 | A replacement keeps the invariant, swaps the roles of the two devices and changes no other device |
| RegistryReplacement.OnePrimaryAfterReplace | services/backend-api/src/assets/devices/devices.service.ts:1330-1374 | After a replacement the vehicle has exactly one active primary assignment, the new one |
| RegistryExamples.ReplaceForArchivedCustomer | services/backend-api/src/assets/devices/devices.service.ts:946-953 | A run from an empty registry after which replace is accepted for an archived customer and install is not |
| RegistryExamples.FleetIsReached | services/backend-api/src/assets/devices/devices.service.ts:234-1605 | The fleet of the examples is the state that seven requests reach from an empty registry |
| RegistryConstraints.StepConstrained | services/backend-api/prisma/migrations/20260714095648_vehicle_device_foundation/migration.sql:385-460 | An accepted operation satisfies the retirement, removal, assignment and identity constraints if and only if it neither returns a retired device nor stores a second separators-only registration; identities stay non-empty and archivedAt is set exactly while archived |
| RegistryConstraints.ReplaceConstrained | services/backend-api/src/assets/devices/devices.service.ts:1087-1184 | Replace never un-archives a vehicle although it does not check for it: the constraints and the archiving times hold after it |
| RegistryExamples.RetiredReturnRefused | services/backend-api/src/assets/devices/devices.service.ts:890-930 | A run from an empty registry after which an accepted return, of a device retired while allocated, breaks the retirement constraint |
| RegistryExamples.SeparatorsRegisteredTwice | services/backend-api/src/assets/vehicles/vehicles.service.ts:363-372 | A run from an empty registry after which a second registration of separators only passes the lookup but clashes in the unique index |
| RegistryConstraints.AddVehicle | services/backend-api/src/assets/vehicles/vehicles.service.ts:385-436 | The lookup for duplicate identities agrees with the unique indexes, except for empty registrations |
| RegistryScope.StepLeaves | services/backend-api/src/assets/devices/devices.service.ts:234-1605 | Every step leaves all rows, in all tables, of every device it does not name |
| RegistryScope.ChangesStayInScope | services/backend-api/src/assets/common/asset-access.service.ts:83-147 | An accepted request of an actor without platform scope leaves every device alone that deviceWhere did not let it see before |
| RegistryScope.VehiclesStayInScope | services/backend-api/src/assets/common/asset-access.service.ts:199-225 | An existing vehicle is changed only by actors that vehicleWhere lets see it |
| RegistryHistory.RotatePartition | services/backend-api/src/assets/devices/devices.service.ts:1700-1729 | Ending the open row and opening the next at one instant keeps the histories a division of time if and only if the instant is not before the open row's start |
| RegistryHistory.RunHistory | services/backend-api/src/assets/devices/devices.service.ts:299-317 | Over any run, whatever its clocks and installation times, every device has exactly one owner and one custodian at every instant since its registration if and only if no committed step turns a device's rows at an instant before the start of its open row |
| RegistryHistory.RunHistoryFromEmpty | services/backend-api/src/assets/devices/devices.service.ts:285-330 | The same from an empty registry |
| RegistryHistory.StepTime | services/backend-api/src/assets/devices/devices.service.ts:1700-1729 | Each accepted step of any kind keeps a device's custody, and its ownership, a division of time if and only if its event time for that device is not before the start of the open row |
| RegistryHistory.StepDivides | services/backend-api/src/assets/devices/devices.service.ts:1700-1729 | An accepted step that is not in time breaks a history, and no later step repairs it |
| RegistryHistory.ReplaceTime | services/backend-api/src/assets/devices/devices.service.ts:1147-1184 | An accepted replace keeps the custody of the removed device divided if and only if its time, and that of the replacement if and only if the installation time, is not before the open row's start |
| RegistryHistory.RunAppendOnly | services/backend-api/src/assets/devices/devices.service.ts:1700-1729 | Over any run no ownership or custody row is lost and all that changes in one is that it ends |
| RegistryHistory.InstallTime | services/backend-api/src/assets/devices/devices.service.ts:968-986 | An accepted install keeps the custody history divided if and only if its time is not before the start of the open custody row |
| RegistryExamples.BackdatedInstall | services/backend-api/src/assets/devices/devices.service.ts:1432-1444 | A run from an empty registry after which an accepted backdated install leaves two custodians at once |
| RegistryBulk.BulkCreates | services/backend-api/src/assets/devices/devices.service.ts:416-481 | One result per line; a line is CREATED exactly when registration is possible, its trimmed IMEI is valid, occurs in no earlier line and was not registered |
| RegistryBulk.BulkRepeated | services/backend-api/src/assets/devices/devices.service.ts:416-481 | Repeating a batch changes nothing and creates nothing |
| RegistryBulk.BulkIsRun | services/backend-api/src/assets/devices/devices.service.ts:416-481 | A batch is a run of the registrations of its valid, unrepeated lines, so every theorem over runs covers it |
| RegistryBulk.BulkSound | services/backend-api/src/assets/devices/devices.service.ts:416-481 | A batch keeps the invariant, the constraints - so IMEIs and serial numbers stay unique - and the agreement |
| RegistryBulk.CountIsSize | services/backend-api/src/assets/devices/devices.service.ts:471-480 | created is the number of CREATED lines, so created and failed add up to the total |
| RegistryEffects.RegisterKeeps | services/backend-api/src/assets/devices/devices.service.ts:285-330 | Registering keeps the invariant and adds one IN_STOCK device owned and held by the platform |
| RegistryEffects.UpdateKeeps | services/backend-api/src/assets/devices/devices.service.ts:344-414 | An update keeps the invariant and changes only the lifecycle of its device |
| RegistryEffects.AllocateKeeps | services/backend-api/src/assets/devices/devices.service.ts:742-855 | An allocation moves custody and the only active allocation to the dealer, leaves ownership and keeps the invariant |
| RegistryEffects.ReturnKeeps | services/backend-api/src/assets/devices/devices.service.ts:857-944 | A return moves custody to the platform, ends the active allocation, leaves ownership and keeps the invariant |
| RegistrySteps.InstallKeeps | services/backend-api/src/assets/devices/devices.service.ts:946-1025 | An install moves custody to the customer and marks the managing dealer's allocation INSTALLED, leaves ownership and keeps the invariant |
| RegistrySteps.RemoveKeeps | services/backend-api/src/assets/devices/devices.service.ts:1027-1085 | A removal gives the device back to the managing dealer when it is allocated and to the platform otherwise, leaves ownership and keeps the invariant |
| RegistryEffects.PutInKeeps | services/backend-api/src/assets/devices/devices.service.ts:1375-1480 | The install transaction, from any ready state, keeps the invariant and changes only the installed device |
| RegistryEffects.TakeOutKeeps | services/backend-api/src/assets/devices/devices.service.ts:1482-1605 | The removal transaction keeps the invariant and changes only the removed device |
| RegistryAgreement.VehicleSound | services/backend-api/src/assets/vehicles/vehicles.service.ts:247-270 | Vehicle operations keep the invariant, so the archive guard suffices for archiving to keep archived vehicles empty |
| DevicesService.Registrar.RegisterDevice | services/backend-api/src/assets/devices/devices.service.ts:234-342 | Row by row, gives the answer and the tables that RegisterAnswer describes |
| DevicesService.Registrar.UpdateDevice | services/backend-api/src/assets/devices/devices.service.ts:344-414 | Gives the answer and the tables that UpdateAnswer and UpdateEffect describe |
| DevicesService.Registrar.RegisterLines | services/backend-api/src/assets/devices/devices.service.ts:416-481 | The loop with its set of seen IMEIs and its results computes the batch that BulkAnswer describes |
| DevicesService.Registrar.TransferAll | services/backend-api/src/assets/devices/devices.service.ts:483-675 | All or nothing: a rejected transfer leaves every table, an accepted one moves every listed device, as TransferAnswer and TransferOutcome describe |
| DevicesService.Registrar.AllocateDevice | services/backend-api/src/assets/devices/devices.service.ts:742-855 | Gives the answer and the tables that AllocateAnswer and AllocateEffect describe |
| DevicesService.Registrar.ReturnDevice | services/backend-api/src/assets/devices/devices.service.ts:857-944 | Gives the answer and the tables that ReturnAnswer and ReturnEffect describe |
| DevicesService.Registrar.InstallDevice | services/backend-api/src/assets/devices/devices.service.ts:946-1025 | Gives the answer and the tables that InstallAnswer and InstallEffect describe |
| DevicesService.Registrar.RemoveDevice | services/backend-api/src/assets/devices/devices.service.ts:1027-1085 | Gives the removal that RemoveAnswer and RemoveEffect describe; when the transaction fails part way every table is as before |
| DevicesService.Registrar.ReplaceDevice | services/backend-api/src/assets/devices/devices.service.ts:1087-1184 | Gives the replacement that ReplaceAnswer and ReplaceEffect describe, undone as a whole when the removal half fails |
| DevicesService.Registrar.AddVehicle | services/backend-api/src/assets/vehicles/vehicles.service.ts:184-232 | Gives the answer and the tables that CreateVehicleAnswer describes |
| DevicesService.Registrar.ChangeVehicle | services/backend-api/src/assets/vehicles/vehicles.service.ts:234-326 | Gives the answer and the tables that UpdateVehicleAnswer describes |
| RegistryAnswers.InstallAccepted | services/backend-api/src/assets/devices/devices.service.ts:1330-1374 | From tables in order, install is accepted if and only if the vehicle exists, the actor is of the platform or of the dealer managing its customer, vehicle and customer are not archived, the device exists, is IN_STOCK or ALLOCATED and in no vehicle, the vehicle has no active primary device, and the managing dealer has the device in stock and the actor may use it - or, without a managing dealer, the actor is of the platform and no dealer has it in stock |
| RegistryAnswers.InstallAnswer | services/backend-api/src/assets/devices/devices.service.ts:946-1025 | Every other install is refused with exactly the first reason that holds, said of rows and roles |
| RegistryAnswers.RemoveAnswer | services/backend-api/src/assets/devices/devices.service.ts:1027-1085 | Remove of a device that a row puts into a vehicle is refused with exactly the first reason that holds and accepted when none does |
| RegistryAnswers.ReplaceAnswer | services/backend-api/src/assets/devices/devices.service.ts:1087-1184 | The same for replace, for a device that a row makes primary in its vehicle |
| RegistryAnswers.NotCarried | services/backend-api/src/assets/devices/devices.service.ts:1027-1058 | Remove of a device in no vehicle is NOT_FOUND |
| RegistryAnswers.NotPrimary | services/backend-api/src/assets/devices/devices.service.ts:1087-1120 | Replace of a device by itself is BAD_REQUEST, and of one that is primary in no vehicle NOT_FOUND |
| RegistryAnswers.NotAllotted | services/backend-api/src/assets/devices/devices.service.ts:857-889 | A return of a device without active allocation is NOT_FOUND |
| RegistryAnswers.TransferAnswer | services/backend-api/src/assets/devices/devices.service.ts:483-567 | A transfer is refused with exactly the first reason that holds: a repeated device, the receiver, an unseen device, a device that is in a vehicle or not RECEIVED, IN_STOCK or ALLOCATED |
| RegistryAnswers.AllocateAnswer | services/backend-api/src/assets/devices/devices.service.ts:742-795 | The same for allocate |
| RegistryAnswers.ReturnAnswer | services/backend-api/src/assets/devices/devices.service.ts:857-889 | The same for a return of a device that a row allocates |
| RegistryAnswers.UpdateAnswer | services/backend-api/src/assets/devices/devices.service.ts:344-390 | The same for update |
| RegistryAnswers.Visibility | services/backend-api/src/assets/common/asset-access.service.ts:83-147 | deviceWhere lets an actor see a device exactly by platform scope, an active allocation to a dealer of the actor, or a vehicle of a customer that the actor manages or is |
| RegistryWrites.UnseenVehicleStays | services/backend-api/src/assets/common/asset-access.service.ts:199-225 | An accepted request of an actor without platform scope leaves every vehicle alone whose customer the actor neither manages nor is |
| RegistryTexts.RegisterAnswer | services/backend-api/src/assets/devices/devices.service.ts:234-330 | register stores the trimmed IMEI and the trimmed serial number in capitals in a new IN_STOCK device of the platform, or is refused with exactly the first reason that holds |
| RegistryTexts.BulkAnswer | services/backend-api/src/assets/devices/devices.service.ts:416-481 | Every line of a batch gets the answer that follows from the tables before the batch: not 14 to 17 digits, an earlier line with the same IMEI, the reason of register, or CREATED |
| RegistryTexts.CreateVehicleAnswer | services/backend-api/src/assets/vehicles/vehicles.service.ts:184-232 | Creation stores the normalised identities in a new PENDING vehicle or is refused with exactly the first reason that holds |
| RegistryTexts.UpdateVehicleAnswer | services/backend-api/src/assets/vehicles/vehicles.service.ts:234-326 | An update changes one vehicle in what the request gives, sets or clears the archiving time with a status, or is refused with exactly the first reason that holds |
| RegistryWrites.InstallEffect | services/backend-api/src/assets/devices/devices.service.ts:1375-1480 | An accepted install writes one COMPLETED installation, one active primary assignment that refers to it, the custody of the customer, the lifecycle, the vehicle's status and the managing dealer's allocation, and nothing else |
| RegistryWrites.RemoveEffect | services/backend-api/src/assets/devices/devices.service.ts:1482-1605 | What an accepted remove writes, row by row: back to the managing dealer when the device is allocated, to the platform otherwise |
| RegistryWrites.ReplaceEffect | services/backend-api/src/assets/devices/devices.service.ts:1150-1184 | An accepted replace writes what a removal, for replacement, and then an install write |
| RegistryWrites.TransferOutcome | services/backend-api/src/assets/devices/devices.service.ts:568-675 | After an accepted transfer to a customer every listed device is ALLOCATED, owned and held by the customer and has an AVAILABLE allocation exactly to its managing dealer if there is one; to a dealer, it is owned, held and AVAILABLE there |
| RegistryWrites.TransferEffect | services/backend-api/src/assets/devices/devices.service.ts:568-675 | What an accepted transfer writes, table by table |
| RegistryWrites.AllocateEffect | services/backend-api/src/assets/devices/devices.service.ts:796-855 | What an accepted allocation writes, row by row |
| RegistryWrites.ReturnEffect | services/backend-api/src/assets/devices/devices.service.ts:890-944 | What an accepted return writes, row by row |
| RegistryWrites.UpdateEffect | services/backend-api/src/assets/devices/devices.service.ts:391-414 | What an accepted update writes, the retirement time included |
| RegistryWrites.UnseenStays | services/backend-api/src/assets/common/asset-access.service.ts:83-147 | An accepted request of an actor without platform scope leaves every device alone that the rows did not let it see |
| BillingRuns.StepKeeps | services/backend-api/src/billing/commissions/commission-engine.service.ts:15-232 | Every accepted billing operation keeps the books in order: balance, no double earning, initial commission once, funded invoices |
| BillingRuns.RunBalances | services/backend-api/src/billing/commissions/commissions.service.ts:412-423 | After any run each dealer's commission credits less debits equal the sum of its commission entries, and the reported balance is that sum less other ledger rows |
| BillingRuns.RunEarnsOnce | services/backend-api/src/billing/commissions/commission-engine.service.ts:431-447 | After any run no payment has earned twice on a line and at most one invoice per subscription has earned INITIAL_SUBSCRIPTION |
| BillingRuns.RunConserves | services/backend-api/prisma/migrations/20260714101024_billing_foundation/migration.sql:970-1084 | After any run an invoice is paid exactly what is allocated to it and never more than its total; no payment allocates or refunds more than it has |
| BillingRuns.PostInitial | services/backend-api/src/billing/invoices/invoices.service.ts:414-420 | An invoice that earned INITIAL_SUBSCRIPTION is allocated and so not void, so no other invoice of its subscription earns it; TransactionMeans says which line is initial |
| BillingEngine.RepeatChangesNothing | services/backend-api/src/billing/commissions/commission-engine.service.ts:44-83 | Repeating createForAllocation changes nothing while its inputs are the same and nothing was cancelled, reversed entries included |
| BillingRuns.RepeatAfterRun | services/backend-api/src/billing/commissions/commission-engine.service.ts:44-83 | The same after any run in between that leaves rules, plans and what the engine reads of invoices as they were |
| BillingEngine.EarnedLines | services/backend-api/src/billing/commissions/commission-engine.service.ts:44-132 | After the loop exactly the lines that had earned or are due have an original entry for the payment |
| BillingEngine.CommissionAtMostAllocation | services/backend-api/src/billing/commissions/commission-engine.service.ts:42-95 | When the rules the engine finds for the lines of the invoice are percentages without minimum, or pay nothing, the commission of one allocation exceeds it by at most half a cent per line and total * 0.5e-8; no other rule matters |
| CommissionBounds.BasesError | services/backend-api/src/billing/commissions/commission-engine.service.ts:42-93 | The bases of the lines sum to the allocation within n * 0.5 cents + total * 0.5e-8 |
| CommissionBounds.SharesError | services/backend-api/src/billing/commissions/commission-engine.service.ts:164-168 | Any k rounded shares of c by rounded ratios sum to the exact share within k * (0.5 cents + c * 0.5e-8) |
| CommissionBounds.RatioReachesOne | services/backend-api/src/billing/commissions/commission-engine.service.ts:164-164 | The rounded refund ratio reaches one if and only if 2e8 * (payment - refund) <= payment |
| CommissionBounds.RatioThreshold | services/backend-api/src/billing/commissions/commission-engine.service.ts:211-211 | Below 2,000,000.00 only a full refund reaches one; at 2,000,000.00 one cent less does too |
| BillingExamples.HalvesReverseTwice | services/backend-api/src/billing/commissions/commission-engine.service.ts:166-168 | A run in which two refunds of half a payment of 0.02 take back 0.02 of a commission of 0.01 |
| BillingRefunds.RefundsError | services/backend-api/src/billing/commissions/commission-engine.service.ts:136-232 | Over any run, with any operations between them, k refunds of a payment take back of a commission c that is not reversed by hand its refunded fraction within k * (0.5 cents + c * 0.5e-8) |
| BillingRefunds.RefundWithin | services/backend-api/src/billing/commissions/commission-engine.service.ts:164-168 | After an accepted refund the reversals of a reversible entry stay within its amount c if and only if c times the rounded ratio is less than half a cent above what is left |
| BillingRefunds.RunWithin | services/backend-api/src/billing/commissions/commission-engine.service.ts:136-232 | Over any run, reversals by hand included, the reversals of an entry stay within its amount if and only if every accepted refund and reversal meets its condition; once beyond it they stay beyond |
| BillingRefunds.ReversalsError | services/backend-api/src/billing/commissions/commissions.service.ts:290-380 | Over any run, the reversals of a commission c sum to c for each reversal by hand plus the fraction refunded while it was reversible, within k * (0.5 cents + c * 0.5e-8) |
| BillingRefunds.FullRefundTakesBackAll | services/backend-api/src/billing/commissions/commission-engine.service.ts:164-230 | A full refund takes back exactly the commission of every entry it finds; RefundMarks gives the statuses |
| BillingRefunds.ReverseEntryTakesBackAll | services/backend-api/src/billing/commissions/commissions.service.ts:290-380 | A manual reversal takes back the full amount, so entry and reversals cancel if and only if nothing was refunded before; it can be repeated exactly when the entry was not AVAILABLE |
| BillingExamples.ReversedTooMuch | services/backend-api/src/billing/commissions/commissions.service.ts:312-364 | A run in which a commission of 0.01 that a refund took back is reversed by hand and taken back twice |
| BillingInstalments.AllocationEarns | services/backend-api/src/billing/commissions/commission-engine.service.ts:44-132 | createForAllocation posts on a line exactly what is due there if the payment had not earned on it, and nothing on other invoices |
| BillingInstalments.RunEarns | services/backend-api/src/billing/commissions/commission-engine.service.ts:15-134 | Over any run that allocates an invoice under one plain rule, by different payments at their own times and with any other operations in between, the original entries of a line sum to exactly what the rule pays for each amount |
| BillingInstalments.ReachedIsSound | services/backend-api/src/billing/commissions/commission-engine.service.ts:15-134 | After any run from empty books, every original entry goes back to an allocation of its payment to its invoice |
| BillingInstalments.SinglePayment | services/backend-api/src/billing/commissions/commission-engine.service.ts:325-346 | A run that pays the invoice at once posts the fixed amount, or the percentage of the line |
| BillingInstalments.FixedInstalments | services/backend-api/src/billing/commissions/commission-engine.service.ts:325-346 | A run that pays an invoice in n instalments with positive bases under one fixed rule posts on a line what a run with a single payment posts, within n * (0.5 cents + fixed * 0.5e-8) |
| BillingInstalments.PercentagesByInstalment | services/backend-api/src/billing/commissions/commission-engine.service.ts:85-95 | The same for a percentage rule, within n * (0.5 cents + rate * (0.5 cents + line * 0.5e-8)) + 0.5 cents |
| CommissionRules.FindRuleBest | services/backend-api/src/billing/commissions/commission-engine.service.ts:234-303 | A rule is found exactly when one is eligible, rules for the plan win over general ones, and no eligible rule of that kind comes earlier |
| CommissionRules.SelectTier | services/backend-api/src/billing/commissions/commission-engine.service.ts:360-399 | The selected tier is the first that contains the base; none is selected exactly when no tier does |
| CommissionRules.CalculateIsClamped | services/backend-api/src/billing/commissions/commission-engine.service.ts:346-356 | With valid limits the result lies between them and differs from the rounded amount only at a limit |
| CommissionRules.PercentagePaysAtMostBase | services/backend-api/src/billing/commissions/commission-engine.service.ts:325-327 | A checked percentage rule without minimum pays at most its base |
| CommissionRules.CalculateAmount | services/backend-api/src/billing/commissions/commission-engine.service.ts:305-358 | The reassigned local amount is the specified amount |
| CommissionRules.EditedRulesStored | services/backend-api/src/billing/commissions/commissions.service.ts:148-212 | An updated rule satisfies the stored-calculation constraint, a created one exactly when it carries no data of another calculation; an empty update changes nothing |
| BillingInvoices.RunOnward | services/backend-api/src/billing/invoices/invoices.service.ts:392-450 | Over any run invoices keep lines, totals, subscription and dealer, and void is final |
| BillingInvoices.CreateBillsOnce | services/backend-api/src/billing/invoices/invoices.service.ts:165-210 | An accepted creation keeps a subscription billed once per period if and only if the subscription or the period is absent or the period was not billed |
| BillingInvoices.RunBillsOnce | services/backend-api/src/billing/invoices/invoices.service.ts:246-268 | Over any run without a manual invoice for a period that is then billed, a subscription has at most one non-void invoice per period |
| BillingExamples.PeriodBilledTwice | services/backend-api/src/billing/invoices/invoices.service.ts:165-210 | A run in which a manual invoice bills a period a second time |
| BillingService.Bookkeeper.EarnForAllocation | services/backend-api/src/billing/commissions/commission-engine.service.ts:15-134 | The loop over the lines writes exactly the entries and ledger rows that AllocationAdds describes |
| BillingService.Bookkeeper.ReverseEntriesForRefund | services/backend-api/src/billing/commissions/commission-engine.service.ts:136-232 | The loop over the entries read before it writes exactly the reversals that RefundReverses describes |
| BillingService.Bookkeeper.ReverseEntry | services/backend-api/src/billing/commissions/commissions.service.ts:290-380 | Gives the answer and the books that ReverseMeans describes |
| BillingService.Bookkeeper.AddInvoice | services/backend-api/src/billing/invoices/invoices.service.ts:452-523 | Gives the answer and the books that CreateMeans describes |
| BillingService.Bookkeeper.BillForPeriod | services/backend-api/src/billing/invoices/invoices.service.ts:224-332 | Gives the answer and the books that BillMeans describes |
| BillingService.Bookkeeper.IssueInvoice | services/backend-api/src/billing/invoices/invoices.service.ts:334-390 | Only drafts become issued |
| BillingService.Bookkeeper.Void | services/backend-api/src/billing/invoices/invoices.service.ts:392-450 | Paid, refunded, allocated or void invoices are refused, any other becomes void |
| BillingService.Bookkeeper.ConfirmPayment | services/backend-api/src/billing/payments/payments.service.ts:207-338 | Gives the answer and the books that ConfirmAnswer and ConfirmEffect describe; a refused allocation undoes the whole confirmation |
| BillingService.Bookkeeper.RefundPayment | services/backend-api/src/billing/payments/payments.service.ts:456-552 | Gives the answer and the books that RefundAnswer and RefundEffect describe |
| BillingAnswers.TransactionMeans | services/backend-api/src/billing/commissions/commission-engine.service.ts:401-447 | For every entry that createForAllocation adds, the transaction follows from the item type of its line; on a subscription line it is INITIAL_SUBSCRIPTION if and only if no other invoice of the subscription is not void, and SUBSCRIPTION_RENEWAL otherwise; other items and subscription lines without a subscription earn nothing |
| BillingAnswers.AllocationAdds | services/backend-api/src/billing/commissions/commission-engine.service.ts:15-134 | createForAllocation adds, in the order of the lines, exactly the entries that the lines owe - transaction, rule that applies, base and ratio by their rounding bounds, amount by what the rule pays - and that the payment has not earned, each with one credit |
| BillingAnswers.RefundMarks | services/backend-api/src/billing/commissions/commission-engine.service.ts:164-230 | A refundable entry with a positive rounded share gets exactly one reversal; both are REVERSED if and only if the entry was AVAILABLE and 2e8 * (payment - refund) <= payment, and otherwise the entry keeps its status and the reversal is AVAILABLE; any other entry stays |
| BillingAnswers.RefundReverses | services/backend-api/src/billing/commissions/commission-engine.service.ts:136-232 | reverseForRefund reverses in their order exactly the refundable entries with a positive share, and debits each |
| BillingRequests.ConfirmAnswer | services/backend-api/src/billing/payments/payments.service.ts:207-272 | A confirmation is refused with exactly the first reason that holds - state, repeated invoice, negative amount, sum, unknown invoice, first invoice that is another customer's or not payable, then a zero amount or one beyond what is left of an invoice - and accepted when none does |
| BillingRequests.ConfirmEffect | services/backend-api/src/billing/payments/payments.service.ts:274-308 | An accepted confirmation adds one allocation per share, makes each invoice PAID when its total is reached and PARTIALLY_PAID otherwise, adds what each allocation earns in the books before, and changes nothing else |
| BillingRequests.RefundAnswer | services/backend-api/src/billing/payments/payments.service.ts:385-454 | A refund is refused with exactly the first reason that holds and accepted when none does |
| BillingRequests.RefundEffect | services/backend-api/src/billing/payments/payments.service.ts:478-534 | An accepted refund adds to the refunded amount, makes a named invoice REFUNDED exactly when nothing of the payment is left, reverses commission and changes nothing else |
| BillingRequests.ReverseMeans | services/backend-api/src/billing/commissions/commissions.service.ts:290-380 | The exact answer of a manual reversal and every row it writes |
| BillingRequests.CreateMeans | services/backend-api/src/billing/invoices/invoices.service.ts:165-222 | An invoice is refused for a line that is refused, refused by the database exactly when a line rounds on a tie, and otherwise a draft of the rounded lines in their order |
| BillingRequests.BillMeans | services/backend-api/src/billing/invoices/invoices.service.ts:224-332 | A subscription is billed once per period: one line at the base price rounded to the cent |
| BillingRequests.StatusMeans | services/backend-api/src/billing/invoices/invoices.service.ts:334-450 | Exactly drafts are issued; exactly invoices that are not paid, refunded, void or allocated are voided |
| CommissionAnswers.FindRuleMeans | services/backend-api/src/billing/commissions/commission-engine.service.ts:234-303 | The rule found is the one that applies: active, in force, for the plan before every plan, then the lower priority number, then the later start, then the earlier row; none is found exactly when none applies |
| CommissionAnswers.CalculateMeans | services/backend-api/src/billing/commissions/commission-engine.service.ts:305-399 | calculate pays, by rounding bounds, the percentage of the base, the ratio's share of the fixed amount, or either of the first tier that contains the base, raised to the minimum and then lowered to the maximum |
| CommissionAnswers.UpdateRuleMeans | services/backend-api/src/billing/commissions/commissions.service.ts:148-212 | updateRule takes what is given before what is stored, accepts exactly sufficient data and keeps only the data of the calculation |
| CommissionAnswers.CreateRuleMeans | services/backend-api/src/billing/commissions/commissions.service.ts:106-147 | createRule stores what it is given as a draft if and only if it is sufficient |
| InvoiceAmounts.LineMeans | services/backend-api/src/billing/common/billing-money.service.ts:47-88 | For every input: a line is accepted if and only if price, discount and tax are not negative, the rounded quantity is positive and the rounded discount is within the rounded gross; its fields are the input rounded to 1e-3 and 0.01, by error bounds, and its total is gross less discount plus tax |
| InvoiceAmounts.EveryInputRounds | services/backend-api/src/billing/common/billing-money.service.ts:47-60 | Every input has rounded amounts, so LineMeans covers every input |
| InvoiceAmounts.RecordMeans | services/backend-api/src/billing/invoices/invoices.service.ts:452-523 | An invoice is refused for its first refused line; otherwise its subtotal, discount and tax are the sums of the rounded amounts and its total follows |
| InvoiceAmounts.InvoiceTotals | services/backend-api/src/billing/invoices/invoices.service.ts:452-523 | An invoice is rejected only for a line; its total from separate sums is exactly the sum of its rounded line totals, non-negative, within the database constraint and wholly outstanding |
| InvoiceAmounts.LineTotalGuardNeverFires | services/backend-api/src/billing/common/billing-money.service.ts:67-77 | The negative line total guard never fires |
| InvoiceAmounts.AcceptedLinePassesConstraint | services/backend-api/prisma/migrations/20260714101024_billing_foundation/migration.sql:671-687 | An accepted line satisfies the stored constraint if and only if its unrounded gross is not half a cent off with the discount taking all of it and no tax |
| InvoiceAmounts.ConstraintRefusesAcceptedLine | services/backend-api/prisma/migrations/20260714101024_billing_foundation/migration.sql:671-687 | Half a unit at 0.01 with a discount of 0.01 is accepted and then refused by the constraint |
| InvoiceAmounts.PositiveCheckAdmitsZero | services/backend-api/src/billing/common/billing-money.service.ts:30-38 | requirePositive accepts exactly the non-negative amounts below half a cent as zero |
| InvoiceAmounts.InvoiceLine | services/backend-api/src/billing/common/billing-money.service.ts:47-88 | The amounts of an accepted line are consistent: positive quantity, discount within gross, total gross less discount plus tax; LineMeans ties them to the input |
| BillingDates.AddInterval | services/backend-api/src/billing/common/billing-date.service.ts:5-34 | The Date changed by successive setters holds the specified time and the argument is untouched |
| BillingDates.AddDays | services/backend-api/src/billing/common/billing-date.service.ts:36-38 | Adds exactly that many days of 86,400,000 ms |
| BillingDates.DayLaw | services/backend-api/src/billing/common/billing-date.service.ts:8-11 | DAY addition moves the day number by the count, keeps the time of day and lands on that day's calendar date |
| BillingDates.MonthLaw | services/backend-api/src/billing/common/billing-date.service.ts:13-22 | MONTH addition moves the month index by the count and keeps the time of day; the day is clamped to the real month length if and only if the target is not February of year 0 from a day past 28, and to 28 there |
| BillingDates.LostDay | services/backend-api/src/billing/common/billing-date.service.ts:17-20 | 29 January of year 0 plus one month is 28 February although that February has 29 days |
| BillingDates.YearIsTwelveMonths | services/backend-api/src/billing/common/billing-date.service.ts:25-33 | Setting year and month through the setters and clamping the day gives the time of 12n MONTHs |
| BillingDates.MonthsStrictlyIncrease | services/backend-api/src/billing/common/billing-date.service.ts:13-22 | More months give a strictly later time |
| BillingDates.MonthAdditionKeepsDayOrder | services/backend-api/src/billing/common/billing-date.service.ts:13-22 | Month addition is monotone in the calendar day |
| BillingDates.MonthAdditionKeepsTimeOrder | services/backend-api/src/billing/common/billing-date.service.ts:13-22 | It keeps the order of two time values if and only if they are not on two clamped days of one month with times of day in the other order |
| BillingDates.TimeOrderLost | services/backend-api/src/billing/common/billing-date.service.ts:13-22 | Two times whose order one month reverses |
| BillingDates.MonthAdditionComposes | services/backend-api/src/billing/common/billing-date.service.ts:13-22 | a then b months lands in the month of a + b, never later, and on the same time when the day is at most 28 |
| Calendar.NextDay | services/backend-api/src/billing/common/billing-date.service.ts:8-22 | The calendar counts days one by one from 1 January 1970, by the lengths of the months and the leap rule |
| Calendar.CivilOf | services/backend-api/src/billing/common/billing-date.service.ts:14-14 | Field extraction is a right inverse of the day number and gives a valid date |
| Calendar.DayThenCivil | services/backend-api/src/billing/common/billing-date.service.ts:17-19 | The day number of a valid date gives that date back |
| PanelAnswers.ViewMeans | apps/web-panel/src/components/customer/customer-device-panel-toolbar.tsx:465-533 | The view shows each device of the source that the filters let through as often as the source has it and no other, each level in the order of the mode: names up or down, newest or oldest first |
| PanelAnswers.GroupMeans | apps/web-panel/src/components/customer/customer-device-panel-toolbar.tsx:363-387 | A record is a group exactly when it holds an array under one of seven keys, and its children are those under the first such key |
| DevicePanel.ViewLeaves | apps/web-panel/src/components/customer/customer-device-panel-toolbar.tsx:465-533 | The leaves of the view are, as a multiset, the source leaves that pass the filters |
| DevicePanel.ViewTidy | apps/web-panel/src/components/customer/customer-device-panel-toolbar.tsx:465-533 | Every level is sorted, no group is empty and every leaf passes |
| DevicePanel.ViewIdempotent | apps/web-panel/src/components/customer/customer-device-panel-toolbar.tsx:465-533 | The view of a view is itself |
| DevicePanel.SortItemsStable | apps/web-panel/src/components/customer/customer-device-panel-toolbar.tsx:417-463 | Sorting keeps the order of items with equal keys |
| DevicePanel.BadgeMatchesView | apps/web-panel/src/components/customer/customer-device-panel-toolbar.tsx:535-597 | A badge counts as many leaves as the view under its filters |
| DevicePanel.CreateDevicePanelView | apps/web-panel/src/components/customer/customer-device-panel-toolbar.tsx:465-533 | The recursive loop computes the view |
| DevicePanel.FlattenLeaves | apps/web-panel/src/components/customer/customer-device-panel-toolbar.tsx:363-387 | The recursive loop lists the leaves in order |
| DevicePanel.BuildCounts | apps/web-panel/src/components/customer/customer-device-panel-toolbar.tsx:535-597 | The counting loop computes every badge |

## Left out

- Interleaving of concurrent requests: every request is one atomic step; of the database, the constraints listed in the table are modelled.
- decimal.js works with 20 significant digits in intermediate results: ratios and products are exact here before each rounding.
- Numeric column widths, and decimals in tier definitions beyond two places for amounts and four for rates.
- Currency: the model has one currency.
- The class Registrar does not evaluate the database constraints; RegistryRuns.Commit adds them around the same functions.
- Rules with the same priority and start: the database may return any of them, the model takes the first.
- Default start times of history rows equal the time of the step; allocation, actor and audit columns, codes, notes, coordinates and wiring flags are not stored.
- Upper-casing of characters outside ASCII; a Date outside the range of time values and invalid Dates; invoice issue and due dates.
- Status parsing by regular expressions and localeCompare in the panel: abstract classifiers and integer sort keys.
- BillingService.Bookkeeper.AddInvoice: evaluates the constraint on stored lines but does not check the customer's status, the owner of the subscription or the order of issue and due date, which are not in the books.
- BillingService.Bookkeeper.BillForPeriod: does not check the subscription's status or write nextBillingAt, because subscriptions are not in the books.
- BillingService.Bookkeeper.IssueInvoice: does not check or write issue and due dates, which are not in the books.
- The order in which confirm meets unpayable invoices: the database may return them in any order, the model takes that of the request.
- The authorization of billing requests, subscription states, gateway events, and refunds that are requested but not yet completed: a refund is requested and completed in one step.
- Settlements: only their marks on commission entries and their ledger rows, as steps with any arguments that do not cancel an entry.
- Traccar synchronisation, queries, pagination and audit records: no effect on the modelled tables.
- Lifecycle ALLOCATED does not imply an active allocation: transfers to direct customers and updates to IN_STOCK break that, so it is not claimed.
