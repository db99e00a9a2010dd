# DRIMS stock ledger

A model of how DRIMS moves relief stock. Donations are taken into warehouses as batches, relief requests are approved,
packages reserve batches for a request, and dispatch turns reservations into deductions.

Three levels describe the same system.

- Pure functions on values give each operation's meaning: `Stock` (reserve, release, commit), `Packaging` (the posted
  form), `Intake`, `Allocation`, `Drawer`, `PickOrder`.
- `Workflow` is the state machine: one action per handler, each all-or-nothing, and `Run` for a sequence of them.
- `Service.ReliefDesk` and the `*Service` methods are the code's own form, with fields updated in place, loops, early
  exits and rollback. Each is proved to carry out its action of the state machine.

What is proved over every run of that machine:

- **Safety.** 0 <= reserved <= usable on every batch and row, and rows always equal the sums of their batches.
- **Exact reservations.** The reserved column is the sum of pending package lines exactly as long as every step meets a
  stated condition on that step; cancelling, approving with edits and saving late break it, each with a counterexample.
- **Promises.** Under that discipline an untouched reservation can always be committed in full.
- **Conservation.** Stock on shelves plus dispatched stock changes only by donations, exactly as long as no dispatched
  package is rewritten.
- **No lost update**, **no double intake**, **no package without an approval**.

Beside these: greedy allocation is optimal and unique, the drawer's short list loses nothing, and its pick-order test is
exactly agreement with the greedy fill.

## Reading the model

- Quantities are integers in hundredths, the precision of warehouse rows, donations, requests and issued quantities
  (app/db/models.py:391-394). Dates are day numbers.
- Today's date, the user name, posted versions and parsed form values are parameters.
- A database check, a foreign key or a raised error is a refusal: the handler rolls back and the state is unchanged.
- A request has at most one package, and rows created by intake are active.
- Every counterexample in `Findings` is a run of a new installation, scripted in `Scenes`.
- `Good` is the safety invariant, `Exact` says reservations equal pending lines, `Disciplined` is the per-step condition.
- `ACancel` is cancelling as coded; `ARelease` is the same operation with the release done before the deletion.

## Where the code and its own words differ

The model follows the code.

- `cancel_preparation` says it releases reservations, but it deletes the package lines the release reads, so it releases
  nothing (`Findings.CancelBreaksLedger`, app/features/packaging.py:1797-1803).
- `_save_draft` says `_process_allocations` raises the package version; no statement there does, and draft saves leave
  it as it was (`Versions.PackageVersionStep`, app/features/packaging.py:1251).
- The drawer says allocated batches are always shown, but the query and the drawer sort drop a fully reserved batch, and
  the sort drops an expired one (`Drawer.AllottedOnDisplayIff` says exactly when, `Findings.FullBatchIsHidden` and
  `Findings.ExpiredBatchIsHidden` show both, app/services/batch_allocation_service.py:83-95).
- The item page clears the expiry flag of an item with dated stock, after which automatic allocation no longer drops
  expired batches (`Findings.ExpiredStockIsProposed`, app/features/items.py:438).
- Preparation handlers guard the request's status but not the package's, so they accept dispatched packages
  (`Findings.LateSaveBreaksLedger`, `Findings.SecondSendLosesStock`, app/features/packaging.py:1082).

## Model
| member | source | states |
|---|---|---|
| Safety.RunKeepsGood | app/services/inventory_reservation_service.py:155-193 | After any sequence of handler calls, in any order and with any refusals, the stock is sound (0 <= reserved <= usable on every batch and row, every warehouse row equals the sum of its batches in all four columns), every package line names a real batch of its item with a non-negative quantity, and every item's status agrees with its issued quantity |
| Safety.StepKeepsGood | app/features/packaging.py:1216-1509 | Each of the seventeen modelled actions keeps that invariant, whether it commits or is rolled back |
| Ledger.RunExactIff | app/services/inventory_reservation_service.py:101-165 | Along a run every prefix keeps the reserved column equal to the sum of undispatched package lines, batch by batch, if and only if every step meets its own precondition: a draft save leaves dispatched lines as they were, a dispatch posts what the package has reserved (or more where nobody else holds the batch), a discard frees what the package held |
| Ledger.StepExactIff | app/services/inventory_reservation_service.py:101-165 | The same for one step: the reserved column stays exact if and only if the step meets a condition on the state and the posted form that can be evaluated before the call |
| Ledger.ReservingExactIff | app/features/packaging.py:1262-1270 | Saving keeps reservations exact if and only if the package is undispatched, or the save leaves each batch quantity as it was (or lowers one on a batch that holds no reservation) |
| Ledger.DispatchingExactIff | app/services/inventory_reservation_service.py:322-347 | Committing keeps reservations exact if and only if, batch by batch, the committed quantity is the package's own reservation, or exceeds it on a batch nobody else has reserved |
| Ledger.DiscardingExactIff | app/features/packaging.py:1797-1805 | Dropping a package's lines keeps reservations exact if and only if, batch by batch, what is freed is the package's own reservation, or more where nobody else holds the batch |
| Ledger.TakingInExact | app/features/donation_intake.py:474-552 | Taking a donation in leaves reservations exact |
| Ledger.PendingCommits | app/services/inventory_reservation_service.py:322-347 | In an exact state an undispatched package can always be committed, and each batch then loses exactly the line's quantity from both usable and reserved: the cut-off at zero never acts |
| Ledger.ReservationIsPromise | app/services/inventory_reservation_service.py:292-373 | A reservation is a promise: after any disciplined run of other people's steps, the commit of an untouched package still succeeds and still takes exactly its lines |
| Ledger.SavesNeverCutOff | app/services/inventory_reservation_service.py:155-165 | In an exact state neither re-saving nor releasing an undispatched package is clipped at zero: reserved moves by the exact difference |
| Ledger.SavingRunTelescopes | app/features/packaging.py:1216-1296 | Any run of draft saves, submissions and approval saves of one request leaves the stock that one save straight from the first lines to the last would leave |
| Conservation.StepAccount | app/features/packaging.py:1424-1509 | Usable stock plus everything in dispatched packages changes, per item, only by what a donation brings in and by what a step rewrites on an already dispatched package |
| Conservation.StepConservesIff | app/features/packaging.py:1424-1509 | One step conserves an item exactly when what it rewrites of that item on a dispatched package is zero |
| Conservation.RunAccount | app/services/inventory_reservation_service.py:322-347 | The same account over any run |
| Conservation.RunConservesIff | app/services/inventory_reservation_service.py:322-347 | Along a run the account of an item is right after every step if and only if no step rewrites any of it |
| Conservation.StockIsConserved | app/services/inventory_reservation_service.py:322-347 | If no step of the run touches a dispatched package, the account grows by the donations taken in and nothing else: no stock appears or is lost |
| Conservation.CommitTakesLines | app/services/inventory_reservation_service.py:322-371 | A successful commit lowers an item's usable total over all batches by exactly the total of its lines |
| Conservation.ReceiveAllAdds | app/features/donation_intake.py:453-552 | Receiving a list of arrivals raises each column of each item by the sum the list carries for it |
| BatchNumbers.RunKeepsLabels | app/features/donation_intake.py:390-412 | Over any run no item has two batches with the same number, and no warehouse has two unnumbered batches of one item |
| BatchNumbers.RunKeepsExpiry | app/features/donation_intake.py:301-317 | At the end of a run in which no item with dated batches loses its expiry flag, only items that can expire carry expiry dates |
| BatchNumbers.StepExpiryIff | app/features/items.py:437-445 | One step keeps expiry dates to the items that can expire if and only if it is not an edit that clears the flag of an item with dated batches |
| BatchNumbers.RunExpiryIff | app/features/items.py:437-445 | Along a run that rule holds after every step if and only if no step is such an edit |
| Lifecycle.RunFollows | app/services/relief_request_service.py:19-28 | Once a request has left draft, along any run its status never moves back, its items and requested quantities stay as submitted, a recorded reviewer stays, and an ineligible request never changes again |
| Lifecycle.OnlyApprovalAdmits | app/services/relief_request_service.py:491-540 | The only step that makes a request packable is a favourable eligibility decision on a request awaiting approval |
| Lifecycle.PackagesWereApproved | app/features/packaging.py:1082-1084 | If a run that starts without a request ends with a package for it, some committed step of the run was its favourable eligibility decision, and the request carries a reviewer |
| Versions.CheckedStepRaises | app/features/packaging.py:1232-1257 | Each version-checked handler that commits strictly raises the request's or the package's version |
| Versions.RunNeverLowers | app/features/packaging.py:1232-1257 | No run lowers a version, and none creates a package without raising the request's version |
| Versions.PackageVersionStep | app/features/packaging.py:1244-1257 | Submitting, saving an approval and approving raise their package's version by one; every other step, draft saves and sends among them, leaves every package version alone |
| Versions.StaleIsRefused | app/features/packaging.py:29-45 | A handler that posts the versions of an older state is refused |
| Versions.NoLostUpdate | app/features/packaging.py:29-45 | Two checked handlers that post the versions of one snapshot never both commit, whatever other steps run before, between and after them |
| Submissions.RunKeepsCreator | app/features/packaging.py:1331-1337 | Over any run no package disappears or passes to another officer |
| Submissions.CreatorIsPoster | app/features/packaging.py:1526-1551 | A package appears only through a committed form, and belongs to the officer who posted it |
| Submissions.OnlyCreatorSubmits | app/features/packaging.py:1331-1337 | Once a package exists, only its creator ever submits it, whatever run lies between |
| Submissions.SubmittedStep | app/features/packaging.py:1246-1250 | A package counts as submitted after a submission, no longer after a draft save, and as before after every other step |
| Submissions.DispatchedStep | app/features/packaging.py:575-584 | A package is dispatched exactly by approving, sending or reviewing it, and stays dispatched |
| Stock.ReserveKeepsSound | app/services/inventory_reservation_service.py:119-195 | Moving reservations from any old lines to any new lines, when it succeeds, keeps the stock sound |
| Stock.ReleaseKeepsSound | app/services/inventory_reservation_service.py:230-283 | Releasing any lines keeps the stock sound |
| Stock.CommitKeepsSound | app/services/inventory_reservation_service.py:322-371 | Committing any lines, when it succeeds, keeps the stock sound |
| Reservations.WalkIsPointwise | app/services/inventory_reservation_service.py:119-165 | The batch-by-batch walk with its early exit succeeds if and only if every key passes against the starting stock, and its result is then the simultaneous update |
| Reservations.WalkOrderIrrelevant | app/services/inventory_reservation_service.py:119-165 | The order in which the set of keys is walked changes neither the outcome nor the result |
| Reservations.RowNeverOverReserved | app/services/inventory_reservation_service.py:188-193 | When each batch of a sound stock is within its usable quantity, the warehouse row's own over-reservation test cannot fail |
| Reservations.ReserveSucceedsIff | app/services/inventory_reservation_service.py:119-195 | On sound stock a reservation succeeds if and only if every batch key passes its test: the row test never decides |
| Reservations.PrecheckIsDeltaCheck | app/services/batch_allocation_service.py:330-346 | The form's availability test with the package's own quantity given back accepts exactly the lines that the reservation's difference test accepts |
| Reservations.ValidatedFormIsReserved | app/features/packaging.py:1594-1628 | Every form that validation accepts in a good state is then reserved without refusal |
| Reservations.SaveMoves | app/services/inventory_reservation_service.py:119-195 | A save moves each batch's reserved column by exactly new minus old, keeps the stock sound and leaves the new lines covered |
| Reservations.DirectSave | app/services/inventory_reservation_service.py:119-195 | Any sound stock that differs from the start by exactly new minus old is reached by one successful save |
| Reservations.SavesTelescope | app/services/inventory_reservation_service.py:101-165 | A chain of saves equals one save from the first lines to the last, refusals aside |
| Reservations.SavingBackRestores | app/services/inventory_reservation_service.py:101-165 | A chain of saves that ends on the lines it began with restores the stock exactly |
| Reservations.ReleaseUndoesReserve | app/services/inventory_reservation_service.py:202-285 | Release after reserve gives back the very stock reserve started from |
| ItemStatuses.IssueIsTotalIffTruthful | app/features/packaging.py:1701-1711 | The issued quantity the code derives from a status equals the allocated total exactly when the status tells the truth about that total |
| ItemStatuses.AllowedIffTruthful | app/services/item_status_service.py:44-107 | For all quantities, a status is offered if and only if it is active and truthful (or filled for a total above the request), is partial or filled only with something allocated, and is requested only before any activity |
| ItemStatuses.ChangedStatusIsTruthful | app/services/item_status_service.py:109-155 | A transition that changes the status and passes validation lands on a truthful status |
| Packaging.LinesAfterAt | app/features/packaging.py:1737-1779 | Which lines a package holds after processing, and with what quantity, given only the posted picks |
| Packaging.ProcessedLinesSound | app/features/packaging.py:1737-1779 | Lines from an accepted form name real batches of their item, carry non-negative quantities and belong to requested items |
| Packaging.ProcessedTotals | app/features/packaging.py:1589-1628 | The package's line total for an item is the total of the picks posted for it: nothing is lost or merged on the way |
| Packaging.ProcessedItemsAgree | app/features/packaging.py:1630-1711 | An accepted form leaves each item's issued quantity in agreement with its status, and picks between zero and the requested quantity |
| Packaging.GateIsExact | app/features/packaging.py:184-202 | Under quantities in hundredths the gate's 0.001 tolerance admits no difference: a passed gate means issued equals allocated |
| Packaging.ToleranceIsExactIff | app/features/packaging.py:201-202 | The gate's tolerance lets no difference pass if and only if quantities are coarser than thousandths |
| Packaging.FourDecimalsPass | app/features/packaging.py:201-202 | Counterexample on the four decimals of package lines: 1.0001 passes for 1.0000 |
| Dispatch.GatedDispatchIsTruthful | app/features/packaging.py:513-573 | Approval and review dispatch deduct from stock, for each requested item, exactly the issued quantity the request then reports, with a status that agrees |
| Dispatch.EmptyDispatchIsExcused | app/features/packaging.py:549-563 | A gated dispatch either issues something or has every item marked unavailable |
| Dispatch.DispatchTakesOnlyRequested | app/features/packaging.py:1576-1628 | No dispatch of any of the three kinds deducts stock of an item the request does not list |
| Dispatch.SendIsTruthfulIff | app/features/packaging.py:1424-1473 | The ungated send reports what it deducts if and only if the status chosen on the form is truthful for the picked total |
| Acceptance.SaveCommitsIff | app/features/packaging.py:1231-1296 | A draft save commits exactly when the request is packable, the versions are current and the form passes: the reservation never refuses it |
| Acceptance.ApprovalSaveCommitsIff | app/features/packaging.py:426-490 | The same for a save in the approval page |
| Acceptance.SubmitCommitsIff | app/features/packaging.py:1313-1372 | A submission commits exactly when the officer could save the form as a draft and there is no package yet, or a pending one of the same officer |
| Acceptance.SendIsComplete | app/features/packaging.py:1643-1648 | A committed send fills every requested item or posts a status that excuses a smaller quantity |
| Acceptance.SendCommitsIff | app/features/packaging.py:1434-1467 | For a package not yet dispatched, a send commits exactly when the form could be saved as a draft and fills or excuses every item |
| Acceptance.GateIff | app/features/packaging.py:168-218 | The gate passes exactly when every issue quantity is the held total and something is allocated on a line, or every item is marked unavailable |
| Acceptance.ReviewCommitsIff | app/features/packaging.py:166-240 | Reviewing a package goes through exactly when it is pending, every issue quantity is what it holds, and something is issued or every item is unavailable |
| Acceptance.ApproveCommitsIff | app/features/packaging.py:493-598 | Approving a form goes through exactly when it could be saved in the approval page, every status it leaves is truthful for the picked total, and something is picked or every item is left unavailable |
| Acceptance.SubmitRequestCommitsIff | app/services/relief_request_service.py:203-230 | A request is submitted exactly when it is a draft with items and the posted version is current |
| Acceptance.StripTrims | app/services/relief_request_service.py:505-507 | Stripping a text cuts off the spaces at both ends and nothing else |
| Findings.EditedApprovalBreaksLedger | app/features/packaging.py:511-592 | Counterexample run, for every quantity that fits: with two packages pending, the first, for which 40.00 is reserved, can be approved with any posted quantity, and reservations stay exact only for 40.00; more eats into the other package's reservation, less stays reserved for nobody |
| Findings.CancelBreaksLedger | app/features/packaging.py:1797-1805 | Counterexample run, for every held quantity: cancelling a saved package leaves the stock as it was while no package holds any of it, because the lines are deleted before the release reads them |
| Findings.LateSaveBreaksLedger | app/features/packaging.py:1082-1084 | Counterexample run: after a reviewed dispatch, a draft save of the same package commits and reserves stock that no pending package holds |
| Findings.SecondSendLosesStock | app/features/packaging.py:1434-1467 | Counterexample run: after a reviewed dispatch, sending the same package again deducts a second time and the account loses the first load |
| Findings.SilentSendMisreports | app/services/item_status_service.py:131-133 | Counterexample run: an item saved as unavailable keeps that status unchecked when it is sent with 5.00 units, which leave the shelf unreported |
| Findings.ExpiredStockIsProposed | app/services/batch_allocation_service.py:132-140 | Counterexample run: once the item page clears the expiry flag of an item with dated stock, automatic allocation proposes the expired batch for every demand, validation refuses the line and no draft is saved with it |
| Findings.FullBatchIsHidden | app/services/batch_allocation_service.py:90-95 | Counterexample run: a package that reserved a whole batch opens its drawer and, whatever the demand and the order of the query, finds it empty |
| Findings.ExpiredBatchIsHidden | app/services/batch_allocation_service.py:83-87 | Counterexample run: a package that holds part of a dated batch no longer sees it after the expiry date, although stock is left |
| Intake.ReceiveOneSums | app/features/donation_intake.py:474-552 | One arrival raises the batch sums of its own warehouse and item by its quantities and no other sum |
| Intake.ReceiveOneKeepsSound | app/features/donation_intake.py:474-552 | One arrival, whether it tops up, creates a batch or creates a row, keeps rows equal to batch sums |
| Intake.ReceiveAllKeepsSound | app/features/donation_intake.py:453-552 | So does a whole submission |
| Intake.ReceiveAllKeepsLabels | app/features/donation_intake.py:375-412 | A submission that passed the number checks creates no duplicate batch number |
| Intake.ReceiveAllExtends | app/features/donation_intake.py:477-527 | A submission keeps every existing batch's identity and reservation, gives new batches fresh ids and nothing reserved, and leaves a row for each arrival |
| Intake.SheetGivesSoundArrivals | app/features/donation_intake.py:205-434 | An accepted sheet yields one arrival per donated item that carries the entered usable, defective and expired quantities column by column, the entered number, dates and unit; the parts add up to the donated quantity, the usable part is positive, dates lie on the right side of today, and an expiry date is kept exactly for items that expire |
| Donations.IntakeAddsDonation | app/features/donation_intake.py:414-426 | A committed intake raises an item's stock over all batches by exactly the donated quantity, other items not at all, and reservations not at all |
| Donations.IntakeAddsToRows | app/features/donation_intake.py:529-552 | The same at the receiving warehouse's rows, and no other row |
| Donations.IntakeSplits | app/features/donation_intake.py:369-371 | A committed intake raises the usable, defective and expired stock of each donated item by the quantity entered for that column, and no column of any other item |
| Donations.IntakeSplitsRows | app/features/donation_intake.py:529-552 | The same column by column for the receiving warehouse's rows, and no other row |
| Donations.IntakeFilesBatch | app/features/donation_intake.py:474-527 | Each donated item ends up in a new batch with the entered number, date, unit and quantities, and the entered expiry date if it expires; without a number it joins the warehouse's unnumbered batch or becomes it |
| Donations.TakenInOnce | app/features/donation_intake.py:146-158 | Along any run a donation is taken in at most once, over all warehouses |
| Filling.FilledSoFar | app/services/batch_allocation_service.py:218-245 | After k batches the greedy walk holds the smaller of the demand and what those k offer |
| Filling.EarlierAreExhausted | app/services/batch_allocation_service.py:218-245 | A batch is touched only when every earlier one is used up |
| Filling.FillDominates | app/services/batch_allocation_service.py:218-245 | Any other way to draw the same total takes no more from any prefix |
| Filling.OnlyFillDominates | app/services/batch_allocation_service.py:218-245 | The greedy draw is the only one with that property |
| Allocation.SortSorts | app/services/batch_allocation_service.py:118-178 | Each allocation order yields a sorted permutation of the batches |
| Allocation.SortIsStable | app/services/batch_allocation_service.py:149-178 | Batches with equal keys keep their incoming order |
| Allocation.BeforeMeans | app/services/batch_allocation_service.py:97-178 | When one batch stands before another in each of the five orders, as an equivalence in dates and remainders: undated batches count as oldest in date order, as youngest in expiry ties and come last for newest first; remaining ties of the rule orders go to the larger remainder |
| Allocation.RuleOrder | app/services/batch_allocation_service.py:149-178 | In the allocation list of a FIFO item, or a FEFO item that cannot expire, batches stand from oldest to newest; for LIFO from newest to oldest; for an expiring FEFO item by expiry date, then batch date; ties by larger remainder |
| Allocation.DrawerOrder | app/services/batch_allocation_service.py:97-115 | In the drawer list batches stand by expiry date, then batch date, for items that expire and by batch date for all others, whatever the issuance rule |
| Allocation.SortedListsHold | app/services/batch_allocation_service.py:79-95 | Both lists hold exactly the batches with an unreserved remainder that, where the item expires, have not expired |
| Allocation.RemainderIsValid | app/services/batch_allocation_service.py:320-346 | What automatic allocation counts as available of an active, unexpired batch is exactly what validation accepts |
| Allocation.ValidateAllocation | app/services/batch_allocation_service.py:316-346 | The checks in turn accept exactly the valid allocations |
| Allocation.AvailableBatches | app/services/batch_allocation_service.py:21-60 | The joins and filters deliver each matching batch once and nothing else |
| Allocation.RuleListIsLive | app/services/batch_allocation_service.py:132-140 | The sorted list offers only batches of the input that are unexpired where the item expires, each with something available |
| Allocation.AutoAllocate | app/services/batch_allocation_service.py:181-245 | The loop with its early exit returns the greedy draws over the list sorted by the item's rule, and nothing for an unknown item |
| Allocation.AllocatesAllItCan | app/services/batch_allocation_service.py:218-245 | The allocated total is the smaller of the demand and everything available |
| Allocation.AllocationDominates | app/services/batch_allocation_service.py:149-245 | For every order and every cut-off key, no feasible allocation of the same total draws more from the batches at or before the cut-off |
| Allocation.FefoUsesExpiringStock | app/services/batch_allocation_service.py:150-160 | Under first-expired-first-out no feasible allocation of the same total uses more stock that expires by any given day |
| Allocation.FifoUsesOldestStock | app/services/batch_allocation_service.py:169-178 | For FIFO items, and FEFO items that cannot expire, no feasible allocation of the same total uses more stock dated by any given day |
| Allocation.LifoUsesNewestStock | app/services/batch_allocation_service.py:161-168 | For LIFO items no feasible allocation of the same total uses more stock dated on or after any given day |
| AutoAllocation.AutoLineValidIff | app/services/batch_allocation_service.py:292-346 | A proposed line passes allocation validation if and only if its batch has no past expiry date, which always holds for items that expire |
| AutoAllocation.AutoTotal | app/services/batch_allocation_service.py:181-245 | The proposal's total is the smaller of the demand and the live availability |
| AutoAllocation.AutoAllocationAccepted | app/services/batch_allocation_service.py:181-245 | Where only expiring items carry expiry dates, an automatic proposal on sound stock passes validation, stays within the request and is reserved |
| AutoSave.ProposedFormPassesIff | app/features/packaging.py:1589-1711 | A form filled by automatic allocation for any items of a request passes processing if and only if every calculated status equals the current one or is active, and is not a return to requested over earlier lines |
| AutoSave.AutoSaveCommitsIff | app/features/packaging.py:1216-1296 | Saving that form as a draft, over any earlier lines of the package, commits if and only if the request is packable, the versions are current and those statuses follow; without a package only the three calculated statuses have to be active |
| AutoSave.AutoSaveOnRuns | app/features/packaging.py:1985-2010 | The same after every run of a new installation in which no dated item loses its expiry flag |
| Drawer.ScanIsExact | app/services/batch_allocation_service.py:463-489 | In one warehouse a batch is shown if and only if it is already allocated, comes first, or follows batches that together do not cover the demand |
| Drawer.ScanCoversDemand | app/services/batch_allocation_service.py:463-489 | The short list either is the whole list or covers the demand |
| Drawer.ShortListRefines | app/services/batch_allocation_service.py:463-489 | Greedy picking from the short list draws exactly what it would draw from the whole list |
| Drawer.ShortfallIsExact | app/services/batch_allocation_service.py:491-499 | The shortfall computed from the shortened list equals the shortfall over every available batch |
| Drawer.DrawerIsExact | app/services/batch_allocation_service.py:424-489 | Both facts for each warehouse group as the drawer forms it |
| Drawer.AllottedShownIff | app/services/batch_allocation_service.py:463-479 | In its warehouse, a batch the package already uses is shown if and only if it has unreserved stock and, where the item expires, has not expired |
| Drawer.AllottedListedIff | app/services/batch_allocation_service.py:424-489 | In the whole drawer such a batch is listed if and only if it is live and its warehouse is counted; the second follows unless a negative quantity is given back |
| Drawer.AllottedOnDisplayIff | app/services/batch_allocation_service.py:408-489 | From the tables to the screen, in whatever order the query answers: a batch the package uses is on display if and only if the query's filter passes it and it has not expired where the item expires |
| Drawer.OnlyLiveIsShown | app/services/batch_allocation_service.py:81-95 | Nothing is shown that is fully reserved, or expired where the item expires |
| Drawer.OfferIsValid | app/services/batch_allocation_service.py:418-422 | The drawer offers of an active, unexpired batch exactly the quantities that validation accepts beside the package's own |
| Drawer.OffersAddUp | app/services/batch_allocation_service.py:491-495 | What a list offers is its usable stock less what is reserved of it, with the package's own quantities given back |
| Drawer.LimitedBatches | app/services/batch_allocation_service.py:375-499 | The nested loops return the short list; available is its usable column less its reserved column with the package's own quantities given back, and shortfall is what that leaves of the demand, the same as over every available batch |
| Drawer.GroupByWarehouse | app/services/batch_allocation_service.py:424-443 | The grouping loop keeps warehouses in first-seen order, each with its kept batches and counted availability |
| Drawer.ShowWarehouse | app/services/batch_allocation_service.py:463-489 | The per-warehouse loop appends exactly the scanned batches |
| Drawer.SumEffective | app/services/batch_allocation_service.py:491-495 | The loop adds up usable less reserved stock with the package's own quantities given back |
| Drawer.PrioritiesAreRuns | app/services/batch_allocation_service.py:502-535 | Priority ids never decrease, and two batches share an id if and only if all batches between them have the same batch date and, for an expiring FEFO item, the same expiry date |
| Drawer.AssignPriorityGroups | app/services/batch_allocation_service.py:502-535 | The numbering starts at zero and rises by one exactly where the batch date changes or, for an expiring FEFO item, the expiry date |
| PickOrder.InOrderIffGreedy | static/js/batch-allocation.js:588-627 | For entries within what is offered, the drawer's pick-order test accepts if and only if each priority group holds what a greedy fill of the entered total would put there |
| PickOrder.InOrderByRows | static/js/batch-allocation.js:588-627 | For entries within the offers the test accepts if and only if no row of a later group has an entry while a row of an earlier group has something left |
| PickOrder.AcceptedInDates | static/js/batch-allocation.js:560-632 | For the batches on display the test accepts if and only if nothing is taken from a batch while an earlier one, from which the dates have changed since, has stock left |
| PickOrder.GreedyPasses | static/js/batch-allocation.js:588-627 | Entries that follow the greedy draw over the shown batches always pass the pick-order test |
| PickOrder.BatchDrawer.Enter | static/js/batch-allocation.js:514-536 | Typing stores the number clamped between zero and the offer, unreadable text as zero, leaves all other entries alone and keeps entries within offers |
| PickOrder.BatchDrawer.TotalEntered | static/js/batch-allocation.js:541-542 | The loop adds up all entries |
| PickOrder.BatchDrawer.UseMax | static/js/batch-allocation.js:539-546 | Taking the most of one batch keeps entries that were within the request within it, and then the request is met or the batch used up |
| PickOrder.BatchDrawer.ValidatePickOrder | static/js/batch-allocation.js:560-632 | The drawer's answer is the pick-order test, and for entries within offers it is agreement with the greedy fill |
| PickOrder.CheckRows | static/js/batch-allocation.js:588-627 | The loop over sorted groups with its early exit decides the pick-order test |
| PickOrder.TallyGroups | static/js/batch-allocation.js:566-586 | The grouping pass yields each group's offered and entered sums |
| PickOrder.SortedIds | static/js/batch-allocation.js:588-589 | The group ids in strictly increasing order, none lost |
| FormService.PositiveLines | app/services/inventory_reservation_service.py:48-69 | The reservation snapshot keeps exactly the positive lines |
| FormService.SumColumn | app/services/inventory_reservation_service.py:171-176 | The loop adds one column over the batches of a warehouse and item |
| FormService.CheckPick | app/features/packaging.py:1594-1616 | One posted quantity is accepted exactly when its batch exists and holds the item, it is not negative, and a positive one is valid beside the package's own |
| FormService.ValidateTransition | app/services/item_status_service.py:44-155 | The status checks in turn accept exactly the valid transitions |
| FormService.CheckItem | app/features/packaging.py:1630-1692 | The item's checks in turn, completeness among them, accept exactly the passing items and find the status to write |
| FormService.WriteItem | app/features/packaging.py:1694-1711 | The item gets its status and the issue quantity that belongs to it |
| FormService.HasPositive | app/features/packaging.py:549-551 | The loop finds out whether anything is allocated |
| FormService.CollectPicks | app/features/packaging.py:1583-1628 | The loop over one item's posted picks accepts exactly when each pick passes, and then returns their total and lines |
| FormService.CheckGate | app/features/packaging.py:168-218 | The gate's loops and early refusals decide the gate condition |
| FormService.TotalsByItem | app/features/packaging.py:184-190 | The totals loop gives every item its line total, zero when absent |
| FormService.IssueTotals | app/features/packaging.py:565-573 | The loop sets every item's issued quantity to its allocated total |
| FormService.DeleteOrphans | app/features/packaging.py:1774-1779 | Exactly the old lines that were not processed again are deleted |
| FormService.ProcessItems | app/features/packaging.py:1576-1772 | The item loop with its refusals accepts exactly the forms that pass, and then yields the item statuses, merged lines and processed keys |
| IntakeService.FindUnnumbered | app/features/donation_intake.py:477-483 | The query returns an unnumbered batch of that warehouse and item, or there is none |
| IntakeService.UnnumberedIsUnique | app/features/donation_intake.py:477-491 | When numbers are unique any such batch is the one that gets topped up |
| IntakeService.ReadEntry | app/features/donation_intake.py:248-371 | The field checks of one donated item in form order accept exactly the good entries, and then yield the arrival and its total |
| IntakeService.ReadEntries | app/features/donation_intake.py:237-373 | The reading loop finds no error if and only if each donated item's entry reads well, and then returns the arrivals and entered totals |
| IntakeService.CountDuplicates | app/features/donation_intake.py:375-388 | No error if and only if no two lines carry the same item and batch number |
| IntakeService.CountTaken | app/features/donation_intake.py:390-412 | No error if and only if no line's number is already used for its item |
| IntakeService.CountMismatches | app/features/donation_intake.py:414-431 | No error if and only if every donated item was entered with its donated quantity |
| IntakeService.ValidateSheet | app/features/donation_intake.py:205-434 | The error list is empty if and only if the sheet passes, and then the arrivals are those the sheet describes |
| Service.ReliefDesk.ReserveInventory | app/services/inventory_reservation_service.py:72-199 | Succeeds exactly when the pointwise reservation does, and leaves that stock |
| Service.ReliefDesk.WalkBatches | app/services/inventory_reservation_service.py:119-165 | The in-place walk over the key set, in any order, decides all keys against the starting batches and applies all moves |
| Service.ReliefDesk.MoveBatch | app/services/inventory_reservation_service.py:122-165 | One key's test and clipped update |
| Service.ReliefDesk.RestateReserved | app/services/inventory_reservation_service.py:167-193 | Each affected row gets the sum of its batches, or the call refuses |
| Service.ReliefDesk.ReleaseAllReservations | app/services/inventory_reservation_service.py:202-285 | Leaves the pointwise release of the package's stored lines |
| Service.ReliefDesk.CommitInventory | app/services/inventory_reservation_service.py:292-373 | Succeeds exactly when the pointwise commit does, and leaves that stock |
| Service.ReliefDesk.DeductBatches | app/services/inventory_reservation_service.py:322-347 | The in-place deduction with its refusals applies all lines or reports failure |
| Service.ReliefDesk.ProcessAllocations | app/features/packaging.py:1512-1781 | Accepts exactly the forms that prepare, creates the package if missing, rewrites items and lines, and returns the previous lines |
| Service.ReliefDesk.MayPrepare | app/features/packaging.py:29-45 | The page guard and version checks of the preparation handlers in turn |
| Service.ReliefDesk.MayApprove | app/features/packaging.py:504-508 | The guard and version checks of the approval handlers in turn |
| Service.ReliefDesk.SaveDraft | app/features/packaging.py:1216-1296 | The step-by-step handler, with rollback on any refusal, is one atomic draft-save action of the state machine |
| Service.ReliefDesk.SubmitForApproval | app/features/packaging.py:1299-1421 | The handler is one atomic submission |
| Service.ReliefDesk.SaveDraftApproval | app/features/packaging.py:426-490 | The handler is one atomic approval save |
| Service.ReliefDesk.ApproveAndDispatch | app/features/packaging.py:493-642 | The handler is one atomic gated dispatch of the posted form |
| Service.ReliefDesk.SendForDispatch | app/features/packaging.py:1424-1509 | The handler is one atomic ungated dispatch |
| Service.ReliefDesk.ReviewApproval | app/features/packaging.py:166-275 | The handler is one atomic gated dispatch of the stored lines |
| Service.ReliefDesk.CancelPreparation | app/features/packaging.py:1788-1816 | The handler is the cancel action as coded, which always commits |
| Service.ReliefDesk.ReceiveArrival | app/features/donation_intake.py:474-552 | The in-place batch and row updates equal the arrival's effect on the yard |
| Service.ReliefDesk.ReceiveArrivals | app/features/donation_intake.py:453-552 | The loop over a validated submission equals its effect on the yard |
| Service.ReliefDesk.TakeIn | app/features/donation_intake.py:138-561 | The handler is one atomic intake, refused with nothing changed on any guard or error |
| Service.ReliefDesk.CreateDraftRequest | app/services/relief_request_service.py:87-123 | Refused for an unknown user; otherwise one new draft under a fresh number, and no submitted request changes |
| Service.ReliefDesk.EditItem | app/features/requests_aidmgmt.py:343-406 | The handler is the item-edit action with the refusals of page and table (drafts, active items, positive quantities, urgency with its reason and date); afterwards the item stands as requested in that quantity with nothing issued, and no submitted request changes |
| Service.ReliefDesk.DeleteItem | app/services/relief_request_service.py:393-422 | The handler is the item-delete action; a second call finds nothing, and no submitted request changes |
| Service.ReliefDesk.CancelRequest | app/features/requests_aidmgmt.py:479-499 | Exactly a draft can be withdrawn; it is then gone, and no submitted request changes |
| Service.ReliefDesk.SubmitRequest | app/services/relief_request_service.py:187-239 | The handler is the request submission with its version check; afterwards the request has items and can no longer be edited, emptied, withdrawn or submitted |
| Service.ReliefDesk.SubmitEligibilityDecision | app/services/relief_request_service.py:477-546 | The handler is the eligibility decision with its refusals; a request is decided once, and is packable exactly after a decision in its favour |
| Service.ReliefDesk.EditCatalog | app/features/items.py:378-445 | The handler is the item edit: of two pages opened on one version only one is saved, and no item appears or disappears |

## Left out

- Packaging.GateIsExact: stated for hundredths; batches and package lines are stored with four decimals, where the gate's tolerance lets a difference of up to 0.001 through (`Packaging.ToleranceIsExactIff`).
- Quantities with a third or fourth decimal, and the rounding of row totals to two decimals that would follow (app/db/models.py:430-433).
- Sessions, row locks and connection failures: a handler is one atomic step.
- SQLAlchemy's own version column on packages, which can raise a package version further on update; only the explicit checks and increments are modelled.
- Roles, login, routing, notifications, audit fields, lock release and page rendering.
- Package handover, receipt and automatic closing of requests, which move no stock between batches.
- Warehouse transfers and the older intake screens.
- `get_current_reservations`, `get_batch_details` and `get_batches_by_warehouse`: read-only views.
- `batch_creation_service` and `fulfillment_lock_service`.
- Master data other than an item's expiry and activity flags, and the item page's checks on its text fields; creating items, and the stock check in front of the inactivate button.
- The donation page's own checks: a donation enters the model as a list of items with quantities.
- Phone and time-zone helpers: they read and write no stock, request or package.
- Status codes outside the listed ones, and the status cache: the active statuses are a fixed set.
- Inactive warehouse rows as an outcome of running the system: no modelled handler deactivates one.
- Date and number parsing, Unicode whitespace and upper-casing of text.
- Edits to a draft's header fields: agency, urgency and event do not bear on stock.
- The drawer's page elements other than the entry box and the pick-order test; JavaScript floating point is taken as exact hundredths.
- The database tables' order of rows: queries and Python sets are walked in an arbitrary order.
