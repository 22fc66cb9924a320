# Restaurante 2.0: order lifecycle and recipe-driven inventory

This project is a Dafny model of the order and inventory core of the Restaurante 2.0 point-of-sale system. It covers four layers.

- **Backend (`services/api.ts`).** The in-memory backend holds orders, users, ingredients, tables, menu items, categories and customers. Each call changes them in place: creating orders, changing status, cancelling with stock given back, taking stock out per recipe, payments, delivery assignment, and the guarded deletes.
- **Application context (`contexts/AppContext.tsx`).** It does two things:
  - It derives cost, makeable portions and availability for each dish from its recipe and the ingredient table.
  - It sequences backend calls: stock is taken on entry into EN_PREPARACION; a table is bound on order creation and released on full payment; tables are cleaned; and an order can only switch to DELIVERY for a verified customer.
- **Staff screens.** These are the rule tables and validators of the orders, floor-plan, kitchen-display, menu, inventory and customer pages:
  - the shared cart;
  - the delivery person's status steps;
  - the LISTO click;
  - the waiter lockstep between a table and its order;
  - the table shape cycle;
  - the recipe clean-up and cost preview;
  - the name and contact uniqueness checks.
- **Public ordering portal.** It checks the customer's details, chooses between placing the order at once and asking for the verification code, and builds the order it sends.

How the model is laid out:

- **The backend as a value.** `StoreSpec` gives each backend call as a function from the database before to the database after, plus what the call returns or throws. Errors are modelled as `Result` values.
- **The backend in place.** `Api.Store` is a class with one `seq` field per collection. Each of its methods changes those fields by assignment. Each method is proved to leave the store exactly as the matching `StoreSpec` function says.
- **Stock movement.** The two-loop aggregation in `Stock` is proved equal to a closed-form `StockAfter`.
- **The resolver.** Its loop in `Resolver` is proved equal to `Displayed`.
- **Context and screen actions.** The context flows (`Context`) and the screen actions that call the store (`FloorPlan`, `Kds`, `CustomerPortal`) are functions over the database. Each has a method over `Api.Store` that runs the same calls in order.
- **Pure page logic.** The remaining page logic (`Cart`, `OrdersPage`, `MenuPage`, `InventoryPage`, `CustomersPage`, `Names`) is functions and lemmas.

Conventions:

- Money, stock and recipe quantities are integers, in cents and base units.
- `find`/`findIndex` is first-match (`Seqs.FirstIndex`).
- A `Map` built from a list keeps the last entry for a key (`Seqs.LastIndex`).
- JavaScript truthiness is written out: `Types.Present` for strings, `Types.PresentId` for numeric ids, where 0 is falsy.

## Model

| member | source | states |
|---|---|---|
| Lifecycle.InitialStatus | services/api.ts:127-141 | a new order is PENDIENTE_PAGO exactly when it is PARA_LLEVAR, and NUEVO exactly otherwise |
| Lifecycle.NextOrderId | services/api.ts:127-141 | the new id is at least 1 and above every existing order id; it is 1 or one past an existing id, so it never skips past the largest |
| Lifecycle.NewOrder | services/api.ts:127-141 | the stored order keeps the caller's type, items, table, customer, total and restaurant; it gets the given id, its initial status, no payments and no delivery person |
| Lifecycle.DeductedIsCancellable | services/api.ts:182-197 | every status with stock taken out is in the cancel whitelist; the statuses that cannot be cancelled are exactly ENTREGADO, CANCELADO and DEVOLUCION |
| Lifecycle.PaidStatus | services/api.ts:312-316 | a fully paid order leaves PENDIENTE_PAGO, for NUEVO exactly when it is PARA_LLEVAR |
| Lifecycle.WithPayment | services/api.ts:294-321 | exactly one PAGADO payment of the amount is appended, so the paid sum grows by the amount; nothing else changes but the status; the status changes exactly when it was PENDIENTE_PAGO and the paid sum reaches the total, and then goes to the paid status |
| Lifecycle.PaymentsMoveStatusAtMostOnce | services/api.ts:294-321 | after any number of payments the status is either unchanged, or moved once from PENDIENTE_PAGO to the paid status; later overpayments never move it again |
| Lifecycle.ClickTarget | pages/OrdersPage.tsx:1344-1356 | a card click acts exactly on LISTO orders: SALA and DELIVERY go to PENDIENTE_PAGO, PARA_LLEVAR to ENTREGADO |
| Stock.StockAfter | services/api.ts:248-273 | the movement changes only `stock_actual` and keeps the table's length and order |
| Stock.AddRecipeTotals | services/api.ts:255-262 | the inner loop adds `cantidad × portions` of each recipe line to its ingredient's running total |
| Stock.NeedTotals | services/api.ts:252-263 | the first loop's map holds, for every ingredient id, the order's whole recipe need |
| Stock.ApplyTotals | services/api.ts:264-270 | each total moves only the first ingredient with its id, whatever order the map's keys come in; ids with no ingredient are skipped |
| Stock.AdjustStock | services/api.ts:248-273 | both loops together equal the closed-form movement `StockAfter`, with no lower bound on stock |
| Stock.StockRoundTrip | services/api.ts:207-222 | taking an order's need out and putting it back gives the original ingredient table |
| Stock.UnneededUntouched | services/api.ts:264-270 | an ingredient the order does not need, or a later duplicate of an id, is left exactly as it was |
| Stock.WithoutLines | services/api.ts:581-590 | the stripped recipe has no line for the deleted ingredient, and every line it keeps comes from the recipe |
| Stock.MenuWithout | services/api.ts:581-590 | every menu item keeps its place and loses exactly the deleted ingredient's recipe lines |
| Stock.RecipeNeedWithout | services/api.ts:581-590 | after the strip a recipe needs none of the deleted ingredient and the same amount of every other |
| Stock.NeedAfterDelete | services/api.ts:581-590 | after the cascade no order needs the deleted ingredient, and every other ingredient's need is unchanged |
| StoreSpec.SetDeliveryState | services/api.ts:170-176 | only the first user with the id changes, and it gets the new delivery state; ids and roles are kept |
| StoreSpec.Released | services/api.ts:236-243 | a released table needs cleaning and has no order and no waiter, which keeps it consistent |
| StoreSpec.CreateOrder | services/api.ts:127-141 | the new order goes in front of the others with an id above all of theirs; the id invariant and table consistency are kept |
| StoreSpec.CreatePublicOrder | services/api.ts:143-158 | a portal order is created by the system user with no waiter, in its initial status, with no payments and with the draft's customer and items; it goes in front and nothing else changes |
| StoreSpec.UpdateOrderStatus | services/api.ts:160-178 | an unknown id throws and changes nothing; otherwise the first order with the id gets the status, with no transition check; a DELIVERY order with a delivery person moving to ENTREGADO, CANCELADO or DEVOLUCION sets that person DISPONIBLE, and no other user changes; nothing outside orders and users changes |
| StoreSpec.FreeRepartidor | services/api.ts:225-231 | the order's delivery person, when it names one, becomes DISPONIBLE; with no person the users are unchanged |
| StoreSpec.FreeBoundTable | services/api.ts:233-241 | the first table bound to the order (same id, same order, same restaurant) becomes NECESITA_LIMPIEZA with no order and no waiter; with none bound nothing changes; other orders' tables never change, and consistency is kept |
| StoreSpec.CancelOrder | services/api.ts:180-246 | it throws without change exactly for an unknown id or a status outside the whitelist; otherwise the order is CANCELADO in place, the stock comes back by the order's whole need exactly when it had been taken, its delivery person is freed, a SALA order's bound table is released, and menu, categories and customers are untouched |
| StoreSpec.DeductStock | services/api.ts:248-273 | an unknown id throws and changes nothing; otherwise exactly the ingredients move, by the order's whole need, with no lower bound |
| StoreSpec.AddPayment | services/api.ts:294-321 | an unknown id throws and changes nothing; otherwise exactly that order is replaced by its paid copy |
| StoreSpec.ApplyPatch | services/api.ts:324-334 | the patch's keys win and the id, status, payments and table are kept |
| StoreSpec.UpdateOrder | services/api.ts:324-334 | an unknown id throws and changes nothing; otherwise exactly that order is replaced by the merged one |
| StoreSpec.AssignRepartidor | services/api.ts:336-357 | an unknown order throws without change; otherwise the previous delivery person is freed first, and an unknown new person throws exactly then, with that freeing kept and the orders untouched; on success the order is EN_CAMINO with the person in place and the first user with that id is EN_REPARTO; stock and tables never change |
| StoreSpec.SameIdsSameFirst | services/api.ts:344-350 | freeing the previous person keeps every user id, so the new person is looked up at the same place as before |
| StoreSpec.ActiveAdminsUpdate | services/api.ts:107-111 | replacing one user changes a restaurant's admin count by exactly that user's contribution |
| StoreSpec.DeleteUser | services/api.ts:102-116 | an unknown user throws, exactly then; the last-admin refusal happens exactly for a found admin with at most one active admin in their restaurant, and no other refusal exists; on success exactly that user is soft-deleted and nothing else changes |
| StoreSpec.DeleteUserKeepsAnAdmin | services/api.ts:102-116 | a restaurant with an active admin keeps at least one after any delete |
| StoreSpec.DeleteCategory | services/api.ts:392-400 | refused, with no change, exactly when some menu item points at the category; otherwise exactly the categories with another id are kept, in order, and nothing else changes |
| StoreSpec.DeleteMenuItem | services/api.ts:432-448 | only those two refusals exist; refused exactly when an active order uses the item; otherwise an unknown item throws exactly when no item has the id; otherwise the first item with the id is soft-deleted in place and nothing else changes |
| StoreSpec.DeleteIngredient | services/api.ts:581-590 | exactly the ingredients with another id are kept, in order, so none with the id is left; every recipe loses its lines for it; nothing else changes |
| StoreSpec.DeleteIngredientClearsNeed | services/api.ts:581-590 | after the delete no order's stock movement touches that ingredient |
| StoreSpec.Renumbered | services/api.ts:376-390 | the categories keep their order and get `orden` 1, 2, 3, ... |
| StoreSpec.RenumberedKeepsIds | services/api.ts:376-390 | renumbering keeps the set of ids |
| StoreSpec.UpdateCategories | services/api.ts:376-390 | the renumbered list replaces the same-id entries and is stored after every other category, which are all kept; the reply holds exactly the stored categories of the first listed category's restaurant, sorted by `orden`, and is empty for an empty list |
| StoreSpec.UpdateTable | services/api.ts:616-625 | an unknown id and restaurant pair throws; otherwise exactly the first matching table is replaced, keeping the invariant for a consistent table |
| StoreSpec.CreateCustomer | services/api.ts:471-486 | the new customer is stored in front of every other, so a lookup of its id finds it first; nothing else changes |
| StoreSpec.VerifyCustomer | services/api.ts:499-506 | an unknown id throws and changes nothing; otherwise exactly the first customer with the id becomes verified, keeping every other field, and is returned |
| StoreSpec.DeductThenCancelRestoresStock | services/api.ts:200-223 | taking an order's stock and then cancelling it from a stock-taken status restores every ingredient |
| StoreSpec.CancelBeforeKitchenKeepsStock | services/api.ts:200-223 | cancelling from NUEVO or PENDIENTE_PAGO succeeds and leaves the stock alone |
| StoreSpec.CreatedOrderIsFound | services/api.ts:127-141 | a lookup of the new id finds the new order itself |
| Api.Store.constructor | services/api.ts:6-14 | the store starts from the given collections |
| Api.Store.SetDeliveryState | services/api.ts:170-176 | the in-place write equals `StoreSpec.SetDeliveryState` |
| Api.Store.CreateOrder | services/api.ts:127-141 | the in-place call leaves the store and returns what `StoreSpec.CreateOrder` says |
| Api.Store.CreatePublicOrder | services/api.ts:143-158 | as `StoreSpec.CreatePublicOrder` |
| Api.Store.UpdateOrderStatus | services/api.ts:160-178 | as `StoreSpec.UpdateOrderStatus` |
| Api.Store.CancelOrder | services/api.ts:180-246 | as `StoreSpec.CancelOrder`, restoring stock through the two loops |
| Api.Store.DeductStockForOrder | services/api.ts:248-273 | as `StoreSpec.DeductStock`, through the two loops |
| Api.Store.AddPaymentToOrder | services/api.ts:294-321 | as `StoreSpec.AddPayment` |
| Api.Store.UpdateOrder | services/api.ts:324-334 | as `StoreSpec.UpdateOrder` |
| Api.Store.AssignRepartidorToOrder | services/api.ts:336-357 | as `StoreSpec.AssignRepartidor` |
| Api.Store.DeleteUser | services/api.ts:102-116 | as `StoreSpec.DeleteUser` |
| Api.Store.DeleteCategory | services/api.ts:392-400 | as `StoreSpec.DeleteCategory` |
| Api.Store.DeleteMenuItem | services/api.ts:432-448 | as `StoreSpec.DeleteMenuItem` |
| Api.Store.DeleteIngredient | services/api.ts:581-590 | as `StoreSpec.DeleteIngredient` |
| Api.Store.UpdateCategories | services/api.ts:376-390 | as `StoreSpec.UpdateCategories` |
| Api.Store.UpdateTable | services/api.ts:616-625 | as `StoreSpec.UpdateTable` |
| Api.Store.CreateCustomer | services/api.ts:471-486 | as `StoreSpec.CreateCustomer` |
| Api.Store.VerifyCustomer | services/api.ts:499-506 | as `StoreSpec.VerifyCustomer` |
| Resolver.Lookup | contexts/AppContext.tsx:215 | the ingredient map finds an ingredient exactly when one has the id, and the one it finds carries that id |
| Resolver.CanMakeUnlimitedIff | contexts/AppContext.tsx:219-239 | with every ingredient known, the derived stock is unlimited exactly when no line has a positive quantity |
| Resolver.CanMakeIsLowerBound | contexts/AppContext.tsx:219-239 | with every ingredient known, the derived stock is at most `floor(stock / cantidad)` of every line with a positive quantity |
| Resolver.CanMakeIsAttained | contexts/AppContext.tsx:219-239 | with every ingredient known, a limited derived stock equals `floor(stock / cantidad)` of some line, so it is the minimum |
| Resolver.MissingIngredientCapsStock | contexts/AppContext.tsx:233-235 | a line with a missing ingredient forces the derived stock to 0 or below, whatever follows it |
| Resolver.Available | contexts/AppContext.tsx:239-243 | effective availability only ever switches the stored flag off, and does so exactly when sale without stock is not allowed and the derived stock is known and at most 0 |
| Resolver.Displayed | contexts/AppContext.tsx:214-251 | the displayed copy differs from the stored item only in cost, stock and availability, which are the recipe cost, the portions the stock allows and the stored flag switched off for no stock; it is available only if the stored item is |
| Resolver.IngredientMap | contexts/AppContext.tsx:215 | the map built entry by entry answers every key as the last-wins lookup does |
| Resolver.ResolveItem | contexts/AppContext.tsx:214-251 | the loop with its running cost and portion count gives exactly the displayed copy |
| Resolver.AllItemsForDisplay | contexts/AppContext.tsx:210-252 | every stored item, in order, is replaced by its displayed copy; the stored list is a value and stays unchanged |
| Resolver.DisplayAll | contexts/AppContext.tsx:210-252 | the displayed menu as a value, item by item |
| Resolver.ProcessedMenuItems | contexts/AppContext.tsx:254-257 | exactly the displayed copies of the items not soft-deleted |
| Context.UpdateOrderStatusFlow | contexts/AppContext.tsx:259-282 | the call's result is the store's; stock is taken, exactly once and by the order's whole need, only on a move into EN_PREPARACION from another status; everything else, including the freed delivery person, is exactly what the store call left |
| Context.EnteringPreparationTwiceDeductsOnce | contexts/AppContext.tsx:267-271 | setting EN_PREPARACION a second time takes no more stock |
| Context.ReentryDeductsAgain | contexts/AppContext.tsx:267-271 | EN_PREPARACION, then LISTO, then EN_PREPARACION takes the recipe need twice |
| Context.PrepareThenCancelRestoresStock | contexts/AppContext.tsx:259-305 | sending an order to the kitchen and then cancelling it gives every ingredient back |
| Context.MozoFor | contexts/AppContext.tsx:313-314 | the order's own waiter is the creator exactly for a SALA order created by a MOZO |
| Context.Occupied | contexts/AppContext.tsx:322-327 | the bound table is OCUPADA with the order and the waiter, and consistent |
| Context.CreateOrderFlow | contexts/AppContext.tsx:307-342 | with no user it refuses without change; otherwise it gives the store's new order with the creator and waiter, in front, and everything but the tables is what the store's create left; the tables change only for a SALA order with a table, their count is kept, and the invariant is preserved |
| Context.CreateOrderBindsTable | contexts/AppContext.tsx:319-329 | a SALA order with a table binds the first table with that id to the new order, with the creator as waiter, and changes no other table |
| Context.PaidTableAsWritten | contexts/AppContext.tsx:522 | the table a payment looks up is the first one with the order's table id; there is none exactly when the order has no table id or no table carries it |
| Context.PaidTable | contexts/AppContext.tsx:519-532 | the corrected lookup gives a table exactly when the as-written lookup finds one that is still bound to the paid order, and then the same one |
| Context.SettleTable | contexts/AppContext.tsx:519-532 | only the chosen table can change, and the invariant is kept |
| Context.AddPaymentFlowAsWritten | contexts/AppContext.tsx:511-539 | as written: a refused payment changes nothing; otherwise everything but the tables is the store's payment, and a SALA order paid in full releases whatever table the as-written lookup finds, with every other table unchanged |
| Context.AddPaymentFlow | contexts/AppContext.tsx:511-539 | corrected: a refused payment changes nothing; otherwise everything but the tables is the store's payment, a SALA order paid in full releases the table still bound to it, every other table is unchanged, no table bound to another order changes, and the invariant is kept |
| Context.PaymentReleasesOwnTable | contexts/AppContext.tsx:519-532 | a payment completing a SALA order that still holds its table leaves that table released |
| Context.LatePaymentReleasesOtherOrdersTable | contexts/AppContext.tsx:519-532 | a late payment on an order whose table was reused releases the new order's table as written, and changes no table when corrected |
| Context.UpdateOrderFlow | contexts/AppContext.tsx:415-434 | a switch to DELIVERY naming an unknown or unverified customer is refused before any write, exactly then; every other patch is the store's update |
| Context.CleanTableFlow | contexts/AppContext.tsx:672-678 | the first table with the id becomes LIBRE with no order and no waiter; everything else is kept; an unknown id changes nothing |
| Context.PayThenCleanFreesTable | contexts/AppContext.tsx:519-532 | paying a table's order off and then cleaning the table leaves it LIBRE and unbound |
| Context.UpdateOrderStatus | contexts/AppContext.tsx:259-282 | the store calls in order give `UpdateOrderStatusFlow` |
| Context.CreateOrder | contexts/AppContext.tsx:307-342 | the store calls in order give `CreateOrderFlow` |
| Context.AddPaymentToOrder | contexts/AppContext.tsx:511-539 | the store calls in order give the corrected `AddPaymentFlow` |
| Context.UpdateOrder | contexts/AppContext.tsx:415-434 | the store calls in order give `UpdateOrderFlow` |
| Context.CleanTable | contexts/AppContext.tsx:672-678 | the store calls in order give `CleanTableFlow` |
| Cart.NewLine | pages/OrdersPage.tsx:165-173 | a fresh line has one portion at the base price, no notes, and a correct total |
| Cart.Bumped | pages/OrdersPage.tsx:161-163 | one more portion, with the total recomputed, so a correct line stays correct |
| Cart.WithQuantity | pages/OrdersPage.tsx:182-184 | a line set to q portions has total q × unit price, which is correct for q ≥ 1 |
| Cart.AddToCart | pages/OrdersPage.tsx:157-175 | merge into the first note-less line of the dish, or append one fresh line; the cart grows by at most one; line totals and distinct ids are kept |
| Cart.UpdateQuantity | pages/OrdersPage.tsx:177-186 | q ≤ 0 drops exactly the lines with that id and keeps every other; q > 0 rewrites only that line; line totals and distinct ids are kept |
| Cart.SubtotalAppend | pages/OrdersPage.tsx:193-195 | the subtotal of two carts joined is the sum of their subtotals |
| Cart.SubtotalReplace | pages/OrdersPage.tsx:193-195 | replacing one line moves the subtotal by the difference of the line totals |
| Cart.AddToCartRaisesSubtotal | pages/OrdersPage.tsx:157-175 | with distinct line ids, adding a dish raises the subtotal by exactly one unit price |
| Cart.UpdateQuantitySubtotal | pages/OrdersPage.tsx:177-186 | setting a line to q > 0 portions replaces its total by q × price in the subtotal |
| Cart.RemoveLineSubtotal | pages/OrdersPage.tsx:177-186 | removing a line drops exactly that line and lowers the subtotal by its total |
| OrdersPage.SaveOrder | pages/OrdersPage.tsx:209-241 | refused exactly for an empty cart, then a SALA order with no table, then a DELIVERY order with no customer; otherwise the cart's order for the demo restaurant, with no discount or tip |
| OrdersPage.RepartidorNextStatuses | pages/OrdersPage.tsx:1030-1041 | LISTO→{EN_CAMINO}, EN_CAMINO→{ENTREGADO, INCIDENCIA}, INCIDENCIA→{ENTREGADO, EN_CAMINO, DEVOLUCION}, nothing otherwise |
| OrdersPage.RepartidorStepsStayOnTheRoad | pages/OrdersPage.tsx:1030-1041 | every step moves to another delivery status; the steps with no way on are exactly those that free the delivery person in the store |
| OrdersPage.Repartidores | pages/OrdersPage.tsx:784 | only delivery staff from the user list |
| OrdersPage.RepartidoresComplete | pages/OrdersPage.tsx:784 | every user with the REPARTO role is in the list, so it holds exactly the delivery staff |
| OrdersPage.FirstRepartidor | pages/OrdersPage.tsx:823-828 | the first entry with the id in the delivery list is the first user who is a delivery person with that id |
| OrdersPage.DropAssigns | pages/OrdersPage.tsx:823-834 | a drop assigns exactly when the order id parsed to a non-zero number and the first delivery person with the target id is DISPONIBLE |
| OrdersPage.BusyRepartidorRefusesDrop | pages/OrdersPage.tsx:823-834 | a delivery person already EN_REPARTO is never handed a dropped order |
| OrdersPage.WaitingOrders | pages/OrdersPage.tsx:807 | exactly the DELIVERY orders with no delivery person, LISTO and paid in full |
| OrdersPage.ActiveDeliveries | pages/OrdersPage.tsx:808 | exactly the DELIVERY orders with a delivery person and not ENTREGADO, CANCELADO or DEVOLUCION |
| OrdersPage.WaitingAndActiveDisjoint | pages/OrdersPage.tsx:807-808 | no order is in both lists |
| FloorPlan.Clamp | pages/FloorPlanPage.tsx:42-43 | `max(0, min(v, limit))` lies in [0, limit] and keeps a value already inside |
| FloorPlan.DragPosition | pages/FloorPlanPage.tsx:34-46 | a dragged table stays inside the floor when it fits, and keeps a position already inside |
| FloorPlan.Drag | pages/FloorPlanPage.tsx:272-276 | only the tables with the id move |
| FloorPlan.NextShape | pages/FloorPlanPage.tsx:283-288 | the shape always changes |
| FloorPlan.ShapeChange | pages/FloorPlanPage.tsx:278-294 | only the tables with the id take the next shape |
| FloorPlan.ShapeCycleThrice | pages/FloorPlanPage.tsx:278-294 | three shape changes give back the plan |
| FloorPlan.AddTable | pages/FloorPlanPage.tsx:296-312 | with a restaurant, one free square table "Mesa n" at (10, 10) is appended with an id above all others and at least 1; consistency is kept |
| FloorPlan.Actions | pages/FloorPlanPage.tsx:204-226 | LIBRE offers opening an order; OCUPADA offers viewing it, plus taking it for a MOZO when there is no waiter; NECESITA_LIMPIEZA offers cleaning |
| FloorPlan.ActionsFollowState | pages/FloorPlanPage.tsx:204-226 | tables in different states share no action, and every state offers one |
| FloorPlan.MozoChoice | pages/FloorPlanPage.tsx:158 | the empty option is "no waiter" |
| FloorPlan.AssignMozoFlow | pages/FloorPlanPage.tsx:157-168 | only tables and orders can change, their counts are kept, only the first table matching the edited one and the first order with its order id can change, and the invariant is kept |
| FloorPlan.MozoLockstep | pages/FloorPlanPage.tsx:157-168 | after a waiter change the table and its order name the same waiter |
| FloorPlan.AssignSelfFlow | pages/FloorPlanPage.tsx:147-155 | without a user nothing changes; with one, the result is the waiter selector's `AssignMozoFlow` choosing that user |
| FloorPlan.AssignSelfIsAssignMozo | pages/FloorPlanPage.tsx:147-168 | the two unconditional writes of taking a table oneself have the same effect as choosing oneself in the waiter selector, whose skipped order write would change nothing |
| FloorPlan.AssignMozo | pages/FloorPlanPage.tsx:157-168 | the store calls in order give `AssignMozoFlow` |
| FloorPlan.AssignSelf | pages/FloorPlanPage.tsx:147-155 | the store calls in order give `AssignSelfFlow` |
| Kds.Column | pages/KdsPage.tsx:155-157 | exactly the orders in the column's status, as a permutation of the filter, sorted by ascending id |
| Kds.ColumnsPartition | pages/KdsPage.tsx:149-157 | an order shows in at most one column, and in one exactly when it is NUEVO, EN_PREPARACION or LISTO |
| Kds.DropTarget | pages/KdsPage.tsx:133-143 | a drop sends the column's status exactly when the id parsed, an order has it, and the first such order is in another status |
| Kds.DropFlow | pages/KdsPage.tsx:133-143 | a drop that sends nothing changes nothing; one that sends a status is the context's status update for that order and leaves it in the dropped column; the invariant is kept |
| Kds.DropTwiceIsDropOnce | pages/KdsPage.tsx:133-143 | dropping a card into EN_PREPARACION twice has the effect of one drop |
| Kds.ClickFlow | pages/KdsPage.tsx:27-35 | a click on a card that is not LISTO changes nothing; otherwise it is the context's status update to the next status, which the stored order then has |
| Kds.ClickKeepsStock | pages/KdsPage.tsx:27-35 | a card click never moves stock |
| Kds.MenuLookup | pages/KdsPage.tsx:123 | the menu map finds an item exactly when one has the id |
| Kds.AllMinutes | pages/KdsPage.tsx:160 | each line's preparation minutes, 0 for an unknown dish |
| Kds.PrepTime | pages/KdsPage.tsx:160 | at least 0, at least every line's minutes, and equal to one of them unless 0 |
| Kds.PrepTimeAppend | pages/KdsPage.tsx:160 | more lines give the larger of the two preparation times |
| Kds.Drop | pages/KdsPage.tsx:133-143 | the store calls in order give `DropFlow` |
| Kds.Click | pages/KdsPage.tsx:27-35 | the store calls in order give `ClickFlow` |
| Names.NameError | pages/MenuPage.tsx:171-187 | a name that is all spaces is refused as blank; a name matching another after trimming and lower-casing is refused as a duplicate; every other name passes |
| Names.NameErrorSeesOnlyTheKey | pages/InventoryPage.tsx:34-47 | two names with the same trimmed, lower-cased form get the same verdict |
| Names.AcceptedNameIsTaken | pages/MenuPage.tsx:345-357 | once a name is accepted and stored trimmed, any spelling of it is refused as a duplicate |
| MenuPage.DrinksCategoryId | pages/MenuPage.tsx:40-42 | the first category called "bebidas" in any case, and none exactly when there is none |
| MenuPage.CleanRecipe | pages/MenuPage.tsx:66-72 | exactly the lines whose ingredient exists and has the category the dish requires |
| MenuPage.RecipeEffectCleans | pages/MenuPage.tsx:62-77 | the effect leaves the cleaned recipe, running it again changes nothing, and every line left names a known ingredient |
| MenuPage.CleanRecipeKeepsOrder | pages/MenuPage.tsx:66-72 | cleaning keeps the relative order of the lines |
| MenuPage.RemoveAt | pages/MenuPage.tsx:123-128 | the line at the index goes and the others keep their order; an index out of range changes nothing |
| MenuPage.RemoveAtMultiset | pages/MenuPage.tsx:123-128 | exactly that one line leaves the multiset of lines |
| MenuPage.CostOfAppend | contexts/AppContext.tsx:222-226 | the cost of two recipes joined is the sum of their costs |
| MenuPage.CostFoldIsCostOf | pages/MenuPage.tsx:130-136 | the front-to-back `reduce` equals the resolver's cost |
| MenuPage.CalculatedCost | pages/MenuPage.tsx:130-136 | the form's cost preview equals the cost the resolver gives the stored dish |
| MenuPage.RemoveLineCost | pages/MenuPage.tsx:123-136 | removing a line lowers the preview by that line's cost, which is 0 for an unknown ingredient |
| MenuPage.OtherItemNames | pages/MenuPage.tsx:180-182 | exactly the names of the dishes other than the one being edited |
| MenuPage.SubmitError | pages/MenuPage.tsx:171-187 | a blank name is refused, and so is a name another dish has up to case and outer spaces; the dish being edited is excluded |
| MenuPage.TakenAmongOthers | pages/MenuPage.tsx:180-182 | the shared name check on the other dishes' names is the source's `some` over the dishes |
| MenuPage.ResaveOwnName | pages/MenuPage.tsx:171-187 | a dish saved again under its own unique name passes |
| MenuPage.Swap | pages/MenuPage.tsx:340 | two entries are exchanged, everything else stays, and the result is a permutation |
| MenuPage.Moved | pages/MenuPage.tsx:335-343 | a permutation: unchanged when the neighbour is out of range, otherwise the entry and its neighbour swapped |
| MenuPage.MoveUpThenDown | pages/MenuPage.tsx:335-343 | moving an entry up and back down restores the list |
| MenuPage.HandleMove | pages/MenuPage.tsx:335-343 | the copied array with two slots swapped in place gives `Moved` |
| MenuPage.CategoryNames | pages/MenuPage.tsx:349 | the category names, in order |
| MenuPage.AddCategory | pages/MenuPage.tsx:345-357 | a blank name does nothing; a name an existing category has up to case and outer spaces is refused; otherwise the trimmed name is created |
| InventoryPage.OtherIngredientNames | pages/InventoryPage.tsx:40-42 | exactly the names of the ingredients other than the one being edited |
| InventoryPage.TakenAmongOthers | pages/InventoryPage.tsx:40-42 | the shared name check on the other names is the source's `some` |
| InventoryPage.SubmitError | pages/InventoryPage.tsx:31-47 | a blank name is refused, and so is a name another ingredient has up to case and outer spaces |
| InventoryPage.NumericField | pages/InventoryPage.tsx:23-29 | a field with no digit reads as 0 (the `\|\| 0` fallback) |
| InventoryPage.NumericFieldRoundTrip | pages/InventoryPage.tsx:23-29 | a printed whole number reads back as itself |
| InventoryPage.DeductionKeepsLowStock | pages/InventoryPage.tsx:269 | taking an order's stock never clears the low-stock flag, and flags an ingredient driven to its minimum |
| InventoryPage.Search | pages/InventoryPage.tsx:195 | exactly the ingredients whose lower-cased name contains the lower-cased query |
| InventoryPage.EmptySearchKeepsAll | pages/InventoryPage.tsx:195 | an empty query lists every ingredient in order |
| InventoryPage.LongerQueryNarrows | pages/InventoryPage.tsx:195 | a longer query finds no ingredient the shorter one missed |
| CustomersPage.EditForm | pages/CustomersPage.tsx:38-53 | phone and postal code become the typed digits in order (`Text.DigitsOnlyAppend`) and keep every digit's count, and the other fields take the text as typed; only the edited field changes |
| Text.DigitsOnlyAppend | pages/CustomersPage.tsx:42 | stripping non-digits keeps the order: the digits of a joined string are the digits of each part, joined |
| Text.DigitsOnlyChar | pages/CustomersPage.tsx:42 | a single character is kept exactly when it is a digit |
| CustomersPage.RetypingPhoneIsStable | pages/CustomersPage.tsx:41-42 | retyping the same digits in any formatting leaves the form unchanged |
| CustomersPage.EmailKeyIsNormalize | pages/CustomersPage.tsx:299 | lower-casing then trimming the e-mail gives the same key as the name checks use |
| CustomersPage.SaveError | pages/CustomersPage.tsx:297-318 | refused exactly for a missing e-mail, phone or name; then an e-mail another customer has; then a phone another customer has |
| CustomersPage.Created | services/api.ts:471-486 | the new customer keeps the form's e-mail and phone and is unverified and not deleted |
| CustomersPage.CreateKeepsContactsDistinct | pages/CustomersPage.tsx:297-318 | a new customer that passes the save check keeps every e-mail key and phone distinct |
| CustomersPage.FilterCustomers | pages/CustomersPage.tsx:257-267 | exactly the customers whose name or e-mail contains the query, or whose phone digits contain its non-empty digits |
| CustomersPage.EmptySearchKeepsAll | pages/CustomersPage.tsx:257-267 | an empty query lists every customer |
| CustomersPage.PhoneSearchFinds | pages/CustomersPage.tsx:257-267 | searching a customer's phone, formatted any way, finds them |
| CustomerPortal.ValidEmailHasOneAt | pages/CustomerPortalPage.tsx:248 | an address the e-mail pattern accepts has exactly one `@` |
| CustomerPortal.FallbackEmailIsValid | pages/CustomerPortalPage.tsx:283 | the `<phone>@system.com` address of a plain phone passes the pattern |
| CustomerPortal.PlaceError | pages/CustomerPortalPage.tsx:236-251 | refused, in order: a blank name or phone; a DELIVERY without a street; a phone without 7 to 15 digits; an e-mail given but malformed; each error is returned exactly when its check is the first to fail, no other error is possible, and an accepted form meets every check |
| CustomerPortal.NewCustomer | pages/CustomerPortalPage.tsx:280-285 | a first-time profile is unverified, falling back to `<phone>@system.com` for an empty e-mail |
| CustomerPortal.PlaceDecision | pages/CustomerPortalPage.tsx:264-294 | an invalid form stops; a known customer is placed at once exactly when verified, taking the typed address for DELIVERY; a new customer is asked for the code; a failed creation stops |
| CustomerPortal.OnlyVerifiedOrderAtOnce | pages/CustomerPortalPage.tsx:264-294 | an order is placed at once only for a verified customer, and never for a first-time one |
| CustomerPortal.VerifyCode | pages/CustomerPortalPage.tsx:302-310 | exactly the code "1234" succeeds and gives the customer verified |
| CustomerPortal.PortalDraft | pages/CustomerPortalPage.tsx:187-198 | the order carries the customer, the chosen type, no table, no discount or tip, the cart and its subtotal, and the demo restaurant by default |
| CustomerPortal.AddressWrite | pages/CustomerPortalPage.tsx:264-269 | for a DELIVERY the first stored customer with the found id takes the typed address, every other customer is unchanged; for other types, or an id not stored, nothing changes |
| CustomerPortal.PlaceFlow | pages/CustomerPortalPage.tsx:264-294 | what the place step writes: nothing when it stops; for a known customer the address write (and nothing more when the code is asked for); a first-time customer's profile in front of the customers and nothing else; a verified customer's one new order, with the cart, in front, plus the address write and nothing else; the invariant is kept |
| CustomerPortal.PlaceOrder | pages/CustomerPortalPage.tsx:264-294 | the store calls in order give `PlaceFlow`, and the step is `PlaceDecision`'s |
| CustomerPortal.FirstTimeCustomerVerified | pages/CustomerPortalPage.tsx:278-310 | a first-time customer who then types the right code is stored once, in front and verified, and the order is placed in their name |
| CustomerPortal.FoundDeliveryAsksCode | pages/CustomerPortalPage.tsx:264-277 | a known unverified customer of a DELIVERY is asked for the code carrying the typed address, and the place step writes only that address |
| CustomerPortal.AddressWriteKeepsFirst | pages/CustomerPortalPage.tsx:264-269 | the address write keeps the customer where the lookup by id finds it |
| CustomerPortal.VerifyFlowCustomers | pages/CustomerPortalPage.tsx:302-310 | the right code marks exactly the first stored customer with the pending id verified |
| CustomerPortal.FoundCustomerKeepsTypedAddress | pages/CustomerPortalPage.tsx:264-310 | a known unverified DELIVERY customer who types the right code is stored verified with the typed address, and no other customer changes |
| CustomerPortal.VerifyFlow | pages/CustomerPortalPage.tsx:302-310 | a wrong code changes nothing; the right one is the store's verify of the pending customer plus one new order for them with the cart, in front, and nothing else; the invariant is kept |
| CustomerPortal.VerifiedAfterCode | pages/CustomerPortalPage.tsx:302-310 | after the right code the stored customer is verified |
| CustomerPortal.VerifyAndPlace | pages/CustomerPortalPage.tsx:302-310 | the store calls in order give `VerifyFlow` |

## Left out

- I/O and timing are not modelled: `localStorage`, simulated delays, async sequencing, polling, sound, toasts and React state setters. Each operation is one atomic step on one store value that the screens read.
- Floating-point money is not modelled: IVA and tax, the split bill, percentage tips and `parseFloat` fractions. Money is whole cents. The tax and total of an order are parameters.
- Geolocation, random fallback coordinates, the QR payment link, AI calls and WhatsApp and map links are left out. These are external or random.
- The getters' tenant and `is_deleted` filters, and the date filter and pagination of the lists, are left out. As written, the context calls the getters with no restaurant id (contexts/AppContext.tsx:88-96). Each getter compares `restaurant_id` with that missing argument (services/api.ts:59-62, 119-124, 360-363, 403-406, 461-464, 553-556, 611-614), so the lists hold only records without a restaurant id. `getUsers` and `getCustomers` also drop soft-deleted records. The model instead lets the screens read the whole store.
- The portal's contact lookup is a parameter (`found` of `CustomerPortal.PlaceDecision`). The context passes the contact where the backend expects the restaurant id, so what it returns depends on that mismatch.
- StoreSpec.CreateCustomer: takes the finished customer, so the time-stamped id and the empty statistics fields are made by the caller (`CustomerPortal.NewCustomer` with an id parameter).
- CustomerPortal.PlaceFlow: the contact lookup returns the stored customer object itself, so the portal's address write lands in the store through that shared object. The model writes the address to the first stored customer with the found id, which is that object when ids are unique. It does not model object identity or the later save to `localStorage`.
- CustomerPortal.NewCustomer: the restaurant is left empty, and the id stands for the time-stamped id, because the portal sends no restaurant and the clock is not modelled.
- Cart.NewLine: the time-stamped line id is a parameter, because the clock is not modelled.
- The context's `cancelOrder` and `assignRepartidor` only pass through to the backend and reload lists. They are modelled by `Api.Store.CancelOrder` and `Api.Store.AssignRepartidorToOrder`.
- The menu editor's save of the category list calls `updateCategories`, which `StoreSpec.UpdateCategories` models. `createCategory` is modelled only by the name check in `MenuPage.AddCategory`.
- Text.IsSpace, Text.LowerChar and Text.ParseLeadingInt cover only part of the JavaScript built-ins. `trim` also strips U+1680, U+2000 to U+200A, U+2028, U+2029, U+202F, U+205F, U+3000 and U+FEFF, and this model keeps them. `toLowerCase` folds only ASCII and Latin-1 capitals here. `parseInt` and `parseFloat` read only an optional sign and decimal digits, with no exponent, fraction or `Infinity`. Every name check, search and numeric field inherits these limits.
- The order form's `selectedTable` is `None` for the empty selection and otherwise the parsed table number. The parse itself is not modelled.
- Staff rendering, modals, routes, role gates and drag events are left out. Settings, coupons, reports, the dashboard and the super-admin page are also left out.

Where the code and the design description differ, the model follows the code:

- Creating a SALA order does not check that the table is LIBRE.
- `updateOrderStatus` makes no transition check.
- `assignRepartidorToOrder` does not check availability.
- Stock is guarded only against a repeat of EN_PREPARACION. `Context.ReentryDeductsAgain` shows the double deduction after a trip back from LISTO.
- The DELIVERY gate of `updateOrder` applies only when the patch itself names a customer.

## Findings

| source | as written | input that shows it | evidently intended | confidence | as-written member | corrected member |
|---|---|---|---|---|---|---|
| contexts/AppContext.tsx:519-532 | a payment that completes a SALA order releases the first table with the order's table id, whatever order that table now holds | order 1 was paid in full on table 5, and table 5 now holds order 2; one more payment on order 1 (a late tip) sets table 5 to NECESITA_LIMPIEZA and drops order 2 | release the table only while it is still bound to the order being paid, as `cancelOrder` checks | not executed | Context.AddPaymentFlowAsWritten | Context.AddPaymentFlow |
