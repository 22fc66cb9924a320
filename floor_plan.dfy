/**
 * The floor plan: the layout editor (drag clamping, the shape cycle, adding
 * a table), the actions a table offers in each state, and the waiter
 * assignment that keeps a table and its order naming the same waiter.
 */
module FloorPlan {
  import opened Types
  import opened Seqs
  import Text
  import S = StoreSpec
  import Api

  // ----- layout editing -------------------------------------------------------

  /** A table's width on the plan: wide tables are 128 px, the others 64. */
  function Width(shape: Shape): int
  {
    if shape == RectangleH then 128 else 64
  }

  /** A table's height on the plan: tall tables are 128 px, the others 64. */
  function Height(shape: Shape): int
  {
    if shape == RectangleV then 128 else 64
  }

  /** `Math.max(0, Math.min(v, limit))`. */
  function Clamp(v: int, limit: int): (r: int)
    ensures r >= 0
    ensures limit >= 0 ==> r <= limit
    ensures 0 <= v <= limit ==> r == v
    ensures limit < 0 ==> r == 0
  {
    if v < limit then (if v < 0 then 0 else v) else (if limit < 0 then 0 else limit)
  }

  /** The position a drag settles on: the raw position kept inside a floor of `floorW × floorH`. */
  function DragPosition(t: Table, rawX: int, rawY: int, floorW: int, floorH: int): (p: (int, int))
    ensures 0 <= p.0 && 0 <= p.1
    ensures floorW >= Width(t.shape) ==> p.0 + Width(t.shape) <= floorW
    ensures floorH >= Height(t.shape) ==> p.1 + Height(t.shape) <= floorH
    ensures 0 <= rawX <= floorW - Width(t.shape) && 0 <= rawY <= floorH - Height(t.shape) ==> p == (rawX, rawY)
  {
    (Clamp(rawX, floorW - Width(t.shape)), Clamp(rawY, floorH - Height(t.shape)))
  }

  /** `handleDrag`: every table with the id moves to the new position. */
  function Drag(tables: seq<Table>, id: int, x: int, y: int): (r: seq<Table>)
    ensures |r| == |tables|
    ensures forall i :: 0 <= i < |tables| ==> r[i] == if tables[i].id == id then tables[i].(x := x, y := y) else tables[i]
  {
    seq(|tables|, i requires 0 <= i < |tables| => if tables[i].id == id then tables[i].(x := x, y := y) else tables[i])
  }

  /** The shape cycle: square, then wide, then tall, then square again. */
  function NextShape(s: Shape): (r: Shape)
    ensures r != s
  {
    match s
    case Square => RectangleH
    case RectangleH => RectangleV
    case RectangleV => Square
  }

  /** `handleShapeChange`: every table with the id takes the next shape; the rest are untouched. */
  function ShapeChange(tables: seq<Table>, id: int): (r: seq<Table>)
    ensures |r| == |tables|
    ensures forall i :: 0 <= i < |tables| && tables[i].id != id ==> r[i] == tables[i]
    ensures forall i :: 0 <= i < |tables| && tables[i].id == id ==> r[i] == tables[i].(shape := NextShape(tables[i].shape))
  {
    seq(|tables|, i requires 0 <= i < |tables| =>
      if tables[i].id == id then tables[i].(shape := NextShape(tables[i].shape)) else tables[i])
  }

  /** Three clicks on the shape button bring the whole plan back to where it was. */
  lemma ShapeCycleThrice(tables: seq<Table>, id: int)
    ensures ShapeChange(ShapeChange(ShapeChange(tables, id), id), id) == tables
  {
    var a := ShapeChange(tables, id);
    var b := ShapeChange(a, id);
    var c := ShapeChange(b, id);
    forall i | 0 <= i < |tables| ensures c[i] == tables[i] {
      assert a[i].id == tables[i].id && b[i].id == tables[i].id;
    }
  }

  function TableIds(tables: seq<Table>): (ids: seq<int>)
    ensures |ids| == |tables| && forall i :: 0 <= i < |tables| ==> ids[i] == tables[i].id
  {
    seq(|tables|, i requires 0 <= i < |tables| => tables[i].id)
  }

  /**
   * `handleAddTable`: with a current restaurant, appends a free square table
   * at (10, 10) whose id is one past the largest id (at least 1), named after it.
   */
  function AddTable(tables: seq<Table>, restaurant: Option<string>): (r: seq<Table>)
    ensures !Present(restaurant) ==> r == tables
    ensures Present(restaurant) ==> |r| == |tables| + 1 && r[..|tables|] == tables
    ensures Present(restaurant) ==>
      var t := r[|tables|];
      && t.id >= 1 && (forall i :: 0 <= i < |tables| ==> tables[i].id < t.id)
      && t.estado == Libre && t.orderId == None && t.mozoId == None
      && t.restaurant == restaurant.value && t.shape == Square && t.x == 10 && t.y == 10
      && t.nombre == "Mesa " + Text.NatToString(t.id)
    ensures S.TablesConsistent(tables) ==> S.TablesConsistent(r)
  {
    if !Present(restaurant) then tables
    else
      var newId := MaxOrZero(TableIds(tables)) + 1;
      tables + [Table(newId, restaurant.value, "Mesa " + Text.NatToString(newId), Libre, None, None, 10, 10, Square)]
  }

  // ----- what a table offers ------------------------------------------------------

  datatype TableAction = OpenOrder | ViewOrder | TakeTable | CleanTable

  /** Only a MOZO may take a table that has no waiter yet. */
  predicate CanSelfAssign(user: Option<User>, t: Table)
  {
    user.Some? && user.value.rol == Mozo && !Present(t.mozoId)
  }

  /** The buttons of the table dialog, by table state. */
  function Actions(user: Option<User>, t: Table): (r: set<TableAction>)
    ensures OpenOrder in r <==> t.estado == Libre
    ensures ViewOrder in r <==> t.estado == Ocupada
    ensures TakeTable in r <==> t.estado == Ocupada && CanSelfAssign(user, t)
    ensures CleanTable in r <==> t.estado == NecesitaLimpieza
  {
    match t.estado
    case Libre => {OpenOrder}
    case Ocupada => if CanSelfAssign(user, t) then {ViewOrder, TakeTable} else {ViewOrder}
    case NecesitaLimpieza => {CleanTable}
  }

  /** Each state offers a distinct set of actions, and only a taken table can be viewed or joined. */
  lemma ActionsFollowState(user: Option<User>, t: Table, u: Table)
    requires t.estado != u.estado
    ensures Actions(user, t) * Actions(user, u) == {}
    ensures Actions(user, t) != {}
  {
    assert OpenOrder in Actions(user, t) || ViewOrder in Actions(user, t) || CleanTable in Actions(user, t);
  }

  // ----- waiter assignment ----------------------------------------------------------

  /** `e.target.value || null`: the empty option means "no waiter". */
  function MozoChoice(value: string): (r: Option<string>)
    ensures r.None? <==> value == ""
    ensures r.Some? ==> r.value == value
  {
    if value == "" then None else Some(value)
  }

  /**
   * `handleAssignMozo`: the table (as the dialog holds it) is written with the
   * new waiter, then the bound order gets the same waiter if it had another.
   * Failed writes are only reported.
   */
  function AssignMozoFlow(db: S.Db, table: Table, mozoId: Option<string>): (r: S.Db)
    ensures r.ingredients == db.ingredients && r.users == db.users && r.menuItems == db.menuItems
    ensures |r.tables| == |db.tables| && |r.orders| == |db.orders|
    ensures r == db.(tables := r.tables, orders := r.orders)
    ensures forall i :: 0 <= i < |db.tables| && FirstIndex(db.tables, S.SameTable(table)) != Some(i) ==>
      r.tables[i] == db.tables[i]
    ensures forall i :: 0 <= i < |db.orders| && (!PresentId(table.orderId) || FirstIndex(db.orders, OrderIdIs(table.orderId.value)) != Some(i)) ==>
      r.orders[i] == db.orders[i]
    ensures S.Wf(db) && S.TableConsistent(table) ==> S.Wf(r)
  {
    var d1 := S.UpdateTable(db, table.(mozoId := mozoId)).db;
    if PresentId(table.orderId) then
      match FirstIndex(db.orders, OrderIdIs(table.orderId.value))
      case None => d1
      case Some(k) =>
        if db.orders[k].mozoId != mozoId then S.UpdateOrder(d1, table.orderId.value, S.MozoPatch(mozoId)).db else d1
    else d1
  }

  /** After a waiter change the table and its order name the same waiter. */
  lemma MozoLockstep(db: S.Db, table: Table, mozoId: Option<string>, t: nat, k: nat)
    requires FirstIndex(db.tables, S.SameTable(table)) == Some(t)
    requires PresentId(table.orderId) && FirstIndex(db.orders, OrderIdIs(table.orderId.value)) == Some(k)
    ensures AssignMozoFlow(db, table, mozoId).tables[t].mozoId == mozoId
    ensures AssignMozoFlow(db, table, mozoId).orders[k].mozoId == mozoId
  {
    var x := table.(mozoId := mozoId);
    FirstIndexIs(db.tables, S.SameTable(x), t);
  }

  /**
   * `handleAssignSelf`: the table and then its order, unconditionally, get the
   * signed-in user as waiter; with nobody signed in nothing happens.
   */
  function AssignSelfFlow(db: S.Db, user: Option<User>, table: Table): (r: S.Db)
    ensures user.None? ==> r == db
    ensures user.Some? ==> r == AssignMozoFlow(db, table, Some(user.value.id))
  {
    if user.None? then db
    else
      AssignSelfIsAssignMozo(db, user.value, table);
      SelfWrites(db, user.value.id, table)
  }

  /** The two unconditional writes of `handleAssignSelf` for the user `id`. */
  function SelfWrites(db: S.Db, id: string, table: Table): S.Db
  {
    var d1 := S.UpdateTable(db, table.(mozoId := Some(id))).db;
    if PresentId(table.orderId) then S.UpdateOrder(d1, table.orderId.value, S.MozoPatch(Some(id))).db
    else d1
  }

  /**
   * Taking a table oneself is choosing oneself in the waiter selector: the
   * order write the selector skips when the waiter is already right changes nothing.
   */
  lemma AssignSelfIsAssignMozo(db: S.Db, u: User, table: Table)
    ensures SelfWrites(db, u.id, table) == AssignMozoFlow(db, table, Some(u.id))
  {
    var d1 := S.UpdateTable(db, table.(mozoId := Some(u.id))).db;
    if PresentId(table.orderId) {
      var id := table.orderId.value;
      match FirstIndex(db.orders, OrderIdIs(id))
      case None =>
        assert FirstIndex(d1.orders, OrderIdIs(id)).None?;
      case Some(k) =>
        if db.orders[k].mozoId == Some(u.id) {
          var o := S.ApplyPatch(d1.orders[k], S.MozoPatch(Some(u.id)));
          assert o == d1.orders[k];
          assert d1.orders[k := o] == d1.orders;
        }
    }
  }

  method AssignMozo(s: Api.Store, table: Table, value: string)
    modifies s
    ensures s.Snapshot() == AssignMozoFlow(old(s.Snapshot()), table, MozoChoice(value))
  {
    var mozoId := if value == "" then None else Some(value);
    var orders := s.orders;
    var _ := s.UpdateTable(table.(mozoId := mozoId));
    if PresentId(table.orderId) {
      var k := FirstIndex(orders, OrderIdIs(table.orderId.value));
      if k.Some? && orders[k.value].mozoId != mozoId {
        var _ := s.UpdateOrder(table.orderId.value, S.MozoPatch(mozoId));
      }
    }
  }

  method AssignSelf(s: Api.Store, user: Option<User>, table: Table)
    modifies s
    ensures s.Snapshot() == AssignSelfFlow(old(s.Snapshot()), user, table)
  {
    if user.Some? {
      var _ := s.UpdateTable(table.(mozoId := Some(user.value.id)));
      if PresentId(table.orderId) {
        var _ := s.UpdateOrder(table.orderId.value, S.MozoPatch(Some(user.value.id)));
      }
    }
  }
}
