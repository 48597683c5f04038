/** The product view table and the projection handler that writes it
    (sample/query/repository/repository.go, sample/query/projection/projection.go).

    The handler is `ProjectProduct` on the row of the event's product, as long as
    the table can be written.  When it cannot, the handler says nil all the same:
    its callers cannot tell whether the view moved. */
module Views {
  import opened Events
  import opened World
  import opened Product

  /** A row of product_views. */
  datatype ViewRecord = ViewRecord(id: AggId, name: string, price: real, version: int, createdAt: int, updatedAt: int)

  function RowOf(rows: map<AggId, ViewRecord>, a: AggId): Option<Row<ProductView>> {
    if a !in rows then None
    else
      var r := rows[a];
      Some(Row(r.version, ProductView(r.name, r.price, r.createdAt, r.updatedAt)))
  }

  class ProductViewRepository {
    var rows: map<AggId, ViewRecord>
    /** Whether every statement goes through. */
    const healthy: bool

    constructor (healthy: bool)
      ensures this.healthy == healthy && rows == map[]
    {
      this.healthy := healthy;
      rows := map[];
    }

    ghost predicate Keyed()
      reads this
    {
      forall a :: a in rows ==> rows[a].id == a
    }

    method Fails() returns (b: bool)
      ensures healthy ==> !b
    {
      b := *;
      if healthy {
        b := false;
      }
    }

    method GetVersion(a: AggId) returns (r: Result<int>)
      ensures r.Ok? ==> r.value == VersionOf(RowOf(rows, a))
      ensures healthy ==> r.Ok?
      ensures r.Err? ==> r.error.Storage?
    {
      var failed := Fails();
      if failed {
        return Err(Storage);
      }
      if a !in rows {
        return Ok(0);
      }
      return Ok(rows[a].version);
    }

    /** INSERT ... ON CONFLICT (id) DO UPDATE: a row already there keeps the time
        of its creation. */
    method SaveProductView(view: ViewRecord) returns (err: Error)
      requires Keyed()
      modifies this`rows
      ensures Keyed() && (healthy ==> err.Nil?)
      ensures err.Nil? ==>
        var createdAt := if view.id in old(rows) then old(rows)[view.id].createdAt else view.createdAt;
        rows == old(rows)[view.id := view.(createdAt := createdAt)]
      ensures !err.Nil? ==> rows == old(rows)
    {
      var failed := Fails();
      if failed {
        return Storage;
      }
      var created := if view.id in rows then rows[view.id].createdAt else view.createdAt;
      rows := rows[view.id := view.(createdAt := created)];
      return Nil;
    }

    /** UPDATE ... WHERE id: no row, no effect, no error. */
    method UpdateProductView(view: ViewRecord) returns (err: Error)
      requires Keyed()
      modifies this`rows
      ensures Keyed() && (healthy ==> err.Nil?)
      ensures rows.Keys == old(rows).Keys
      ensures forall a :: a in rows && (a != view.id || !err.Nil?) ==> rows[a] == old(rows)[a]
      ensures err.Nil? && view.id in rows ==> rows[view.id] == view.(createdAt := old(rows)[view.id].createdAt)
    {
      var failed := Fails();
      if failed {
        return Storage;
      }
      if view.id in rows {
        rows := rows[view.id := view.(createdAt := rows[view.id].createdAt)];
      }
      return Nil;
    }
  }

  class ProductProjectionHandler {
    const repo: ProductViewRepository

    constructor (repo: ProductViewRepository)
      ensures this.repo == repo
    {
      this.repo := repo;
    }

    /** Whatever happens the handler returns nil.  The view either moves as
        `ProjectProduct` says or, if a write failed, not at all. */
    method Handle(evt: Event) returns (err: Error)
      requires repo.Keyed()
      modifies repo`rows
      ensures repo.Keyed() && err.Nil?
      ensures forall a :: a != evt.aggId ==> RowOf(repo.rows, a) == RowOf(old(repo.rows), a)
      ensures || RowOf(repo.rows, evt.aggId) == ProjectProduct(RowOf(old(repo.rows), evt.aggId), evt)
        || (!repo.healthy && repo.rows == old(repo.rows))
    {
      match evt.body
      case ProductCreated(name, price) =>
        var ignored := repo.SaveProductView(ViewRecord(evt.aggId, name, price, evt.version, evt.ts, evt.ts));
        return Nil;
      case ProductUpdated(name, price) =>
        var ignored := repo.UpdateProductView(ViewRecord(evt.aggId, name, price, evt.version, 0, evt.ts));
        return Nil;
      case Unregistered(_) =>
        return Nil;
    }
  }
}
