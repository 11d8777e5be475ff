/**
 * The legacy AbstractDAO: the DAO generation behind AbstractJSFCRUDMB and
 * AbstractController. It caches the list of all entities in `all`.
 */
module ModelDao {
  import opened Wrappers
  import opened JavaNumbers
  import opened Entity
  import opened DaoCommon

  /**
   * A caching DAO over the in-memory datasource `rows`: getAllNow reads it,
   * getAll keeps what it read in `all` (None for null), getOne and
   * getAllByUniqueParams look rows up; `writes` records every write asked for.
   */
  class CachingDao {
    var rows: seq<Entity>
    var writes: seq<Write>
    var all: Option<seq<Entity>>
    /** getUniqueParams, the hook a concrete DAO supplies. */
    const uniqueParams: Entity -> Option<Params>

    constructor (rows: seq<Entity>, uniqueParams: Entity -> Option<Params>)
      ensures this.rows == rows && writes == [] && all == None
      ensures this.uniqueParams == uniqueParams
    {
      this.rows := rows;
      writes := [];
      all := None;
      this.uniqueParams := uniqueParams;
    }

    /** getAllNow: what the datasource holds at this moment. */
    function GetAllNow(): seq<Entity>
      reads this
    {
      rows
    }

    function GetOne(id: Id): (r: Option<Entity>)
      reads this
      ensures r.Some? ==> r.value in rows && r.value.id == Some(id)
      ensures r.None? <==> forall x :: x in rows ==> x.id != Some(id)
    {
      FirstWithId(rows, id)
    }

    function GetAllByUniqueParams(p: Params): (r: seq<Entity>)
      reads this
      ensures forall x :: x in r <==> x in rows && uniqueParams(x) == Some(p)
    {
      Matching(rows, uniqueParams, p)
    }

    /**
     * getAll(refresh): rereads the datasource only when nothing is cached or
     * refresh is asked for; otherwise returns the cached list as it is.
     */
    method GetAll(refresh: bool) returns (r: seq<Entity>)
      modifies this`all
      ensures old(all).None? || refresh ==> all == Some(GetAllNow())
      ensures old(all).Some? && !refresh ==> all == old(all)
      ensures all.Some? && r == all.value
    {
      if all.None? || refresh {
        all := Some(GetAllNow());
      }
      r := all.value;
    }

    /** getAll(): getAll(false), so the cache is never bypassed. */
    method GetAllCached() returns (r: seq<Entity>)
      modifies this`all
      ensures old(all).None? ==> all == Some(GetAllNow())
      ensures old(all).Some? ==> all == old(all)
      ensures all.Some? && r == all.value
    {
      r := GetAll(false);
    }

    /**
     * getCount: the size of getAll(), so of the cached list when there is
     * one; List.size() caps it at Integer.MAX_VALUE.
     */
    method GetCount() returns (n: Int)
      modifies this`all
      ensures old(all).Some? ==> all == old(all)
      ensures all.Some? && n <= |all.value|
      ensures |all.value| <= INT_MAX ==> n == |all.value|
      ensures |all.value| > INT_MAX ==> n == INT_MAX
      ensures old(all).None? ==> all == Some(GetAllNow())
    {
      var list := GetAllCached();
      n := if |list| <= INT_MAX then |list| else INT_MAX;
    }

    /** isAnUniqueEntity against the current datasource. */
    method IsAnUniqueEntity(entity: Entity, isInsert: bool) returns (unique: bool)
      ensures unique == UniqueIn(rows, uniqueParams, entity, isInsert)
    {
      var snapshot, hook := rows, uniqueParams;
      unique := DaoCommon.IsAnUniqueEntity(
        entity, isInsert, hook(entity), (p: Params) => Some(Matching(snapshot, hook, p)));
    }

    method Insert(e: Entity, fault: Option<DaoFault>)
      modifies this`rows, this`writes
      ensures writes == old(writes) + [Write(PersistAction.Insert, e, fault.None?)]
      ensures rows == if fault.None? then old(rows) + [e] else old(rows)
    {
      writes := writes + [Write(PersistAction.Insert, e, fault.None?)];
      if fault.None? {
        rows := rows + [e];
      }
    }

    method Update(e: Entity, fault: Option<DaoFault>)
      modifies this`rows, this`writes
      ensures writes == old(writes) + [Write(PersistAction.Update, e, fault.None?)]
      ensures rows == if fault.None? then Replaced(old(rows), e) else old(rows)
    {
      writes := writes + [Write(PersistAction.Update, e, fault.None?)];
      if fault.None? {
        rows := Replaced(rows, e);
      }
    }

    method Delete(e: Entity, fault: Option<DaoFault>)
      modifies this`rows, this`writes
      ensures writes == old(writes) + [Write(PersistAction.Delete, e, fault.None?)]
      ensures rows == if fault.None? then Removed(old(rows), e) else old(rows)
    {
      writes := writes + [Write(PersistAction.Delete, e, fault.None?)];
      if fault.None? {
        rows := Removed(rows, e);
      }
    }

    /** sort: the same list, reordered in place ascending by compareTo. */
    method Sort(entities: array<Entity>) returns (r: array<Entity>)
      modifies entities
      ensures r == entities
      ensures Sorted(entities[..])
      ensures multiset(entities[..]) == multiset(old(entities[..]))
    {
      r := DaoCommon.Sort(entities);
    }
  }
}
