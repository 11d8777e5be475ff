/** AbstractDao: the DAO generation behind AbstractJsfCrudMb and AbstractJsfConverter. */
module Dao {
  import opened Wrappers
  import opened JavaNumbers
  import opened Entity
  import opened DaoCommon

  /**
   * A DAO over the in-memory datasource `rows`. The abstract hooks of the
   * source (selectAll, selectOne, selectAllByUniqueParams, insert, update,
   * delete) read and write `rows`; `writes` records every write asked for.
   */
  class EntityDao {
    var rows: seq<Entity>
    var writes: seq<Write>
    /** getUniqueParams, the hook a concrete DAO supplies. */
    const uniqueParams: Entity -> Option<Params>

    constructor (rows: seq<Entity>, uniqueParams: Entity -> Option<Params>)
      ensures this.rows == rows && writes == [] && this.uniqueParams == uniqueParams
    {
      this.rows := rows;
      writes := [];
      this.uniqueParams := uniqueParams;
    }

    function SelectAll(): seq<Entity>
      reads this
    {
      rows
    }

    function SelectOne(id: Id): (r: Option<Entity>)
      reads this
      ensures r.Some? ==> r.value in rows && r.value.id == Some(id)
      ensures r.None? <==> forall x :: x in rows ==> x.id != Some(id)
    {
      FirstWithId(rows, id)
    }

    function SelectAllByUniqueParams(p: Params): (r: seq<Entity>)
      reads this
      ensures forall x :: x in r <==> x in rows && uniqueParams(x) == Some(p)
    {
      Matching(rows, uniqueParams, p)
    }

    /** selectCount: the size of selectAll(), which List.size() caps at Integer.MAX_VALUE. */
    function SelectCount(): (n: Int)
      reads this
      ensures n <= |SelectAll()|
      ensures |SelectAll()| <= INT_MAX ==> n == |SelectAll()|
      ensures |SelectAll()| > INT_MAX ==> n == INT_MAX
    {
      var all := SelectAll();
      if |all| <= INT_MAX then |all| else INT_MAX
    }

    /** isAnUniqueEntity against the current datasource. */
    method IsAnUniqueEntity(entity: Entity, isInsert: bool) returns (unique: bool)
      ensures unique == UniqueIn(rows, uniqueParams, entity, isInsert)
    {
      var snapshot, hook := rows, uniqueParams;
      unique := DaoCommon.IsAnUniqueEntity(
        entity, isInsert, hook(entity), (p: Params) => Some(Matching(snapshot, hook, p)));
    }

    method Insert(e: Entity, fault: Option<DaoFault>)
      modifies this
      ensures writes == old(writes) + [Write(PersistAction.Insert, e, fault.None?)]
      ensures rows == if fault.None? then old(rows) + [e] else old(rows)
    {
      writes := writes + [Write(PersistAction.Insert, e, fault.None?)];
      if fault.None? {
        rows := rows + [e];
      }
    }

    method Update(e: Entity, fault: Option<DaoFault>)
      modifies this
      ensures writes == old(writes) + [Write(PersistAction.Update, e, fault.None?)]
      ensures rows == if fault.None? then Replaced(old(rows), e) else old(rows)
    {
      writes := writes + [Write(PersistAction.Update, e, fault.None?)];
      if fault.None? {
        rows := Replaced(rows, e);
      }
    }

    method Delete(e: Entity, fault: Option<DaoFault>)
      modifies this
      ensures writes == old(writes) + [Write(PersistAction.Delete, e, fault.None?)]
      ensures rows == if fault.None? then Removed(old(rows), e) else old(rows)
    {
      writes := writes + [Write(PersistAction.Delete, e, fault.None?)];
      if fault.None? {
        rows := Removed(rows, e);
      }
    }

    /** sort: the same list, reordered in place ascending by compareTo. */
    method Sort(entities: array<Entity>) returns (r: array<Entity>)
      modifies entities
      ensures r == entities
      ensures Sorted(entities[..])
      ensures multiset(entities[..]) == multiset(old(entities[..]))
    {
      r := DaoCommon.Sort(entities);
    }
  }
}
