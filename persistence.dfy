/**
 * The database the repositories talk to, as an in-memory store: one map per
 * table, keyed by record id. Writes are single-record and sequential.
 */
module Persistence {
  import opened Wrappers
  import opened Domain

  class Store {
    var tasks: map<Id, Task>
    var offers: map<Id, Offer>
    var progress: map<Id, TaskProgress>
    var skills: map<Id, Skill>
    var providers: map<Id, Provider>
    var users: map<Id, User>

    /** Every record is stored under its own id. */
    ghost predicate Valid()
      reads this
    {
      && (forall id :: id in tasks ==> tasks[id].id == id)
      && (forall id :: id in offers ==> offers[id].id == id)
      && (forall id :: id in progress ==> progress[id].id == id)
      && (forall id :: id in skills ==> skills[id].id == id)
      && (forall id :: id in providers ==> providers[id].id == id)
      && (forall id :: id in users ==> users[id].id == id)
    }

    /** An empty database. */
    constructor ()
      ensures Valid()
      ensures tasks == map[] && offers == map[] && progress == map[]
      ensures skills == map[] && providers == map[] && users == map[]
    {
      tasks, offers, progress := map[], map[], map[];
      skills, providers, users := map[], map[], map[];
    }
  }

  /** `findUnique({ where: { id } })`: the record stored under `id`, if any. */
  function Lookup<T>(table: map<Id, T>, id: Id): (r: Option<T>)
    ensures r.None? <==> id !in table
    ensures r.Some? ==> r.value == table[id]
  {
    if id in table then Some(table[id]) else None
  }

  /** Some length exceeds that of every id in use. */
  lemma {:induction false} LengthBound(used: set<Id>) returns (n: nat)
    ensures forall id :: id in used ==> |id| < n
  {
    if used == {} {
      n := 0;
    } else {
      var x :| x in used;
      n := LengthBound(used - {x});
      if n <= |x| {
        n := |x| + 1;
      }
    }
  }

  /** The database picks an id that no record of the table uses yet. */
  method NewId(used: set<Id>) returns (id: Id)
    ensures id !in used
  {
    ghost var n := LengthBound(used);
    assert seq(n, _ => '0') !in used;
    id :| id !in used;
  }
}
