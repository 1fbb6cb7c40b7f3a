/** The id-to-name tables the orders and offers pages build from product and user
    lists with `reduce((acc, r) => ({ ...acc, [r._id]: r.name }), {})`. */
module Lookup {
  import opened Common

  /** The two fields of a product or user record that the table reads. */
  datatype Keyed = Keyed(id: string, name: string)

  /** No record after position `i` carries the id of record `i`. */
  predicate LastWithId(rs: seq<Keyed>, i: nat)
    requires i < |rs|
  {
    forall j :: i < j < |rs| ==> rs[j].id != rs[i].id
  }

  /** The spread-reduce: each record overwrites the entry of its id, so the name of the
      last record with a given id wins. */
  function NameMap(rs: seq<Keyed>): map<string, string> {
    if rs == [] then map[]
    else
      var last := rs[|rs| - 1];
      NameMap(rs[..|rs| - 1])[last.id := last.name]
  }

  /** The table has an entry for exactly the ids of the records, and each id's entry is
      the name of the last record carrying it. */
  lemma {:induction false} NameMapSpec(rs: seq<Keyed>)
    ensures forall k :: k in NameMap(rs) <==> exists i :: 0 <= i < |rs| && rs[i].id == k
    ensures forall i :: 0 <= i < |rs| && LastWithId(rs, i) ==> NameMap(rs)[rs[i].id] == rs[i].name
  {
    if rs != [] {
      NameMapSpec(rs[..|rs| - 1]);
      NameMapStep(rs, NameMap(rs[..|rs| - 1]));
    }
  }

  /** The induction step of NameMap: what writing the last record adds to the table
      built from the others. */
  lemma NameMapStep(rs: seq<Keyed>, m: map<string, string>)
    requires rs != []
    requires forall k :: k in m <==> exists i :: 0 <= i < |rs| - 1 && rs[i].id == k
    requires forall i :: 0 <= i < |rs| - 1 && LastWithId(rs[..|rs| - 1], i) ==> m[rs[i].id] == rs[i].name
    ensures var m' := m[rs[|rs| - 1].id := rs[|rs| - 1].name];
            && (forall k :: k in m' <==> exists i :: 0 <= i < |rs| && rs[i].id == k)
            && (forall i :: 0 <= i < |rs| && LastWithId(rs, i) ==> m'[rs[i].id] == rs[i].name)
  {
    var n := |rs| - 1;
    var m' := m[rs[n].id := rs[n].name];
    forall i | 0 <= i < n && LastWithId(rs, i) ensures m'[rs[i].id] == rs[i].name {
      assert rs[n].id != rs[i].id;
      assert LastWithId(rs[..n], i);
    }
  }

  /** `table[key]`: the entry, or `undefined`. */
  function Get(table: map<string, string>, key: string): Option<string> {
    if key in table then Some(table[key]) else None
  }

  /** A later record with the same id overrides an earlier one. */
  lemma LaterDuplicateWins(rs: seq<Keyed>, i: nat, j: nat)
    requires i < j < |rs| && rs[i].id == rs[j].id && LastWithId(rs, j)
    ensures Get(NameMap(rs), rs[i].id) == Some(rs[j].name)
  {
    NameMapSpec(rs);
  }
}
