/**
 * `ModelDiffMixin`: a model that remembers the field values it was loaded (or
 * last saved) with, reports which fields differ from that snapshot, and writes
 * itself only when something differs.
 *
 * A model's fields are a `map` from field name to value. The snapshot is
 * `initial`, the live values are `current`, and `written` records the states
 * handed to the underlying model's own `save`, in order.
 */
module ModelDiff {
  import opened Wrappers

  /** The (old, new) pair the diff reports for one changed field. */
  datatype Change<V> = Change(before: V, after: V)

  /** The fields whose value in `current` differs from `initial`, each mapped to
      its (old, new) pair. */
  function Diff<V(==)>(initial: map<string, V>, current: map<string, V>): map<string, Change<V>>
    requires initial.Keys <= current.Keys
  {
    map k | k in initial && initial[k] != current[k] :: Change(initial[k], current[k])
  }

  /** Over the same fields, the diff is empty exactly when nothing changed. */
  lemma DiffEmptyIffUnchanged<V>(initial: map<string, V>, current: map<string, V>)
    requires initial.Keys == current.Keys
    ensures Diff(initial, current) == map[] <==> initial == current
  {
    if Diff(initial, current) == map[] {
      forall k | k in initial ensures initial[k] == current[k] {
        assert k !in Diff(initial, current);
      }
    } else {
      var k :| k in Diff(initial, current);
      assert initial[k] != current[k];
    }
  }

  /** Setting one field changes the diff at that field only: it is reported
      exactly when the new value differs from the snapshot. */
  lemma DiffAfterUpdate<V>(initial: map<string, V>, current: map<string, V>, name: string, v: V)
    requires initial.Keys == current.Keys && name in current
    ensures var d := Diff(initial, current[name := v]);
            (name in d <==> v != initial[name]) &&
            (name in d ==> d[name] == Change(initial[name], v)) &&
            forall k :: k != name ==> (k in d <==> k in Diff(initial, current)) &&
                                      (k in d ==> d[k] == Diff(initial, current)[k])
  {
  }

  /** Setting a field back to its snapshot value takes it out of the diff. */
  lemma RevertingRemovesFromDiff<V>(initial: map<string, V>, current: map<string, V>, name: string)
    requires initial.Keys == current.Keys && name in current
    ensures Diff(initial, current[name := initial[name]]).Keys == Diff(initial, current).Keys - {name}
  {
    DiffAfterUpdate(initial, current, name, initial[name]);
  }

  class ModelDiffMixin<V(==)> {
    /** `_initial`: the field values at load time or at the last save. */
    var initial: map<string, V>
    /** `_dict`: the live field values. */
    var current: map<string, V>
    /** The states written by the underlying model's `save`, oldest first. */
    var written: seq<map<string, V>>

    /** The snapshot and the live values cover the same fields. */
    ghost predicate Valid()
      reads this
    {
      initial.Keys == current.Keys
    }

    /** A freshly loaded model: its snapshot is its current state. */
    constructor (fields: map<string, V>)
      ensures Valid()
      ensures initial == fields && current == fields && written == []
    {
      initial, current, written := fields, fields, [];
    }

    /** `diff`. */
    function GetDiff(): (d: map<string, Change<V>>)
      reads this
      requires Valid()
      ensures forall k :: k in d <==> k in initial && initial[k] != current[k]
      ensures forall k :: k in d ==> d[k] == Change(initial[k], current[k])
    {
      Diff(initial, current)
    }

    /** `has_changed`: the live values differ from the snapshot. */
    function HasChanged(): (b: bool)
      reads this
      requires Valid()
      ensures b <==> initial != current
    {
      DiffEmptyIffUnchanged(initial, current);
      GetDiff() != map[]
    }

    /** `changed_fields`: the fields whose value differs from the snapshot. */
    function ChangedFields(): (fields: set<string>)
      reads this
      requires Valid()
      ensures fields <= current.Keys
      ensures fields == {} <==> !HasChanged()
      ensures forall k :: k in fields <==> k in initial && initial[k] != current[k]
    {
      DiffEmptyIffUnchanged(initial, current);
      GetDiff().Keys
    }

    /** `get_field_diff`: the (old, new) pair of a changed field, `None` for a
        field that did not change or does not exist. */
    function GetFieldDiff(name: string): (r: Option<Change<V>>)
      reads this
      requires Valid()
      ensures r.None? <==> name !in current || initial[name] == current[name]
      ensures r.Some? ==> r.value.before == initial[name] && r.value.after == current[name]
                          && r.value.before != r.value.after
    {
      if name in GetDiff() then Some(GetDiff()[name]) else None
    }

    /** Assigning one field of the model. */
    method SetField(name: string, v: V)
      requires Valid() && name in current
      modifies this`current
      ensures Valid()
      ensures current == old(current)[name := v]
      ensures GetFieldDiff(name).Some? <==> v != initial[name]
    {
      current := current[name := v];
    }

    /** `save`: write the model and re-snapshot, only when something changed. */
    method Save()
      requires Valid()
      modifies this`initial, this`written
      ensures Valid()
      ensures old(HasChanged()) ==> written == old(written) + [current] && initial == current
      ensures !old(HasChanged()) ==> written == old(written) && initial == old(initial)
      ensures !HasChanged() && GetDiff() == map[]
    {
      if HasChanged() {
        written := written + [current];
        initial := current;
      }
      DiffEmptyIffUnchanged(initial, current);
    }
  }
}
