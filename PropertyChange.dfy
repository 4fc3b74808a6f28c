/**
 * Property-change notification of the view-model base class. The
 * `PropertyChanged` event is modelled as the log of property names it was
 * raised with; the `ref` storage slot of `SetProperty` as a value passed in
 * and the new slot value passed back.
 */
module PropertyChange {

  /** What one `SetProperty` call does: the new slot value, its result, the names it raises. */
  datatype Assignment<T> = Assignment(storage: T, changed: bool, raised: seq<string>)

  /** The effect of assigning `value` to a slot holding `storage`. */
  function Assign<T(==)>(storage: T, value: T, propertyName: string): (a: Assignment<T>)
    ensures a.storage == value
    ensures a.changed <==> storage != value
    ensures a.raised == if a.changed then [propertyName] else []
  {
    if storage == value then Assignment(storage, false, [])
    else Assignment(value, true, [propertyName])
  }

  /** Assigning the same value a second time changes nothing and raises nothing. */
  lemma AssignIdempotent<T>(storage: T, value: T, propertyName: string)
    ensures var first := Assign(storage, value, propertyName);
      var second := Assign(first.storage, value, propertyName);
      !second.changed && second.raised == [] && second.storage == first.storage
  {
  }

  class ViewModelBase {
    /** Property names `PropertyChanged` has been raised with, oldest first. */
    var propertyChanged: seq<string>

    constructor ()
      ensures propertyChanged == []
    {
      propertyChanged := [];
    }

    /** Raises `PropertyChanged` for `propertyName`. */
    method OnPropertyChanged(propertyName: string)
      modifies this
      ensures propertyChanged == old(propertyChanged) + [propertyName]
    {
      propertyChanged := propertyChanged + [propertyName];
    }

    /**
     * Stores `value` and notifies only when it differs from the slot's current
     * value; reports whether it did.
     */
    method SetProperty<T(==)>(storage: T, value: T, propertyName: string) returns (newStorage: T, changed: bool)
      modifies this
      ensures newStorage == value
      ensures changed <==> storage != value
      ensures !changed ==> newStorage == storage && propertyChanged == old(propertyChanged)
      ensures changed ==> propertyChanged == old(propertyChanged) + [propertyName]
      // The same post-state through `Assign`, so that `AssignIdempotent` applies to calls.
      ensures var a := Assign(storage, value, propertyName);
        newStorage == a.storage && changed == a.changed && propertyChanged == old(propertyChanged) + a.raised
    {
      newStorage := storage;
      if storage == value {
        return newStorage, false;
      }
      newStorage := value;
      OnPropertyChanged(propertyName);
      changed := true;
    }
  }
}
