/** The API server as the controllers see it: a map from object name to object in
    which every Create, finalizer update and Delete is one atomic step. An object
    marked for deletion disappears when its last finalizer does. */
module ApiServer {
  datatype Object<T> = Object(body: T, finalizers: set<string>, deleting: bool)

  /** `Create`, which answers AlreadyExists when the name is taken. */
  function Create<T>(store: map<string, Object<T>>, name: string, o: Object<T>): (store': map<string, Object<T>>)
    ensures forall n :: n in store ==> n in store' && store'[n] == store[n]
  {
    if name in store then store else store[name := o]
  }

  /** Reads the object, removes one finalizer and writes it back. */
  function DropFinalizer<T>(store: map<string, Object<T>>, name: string, finalizer: string): map<string, Object<T>> {
    if name !in store then store
    else
      var o := store[name].(finalizers := store[name].finalizers - {finalizer});
      if o.deleting && o.finalizers == {} then store - {name} else store[name := o]
  }

  /** `Delete`; a missing object is not an error. */
  function Delete<T>(store: map<string, Object<T>>, name: string): map<string, Object<T>> {
    if name !in store then store
    else if store[name].finalizers == {} then store - {name}
    else store[name := store[name].(deleting := true)]
  }

  /** The finalizer-then-delete sequence used by every release path. */
  function Release<T>(store: map<string, Object<T>>, name: string, finalizer: string): map<string, Object<T>> {
    Delete(DropFinalizer(store, name, finalizer), name)
  }

  /** Gone, or on its way out with nothing of this finalizer's owner holding it. */
  predicate Released<T>(store: map<string, Object<T>>, name: string, finalizer: string) {
    name in store ==> store[name].deleting && finalizer !in store[name].finalizers
  }

  /** A release touches one object only, leaves its body alone, frees it from the
      finalizer, and never undoes an earlier release. */
  lemma ReleaseReleases<T>(store: map<string, Object<T>>, name: string, finalizer: string)
    ensures var after := Release(store, name, finalizer);
            && Released(after, name, finalizer)
            && (forall n :: n in after ==> n in store && after[n].body == store[n].body)
            && (forall n :: n in store && n != name ==> n in after && after[n] == store[n])
            && (forall n :: Released(store, n, finalizer) ==> Released(after, n, finalizer))
  {
  }
}
