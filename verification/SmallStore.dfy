/** A store with one file, for the runs that show what the code does at a particular input. */
module SmallStore {
  import opened StoreTypes
  import opened StoreSpec

  const NEW_STORE := Empty(100, 10, Fifo)

  /** Client 9 created and locked the file "f", and others wait for it. */
  function StoreWith(canWrite: Client, waiters: seq<Client>): Store {
    Store(100, 10, Fifo, ["f"], map["f" := FileState("", 9, canWrite, waiters, [9])], 0, 1, 1, 0, 0)
  }

  lemma {:induction false} StoreWithShape(canWrite: Client, waiters: seq<Client>)
    ensures Shape(StoreWith(canWrite, waiters))
  {
    assert ["f"][1..] == [];
  }

  lemma {:induction false} OpenCreates()
    ensures Exec(NEW_STORE, Op.Open("f", O_CREATE + O_LOCK, 9)) == (StoreWith(9, []), Opened(None))
  {
    var op := OpenIt(9, true, false, None);
    assert [9] + [] == [9];
    assert Apply(op, "f", NewFile(9)) == (FileState("", 9, 9, [], [9]), Opened(None));
    assert Create(NEW_STORE, "f", 9).order == ["f"];
    assert Create(NEW_STORE, "f", 9).tab["f" := FileState("", 9, 9, [], [9])] == StoreWith(9, []).tab;
  }
}
