/** The one journal file of a node, which every component appends to. */
module SharedFile {
  import opened Models
  import opened JournalFile
  import opened JournalLoad
  import opened JournalRestart
  import opened StoredAudit

  /** `log` names the records whose stored text the file holds, whoever wrote them. */
  class NodeJournal {
    const writing: Writing
    const store: Store
    var written: nat
    ghost var log: seq<Audit.Entry>

    ghost predicate Valid()
      reads this, store
    {
      && Sound(writing) && store.Valid() && store.formats == writing.formats
      && written == |log| && store.log == StoredAll(writing, log)
    }

    /** Opened on a file that holds these contents already. */
    constructor (w: Writing, contents: string)
      requires Sound(w)
      ensures Valid() && log == [] && writing == w && fresh(store) && store.earlier == contents
    {
      writing, written, log := w, 0, [];
      store := new Store(w.formats, contents);
    }

    method Append(e: Audit.Entry)
      requires Valid()
      modifies this, store
      ensures Valid() && log == old(log) + [e]
    {
      hide Stored, Sound, Complete, store.Valid;
      StoredIsComplete(writing, written, e);
      StoredOneMore(writing, log, e);
      store.Append(Stored(writing, written, e));
      written, log := written + 1, log + [e];
    }

    /** Loading the file returns, behind what it held before, every record any component wrote, in order. */
    method LoadBack() returns (r: Result<seq<Record>, LoadError>)
      requires Valid()
      ensures Finished(store.earlier) ==>
                r == Then(LoadText(writing.formats, Universal(store.earlier)), Ok(StoredAll(writing, log)))
    {
      r := store.LoadBack();
    }
  }
}
