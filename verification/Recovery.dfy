/**
 * From a run of the node to its one journal file, torn anywhere, and back: what is loaded is a
 * beginning of what was written, and the state of every strategy can be replayed from it.
 */
module Recovery {
  import opened Models
  import opened Audit
  import opened JournalFile
  import opened JournalLoad
  import opened StoredAudit
  import opened StrategyFsm
  import opened StrategyRuns
  import opened Selector
  import opened TradingSystem
  import opened SystemTheorems
  import opened SystemLog

  /** Tearing the file of any sound writer loses records at its end only. */
  lemma TornFileLoads(w: Writing, log: seq<Audit.Entry>, earlier: string, k: nat)
    requires Sound(w) && Finished(earlier) && k <= |TextOf(StoredAll(w, log))|
    ensures var rs := StoredAll(w, log);
            LoadText(w.formats, Universal(earlier + TextOf(rs)[..k])) ==
            Then(LoadText(w.formats, Universal(earlier)), Ok(rs[..Kept(rs, k)]))
  {
    hide LoadText, TextOf, Kept, Universal, Complete, Sound, Stored, Then, Finished;
    var rs := StoredAll(w, log);
    forall r | r in rs ensures Complete(w.formats, r) {
      var j :| 0 <= j < |rs| && rs[j] == r;
      StoredIsComplete(w, j, log[j]);
    }
    LoadBehind(w.formats, earlier, rs, k);
  }

  /** A beginning of an accepted journal is accepted, and replays to its own state. */
  lemma AcceptedBeginning(s: StrategyFsm.Strategy, own: seq<Audit.Entry>)
    requires Inv(s) && own <= s.journal
    ensures ReadAll(own).ok && Replay(own) == Some(ReadAll(own).state)
    ensures own == s.journal ==> ReadAll(own).state == s.state
  {
    hide ReadAll;
    assert own == s.journal[..|own|];
    AcceptedPrefix(s.journal, |own|);
    AcceptedReplays(own);
  }

  lemma StoredBeginning(w: Writing, log: seq<Audit.Entry>, n: nat)
    requires n <= |log|
    ensures StoredAll(w, log)[..n] == StoredAll(w, log[..n])
  {
    hide Stored;
  }

  /**
   * A node runs; its strategies, its selector and the node itself write one file in turn, behind whatever
   * finished lines the file held before; the file is cut anywhere. Loading it fails exactly when what it held
   * before cannot be loaded; otherwise it gives that and then the first n records. For every strategy
   * those among them that it wrote itself are what its own journal held at the cut, the lines that
   * carry its id are a journal the auditor accepts, and replaying these gives the state its own
   * journal had reached: the live state if nothing was lost.
   */
  lemma SharedFileRecovers(cfgs: seq<Config>, sel: SelectorConfig, now: int, es: seq<SystemEvent>,
                           w: Writing, earlier: string, k: nat, j: nat)
    requires EnabledRun(Start(cfgs, sel, now), es) && Sound(w) && j < |cfgs| && Finished(earlier)
    requires forall i, l :: 0 <= i < l < |cfgs| ==> cfgs[i].strategyId != cfgs[l].strategyId
    requires k <= |TextOf(StoredAll(w, SystemRun(Start(cfgs, sel, now), es).log))|
    ensures var sys := SystemRun(Start(cfgs, sel, now), es);
            var rs := StoredAll(w, sys.log);
            var n := Kept(rs, k);
            var id := cfgs[j].strategyId;
            var own := OwnPart(sys.log[..n], id);
            && |sys.strategies| == |cfgs|
            && LoadText(w.formats, Universal(earlier + TextOf(rs)[..k])) ==
               Then(LoadText(w.formats, Universal(earlier)), Ok(rs[..n]))
            && own <= sys.strategies[j].journal
            && ReadAll(own).ok && ReadAll(LinesOf(sys.log[..n], id)) == ReadAll(own)
            && ReplayFor(rs[..n], id) == Some(ReadAll(own).state)
            && (n == |sys.log| ==>
                  own == sys.strategies[j].journal && ReplayFor(rs[..n], id) == Some(sys.strategies[j].state))
  {
    hide SystemRun, ReadAll, LoadText, TextOf, Kept, Universal, ReplayFor, Sound, Replay, Stored, OwnPart, LinesOf,
      Inv, OnTime, Corresponds, IdsApart, Then, Finished;
    var sys := SystemRun(Start(cfgs, sel, now), es);
    var rs := StoredAll(w, sys.log);
    var n, id := Kept(rs, k), cfgs[j].strategyId;
    ReachableInv(cfgs, sel, now, es);
    FileHoldsEveryJournal(cfgs, sel, now, es);
    TornFileLoads(w, sys.log, earlier, k);
    OwnPartOfPrefix(sys.log, n, id);
    assert OwnPart(sys.log, id) == sys.strategies[j].journal;
    AcceptedBeginning(sys.strategies[j], OwnPart(sys.log[..n], id));
    ForeignLinesAreIgnored(sys.log[..n], id);
    StoredBeginning(w, sys.log, n);
    StoredReplay(w, sys.log[..n], id);
    if n == |sys.log| {
      assert sys.log[..n] == sys.log;
    }
  }

  /**
   * Replaying a strategy's entries from the whole file, those of earlier runs included, gives the state its
   * journal of this run had reached exactly if the earlier entries lead to Flat; if this run moved the
   * strategy at all and they lead elsewhere, there is no replay.
   */
  lemma ReplayAcrossRuns(cfgs: seq<Config>, sel: SelectorConfig, now: int, es: seq<SystemEvent>,
                         w: Writing, earlier: string, k: nat, j: nat)
    requires EnabledRun(Start(cfgs, sel, now), es) && Sound(w) && j < |cfgs| && Finished(earlier)
    requires forall i, l :: 0 <= i < l < |cfgs| ==> cfgs[i].strategyId != cfgs[l].strategyId
    requires k <= |TextOf(StoredAll(w, SystemRun(Start(cfgs, sel, now), es).log))|
    requires LoadText(w.formats, Universal(earlier)).Ok?
    ensures var sys := SystemRun(Start(cfgs, sel, now), es);
            var rs := StoredAll(w, sys.log);
            var n, id := Kept(rs, k), cfgs[j].strategyId;
            var prior := LoadText(w.formats, Universal(earlier)).value;
            var loaded := LoadText(w.formats, Universal(earlier + TextOf(rs)[..k]));
            && loaded.Ok?
            && ReplayFor(loaded.value, id) ==
               if NeverMoves(rs[..n], id) then ReplayFor(prior, id)
               else if ReplayFor(prior, id) == Some(Flat) then Some(ReadAll(OwnPart(sys.log[..n], id)).state)
               else None
  {
    hide SystemRun, ReadAll, LoadText, TextOf, Kept, Universal, ReplayFor, Sound, Stored, OwnPart, LinesOf,
      NeverMoves, Finished, EnabledRun;
    var sys := SystemRun(Start(cfgs, sel, now), es);
    var rs := StoredAll(w, sys.log);
    SharedFileRecovers(cfgs, sel, now, es, w, earlier, k, j);
    ReplayAcross(LoadText(w.formats, Universal(earlier)).value, rs[..Kept(rs, k)], cfgs[j].strategyId);
  }
}
