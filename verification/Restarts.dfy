/** Restarting without losing a byte. */
module Restarts {
  import opened Records
  import opened Log
  import opened Engine
  import opened Invariant
  import opened Writing
  import opened Durability
  import opened Recovery
  import opened Crash
  import opened Runs

  // Recovery end to end: what the recovery loop builds from the disk any crash leaves is the
  // engine a restart step of a run continues with.
  lemma RecoveryIsReboot(w: World, cut: map<nat, nat>, ids: seq<nat>)
    requires Phys(w) && CanReboot(w.db, cut, ids)
    ensures CrashDisk(w.db, cut).data.Keys == w.db.files.Keys
    ensures Opened(CrashDisk(w.db, cut), ids, w.db.maxSize) == Rebooted(w, cut, ids).db
  {
    hide Phys, Sound, Tidy, Kept, Recent, CrashDisk, Restart, Opened, Survivors, Recovery.Readable, Cut, Tops;
    PhysParts(w);
    CrashKeys(w.db, cut);
    CrashReadable(w.db, w.ledger, cut);
    CrashMark(w.db, cut);
    OpenedReadable(CrashDisk(w.db, cut), ids, w.db.maxSize);
  }

  lemma CrashMark(db: Db, cut: map<nat, nat>)
    requires Cut(db, cut) && forall id :: id in db.files ==> AllValid(db.files[id].recs)
    ensures CrashDisk(db, cut).mergeSn == db.mergeSn
  {
  }

  // Every file as it is.
  function Uncut(db: Db): map<nat, nat> { map id | id in db.files :: FileSize(db.files[id]) }

  lemma UncutIsCut(db: Db, ledger: map<nat, Record>)
    requires Sound(db, ledger)
    ensures Cut(db, Uncut(db)) && Cut(Sync(db), Uncut(Sync(db))) && Uncut(Sync(db)) == Uncut(db)
  {
    hide SizeAll, Merging, Ledgered, Pointing, Newest, Forgotten, ModeOf;
    var rs := db.files[db.active].recs;
    assert rs[..|rs|] == rs;
    SizeWithin(rs, db.synced);
  }

  lemma SizeWithin(rs: seq<Record>, n: nat)
    requires n <= |rs|
    ensures SizeAll(rs[..n]) <= SizeAll(rs)
  {
    hide SizeAll;
    PrefixSize(rs, n, |rs|);
    assert rs[..|rs|] == rs;
  }

  // Syncing first changes nothing that a restart reads.
  lemma SameDisk(db: Db, ledger: map<nat, Record>, ids: seq<nat>)
    requires Sound(db, ledger) && CanReboot(db, Uncut(db), ids)
    ensures HasActive(db) && CanReboot(Sync(db), Uncut(db), ids)
    ensures CrashDisk(Sync(db), Uncut(db)).data == CrashDisk(db, Uncut(db)).data
  {
    hide Sound, CutBytes, SizeAll, MayCut, AllValid, Listing;
    UncutIsCut(db, ledger);
  }

  // At any step of any run, merge or no merge, whether or not keys were exposed and lost on the
  // way: a restart that loses no byte recovers exactly the live map. Retired tombstones are
  // gone from the index and from disk, and nothing comes back.
  ghost predicate Recovered(w: World, ids: seq<nat>)
    requires CanReboot(w.db, Uncut(w.db), ids)
  {
    View(Rebooted(w, Uncut(w.db), ids).db.index, w.ledger) == View(w.db.index, w.ledger)
  }

  lemma CleanRestart(w: World, ids: seq<nat>)
    requires Phys(w) && CanReboot(w.db, Uncut(w.db), ids)
    ensures Recovered(w, ids)
  {
    hide Phys, Denotes, Sound, Tidy, Kept, Recent, View, After, Live, Fold, Flat, Restart, CanReboot, Survivors, Tops,
         CrashDisk, Whole;
    PhysParts(w);
    PhysActive(w);
    FsyncKeeps(w);
    var x := Settle(w, Sync(w.db));
    SettleLive(w);
    SameDisk(w.db, w.ledger, ids);
    UncutIsCut(w.db, w.ledger);
    RebootView(x, Uncut(w.db), ids);
    assert x.volatile[..Survivors(x, Uncut(w.db)[x.db.active])] == [];
    NothingFlat();
    FoldNone(Live(x.top, x.ledger));
    SameRestart(w, x, ids);
  }

  // In particular after every run from an empty store.
  lemma CleanRestartRun(maxSize: nat, acts: seq<Action>, ids: seq<nat>)
    requires var w := Run(Start(maxSize), acts); CanReboot(w.db, Uncut(w.db), ids)
    ensures Recovered(Run(Start(maxSize), acts), ids)
  {
    hide Phys, Denotes, CanReboot, Recovered, Run, Uncut;
    StartInv(maxSize);
    RunPhys(Start(maxSize), acts);
    CleanRestart(Run(Start(maxSize), acts), ids);
  }

  lemma SameRestart(w: World, x: World, ids: seq<nat>)
    requires HasActive(w.db) && x.db == Sync(w.db) && CanReboot(w.db, Uncut(w.db), ids)
    requires CanReboot(x.db, Uncut(w.db), ids)
    requires CrashDisk(x.db, Uncut(w.db)).data == CrashDisk(w.db, Uncut(w.db)).data
    ensures Rebooted(w, Uncut(w.db), ids).db == Rebooted(x, Uncut(w.db), ids).db
  {
    hide Restart, CrashDisk, Survivors, Listing;
  }
}
