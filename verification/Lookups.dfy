/** Reading one key while merges move its record: a lookup and a read, tried again when the file is
    gone, four times at most. */
module Lookups {
  import opened Bytes
  import opened Engine
  import opened Invariant
  import opened Writing
  import opened Runs
  import opened Reads
  import RangeScans
  import ScanRace

  // What the engine does before the lookup of an attempt, and between it and the read.
  datatype Turn = Turn(before: seq<Action>, between: seq<Action>)

  ghost predicate Running(ts: seq<Turn>) {
    forall i :: 0 <= i < |ts| ==> Uninterrupted(ts[i].before) && Uninterrupted(ts[i].between)
  }

  // The engine when attempt i looks the key up, when it reads, and after n attempts.
  ghost function Asking(w: World, ts: seq<Turn>, i: nat): World
    requires i < |ts|
  {
    Run(Past(w, ts, i), ts[i].before)
  }

  ghost function Reading(w: World, ts: seq<Turn>, i: nat): World
    requires i < |ts|
  {
    Run(Asking(w, ts, i), ts[i].between)
  }

  ghost function Past(w: World, ts: seq<Turn>, n: nat): World
    requires n <= |ts|
  {
    if n == 0 then w else Run(Run(Past(w, ts, n - 1), ts[n - 1].before), ts[n - 1].between)
  }

  // What attempt i comes to.
  ghost function Attempt(w: World, ts: seq<Turn>, k: Bytes, i: nat): Outcome
    requires i < |ts| && Decodable(Reading(w, ts, i).db.files)
  {
    var ix := Asking(w, ts, i).db.index;
    if k !in ix || ix[k].tomb then NotFound else ReadValue(Reading(w, ts, i).db.files, ix[k])
  }

  ghost predicate AllDecodable(w: World, ts: seq<Turn>) {
    forall i :: 0 <= i < |ts| ==> Decodable(Reading(w, ts, i).db.files)
  }

  // The first attempt whose file was there, or none.
  ghost function Got(w: World, ts: seq<Turn>, k: Bytes, n: nat): Outcome
    requires n <= |ts| && AllDecodable(w, ts)
  {
    if n == 0 then Gone
    else
      var o := Got(w, ts, k, n - 1);
      if o != Gone then o else Attempt(w, ts, k, n - 1)
  }

  // --- what it may answer --------------------------------------------------------------------------

  lemma {:induction false} PastPhys(w: World, ts: seq<Turn>, n: nat)
    requires Phys(w) && Running(ts) && n <= |ts|
    ensures Phys(Past(w, ts, n))
    ensures n < |ts| ==> Phys(Asking(w, ts, n)) && Phys(Reading(w, ts, n)) && Decodable(Reading(w, ts, n).db.files)
    decreases n
  {
    hide Phys, Run;
    if n > 0 {
      PastPhys(w, ts, n - 1);
      assert Past(w, ts, n) == Reading(w, ts, n - 1);
    }
    if n < |ts| {
      RunPhys(Past(w, ts, n), ts[n].before);
      RunPhys(Asking(w, ts, n), ts[n].between);
      ReadGoneIff(Reading(w, ts, n), Entry(0, 0, 0, 0, false));
    }
  }

  lemma TurnsDecodable(w: World, ts: seq<Turn>)
    requires Phys(w) && Running(ts)
    ensures AllDecodable(w, ts)
  {
    hide Phys, Running, Reading;
    forall i | 0 <= i < |ts| ensures Decodable(Reading(w, ts, i).db.files) {
      PastPhys(w, ts, i);
    }
  }

  // The value the key had when it was looked up, or that it had none; and otherwise that the file
  // found there is gone.
  ghost predicate Served(w: World, ts: seq<Turn>, k: Bytes, i: nat, o: Outcome)
    requires i < |ts|
  {
    var x := Asking(w, ts, i);
    var m := View(x.db.index, x.ledger);
    if k in m then o == Value(m[k]) || (o == Gone && Overtaken(w, ts, k, i)) else o == NotFound
  }

  ghost predicate Overtaken(w: World, ts: seq<Turn>, k: Bytes, i: nat)
    requires i < |ts|
  {
    var ix := Asking(w, ts, i).db.index;
    k in ix && !ix[k].tomb && ix[k].file !in Reading(w, ts, i).db.files
  }

  lemma AttemptServes(w: World, ts: seq<Turn>, k: Bytes, i: nat)
    requires Phys(w) && Running(ts) && i < |ts|
    ensures Decodable(Reading(w, ts, i).db.files) && Served(w, ts, k, i, Attempt(w, ts, k, i))
    ensures Attempt(w, ts, k, i) == Gone <==> Overtaken(w, ts, k, i)
  {
    hide Phys, Run, ReadValue, Decodable, Sound, View;
    PastPhys(w, ts, i);
    var x := Asking(w, ts, i);
    PhysParts(x);
    IndexLedgered(x.db, x.ledger);
    LiveView(x.db.index, x.ledger);
    if k in x.db.index && !x.db.index[k].tomb {
      ReadRace(x, ts[i].between, k);
      ReadGoneIff(Reading(w, ts, i), x.db.index[k]);
    }
  }

  // Of n attempts, the answer is that of some lookup, or every one was overtaken.
  lemma {:induction false} GotServes(w: World, ts: seq<Turn>, k: Bytes, n: nat)
    requires Phys(w) && Running(ts) && n <= |ts|
    ensures AllDecodable(w, ts)
    ensures Got(w, ts, k, n) != Gone ==> exists i :: 0 <= i < n && Served(w, ts, k, i, Got(w, ts, k, n))
    ensures Got(w, ts, k, n) == Gone <==> forall i :: 0 <= i < n ==> Overtaken(w, ts, k, i)
    decreases n
  {
    hide Phys, Served, Overtaken, Attempt, AllDecodable, Running;
    TurnsDecodable(w, ts);
    if n > 0 {
      GotServes(w, ts, k, n - 1);
      AttemptServes(w, ts, k, n - 1);
      GotStep(w, ts, k, n);
    }
  }

  lemma GotStep(w: World, ts: seq<Turn>, k: Bytes, n: nat)
    requires 0 < n <= |ts| && AllDecodable(w, ts)
    ensures Got(w, ts, k, n) == if Got(w, ts, k, n - 1) != Gone then Got(w, ts, k, n - 1) else Attempt(w, ts, k, n - 1)
  {
  }

  // A value returned is one the store held, under that key, when the key was looked up; not found
  // means that it held none; and the race is lost if and only if every attempt was overtaken.
  lemma GetTruthful(w: World, ts: seq<Turn>, k: Bytes)
    requires Phys(w) && Running(ts) && |ts| == 4
    ensures AllDecodable(w, ts)
    ensures var o := Got(w, ts, k, 4);
            match o
            case Value(v) => exists i :: 0 <= i < 4 && Held(Asking(w, ts, i), k, v)
            case NotFound => exists i :: 0 <= i < 4 && HeldNone(Asking(w, ts, i), k)
            case Gone => forall i :: 0 <= i < 4 ==> Overtaken(w, ts, k, i)
            case _ => false
    ensures (forall i :: 0 <= i < 4 ==> Overtaken(w, ts, k, i)) ==> Got(w, ts, k, 4) == Gone
  {
    hide Phys, Overtaken, Attempt, AllDecodable, Running, Got, Asking, View;
    GotServes(w, ts, k, 4);
    var o := Got(w, ts, k, 4);
    if o != Gone {
      var i :| 0 <= i < 4 && Served(w, ts, k, i, o);
      assert o.Value? ==> Held(Asking(w, ts, i), k, o.v);
      assert o.NotFound? ==> HeldNone(Asking(w, ts, i), k);
    }
  }

  ghost predicate Held(w: World, k: Bytes, v: Bytes) {
    var m := View(w.db.index, w.ledger); k in m && m[k] == v
  }

  ghost predicate HeldNone(w: World, k: Bytes) { k !in View(w.db.index, w.ledger) }

  // --- how many merges it takes --------------------------------------------------------------------------

  // How often a merge unlinks its files.
  ghost function Unlinks(w: World, acts: seq<Action>): nat {
    if acts == [] then 0
    else
      var init := acts[..|acts| - 1];
      Unlinks(w, init) + if acts[|acts| - 1] == Drop && Enabled(Run(w, init), Drop) then 1 else 0
  }

  ghost function UnlinksIn(w: World, ts: seq<Turn>, n: nat): nat
    requires n <= |ts|
  {
    if n == 0 then 0
    else
      UnlinksIn(w, ts, n - 1) + Unlinks(Past(w, ts, n - 1), ts[n - 1].before)
      + Unlinks(Asking(w, ts, n - 1), ts[n - 1].between)
  }

  lemma {:induction false} QuietLasts(w: World, acts: seq<Action>, id: nat)
    requires Phys(w) && Uninterrupted(acts) && Lasting(w.db, id) && Unlinks(w, acts) == 0
    ensures Lasting(Run(w, acts).db, id)
    decreases |acts|
  {
    hide Phys, Lasting, Runs.Next, Enabled;
    if acts != [] {
      var init, a := acts[..|acts| - 1], acts[|acts| - 1];
      QuietLasts(w, init, id);
      RunPhys(w, init);
      if a == Drop {
        Disabled(Run(w, init), a);
      } else {
        NextLasting(Run(w, init), a, id);
      }
    }
  }

  // An attempt is overtaken only by an unlink between its lookup and its read.
  lemma OvertakenUnlinks(w: World, ts: seq<Turn>, k: Bytes, i: nat)
    requires Phys(w) && Running(ts) && i < |ts| && Overtaken(w, ts, k, i)
    ensures Unlinks(Asking(w, ts, i), ts[i].between) > 0
  {
    hide Phys, Run, Unlinks;
    PastPhys(w, ts, i);
    var x := Asking(w, ts, i);
    IndexedLasting(x, k);
    if Unlinks(x, ts[i].between) == 0 {
      QuietLasts(x, ts[i].between, x.db.index[k].file);
    }
  }

  lemma {:induction false} ManyUnlinks(w: World, ts: seq<Turn>, k: Bytes, n: nat)
    requires Phys(w) && Running(ts) && n <= |ts| && forall i :: 0 <= i < n ==> Overtaken(w, ts, k, i)
    ensures n <= UnlinksIn(w, ts, n)
    decreases n
  {
    hide Phys, Overtaken, Unlinks, Running;
    if n > 0 {
      ManyUnlinks(w, ts, k, n - 1);
      OvertakenUnlinks(w, ts, k, n - 1);
    }
  }

  // With fewer than four merges finishing meanwhile the race is not lost, whatever else happens.
  lemma FewMerges(w: World, ts: seq<Turn>, k: Bytes)
    requires Phys(w) && Running(ts) && |ts| == 4 && UnlinksIn(w, ts, 4) < 4
    ensures AllDecodable(w, ts) && Got(w, ts, k, 4) != Gone
  {
    hide Phys, Overtaken, UnlinksIn, Running, Got;
    GotServes(w, ts, k, 4);
    if forall i :: 0 <= i < 4 ==> Overtaken(w, ts, k, i) {
      ManyUnlinks(w, ts, k, 4);
    }
  }

  // With four it can be, of a key that is live all the time.
  lemma RaceLost(w: World, k: Bytes) returns (ts: seq<Turn>)
    requires Inv(w) && ScanRace.OnlyKey(w.db, k)
    ensures |ts| == 4 && Running(ts) && AllDecodable(w, ts)
    ensures forall i :: 0 <= i < 4 ==> RangeScans.LiveIn(Asking(w, ts, i), k)
    ensures Got(w, ts, k, 4) == Gone
  {
    hide Phys, Denotes, Run, Overtaken, Got, AllDecodable;
    ts := Chased(w, k, 4);
    GotServes(w, ts, k, 4);
    forall i | 0 <= i < 4 ensures RangeScans.LiveIn(Asking(w, ts, i), k) {
      OvertakenLive(w, ts, k, i);
    }
  }

  lemma OvertakenLive(w: World, ts: seq<Turn>, k: Bytes, i: nat)
    requires i < |ts| && Overtaken(w, ts, k, i)
    ensures RangeScans.LiveIn(Asking(w, ts, i), k)
  {
  }

  // A whole merge between every lookup and its read.
  lemma {:induction false} Chased(w: World, k: Bytes, n: nat) returns (ts: seq<Turn>)
    requires Inv(w) && ScanRace.OnlyKey(w.db, k)
    ensures |ts| == n && Running(ts) && forall i :: 0 <= i < n ==> Overtaken(w, ts, k, i)
    ensures Inv(Past(w, ts, n)) && ScanRace.OnlyKey(Past(w, ts, n).db, k)
    decreases n
  {
    hide Phys, Denotes, Run;
    ts := [];
    if n > 0 {
      var us := Chased(w, k, n - 1);
      var x := Past(w, us, n - 1);
      ScanRace.MergeAgain(x, k);
      ts := us + [Turn([], ScanRace.Relocation(x, k))];
      forall i | 0 <= i <= n - 1 ensures Past(w, ts, i) == Past(w, us, i) {
        SamePast(w, us, ts, i);
      }
      NoSteps(x);
      forall i | 0 <= i < n ensures Overtaken(w, ts, k, i) {
        if i < n - 1 {
          assert Overtaken(w, us, k, i);
        }
      }
    }
  }

  lemma NoSteps(w: World)
    ensures Run(w, []) == w
  {
  }

  lemma {:induction false} SamePast(w: World, us: seq<Turn>, ts: seq<Turn>, n: nat)
    requires us <= ts && n <= |us|
    ensures Past(w, ts, n) == Past(w, us, n)
    decreases n
  {
    hide Run;
    if n > 0 {
      SamePast(w, us, ts, n - 1);
    }
  }
}
