/** Recounting the bytes on disk after a merge while writers carry on. The recount reads the
    file sizes and stores the total in two steps, and a write grows its file and adds to the
    total in two steps, under a different lock. */
module Recount {
  import opened Records
  import opened Log
  import opened Engine
  import opened Invariant
  import opened Usage

  // size is what the files hold, total and live the counters. A writer that has grown its file
  // and not yet added to the total has some bytes pending; writers exclude each other. A recount
  // in flight has its sample.
  datatype Books = Books(size: nat, total: int, live: nat, pending: nat, writing: bool, sample: nat)

  datatype Step =
    | Grow(n: nat)     // a writer extends the active file
    | Add              // and adds to the total
    | Reindex(l: nat)  // the index changes; EngineCovered and GrowingCovered show why l is bounded
    | Sample           // the recount has read the active file's size
    | Install          // and stores the total

  function Next(b: Books, s: Step): Books {
    match s
    case Grow(n) => if b.writing then b else b.(size := b.size + n, pending := n, writing := true)
    case Add => if b.writing then b.(total := b.total + b.pending, pending := 0, writing := false) else b
    case Reindex(l) => if l + b.pending <= b.size then b.(live := l) else b
    case Sample => b.(sample := b.size)
    case Install => b.(total := b.sample)
  }

  function Run(b: Books, ss: seq<Step>): Books {
    if ss == [] then b else Next(Run(b, ss[..|ss| - 1]), ss[|ss| - 1])
  }

  // How far the total is off, once a write in flight has been added.
  function Drift(b: Books): int { b.total + b.pending - b.size }

  // What the index leads to has been added; what is pending has not been indexed.
  ghost predicate Covered(b: Books) { b.live + b.pending <= b.size && (!b.writing ==> b.pending == 0) }

  predicate Writers(ss: seq<Step>) { forall i :: 0 <= i < |ss| ==> ss[i].Grow? || ss[i].Add? || ss[i].Reindex? }

  // Writes leave the error as it is, for good or ill, until the next recount.
  lemma {:induction false} WritersKeep(b: Books, ss: seq<Step>)
    requires Covered(b) && Writers(ss)
    ensures Covered(Run(b, ss)) && Drift(Run(b, ss)) == Drift(b)
    ensures b.size <= Run(b, ss).size && Run(b, ss).sample == b.sample
  {
    if ss != [] {
      WritersKeep(b, ss[..|ss| - 1]);
    }
  }

  // --- one recount ---------------------------------------------------------------------------------

  // The bytes of writes that both grew and were added between the sample and its installation.
  function Lost(b: Books, ss: seq<Step>): nat {
    if ss == [] then 0
    else
      var init, s := ss[..|ss| - 1], ss[|ss| - 1];
      var p := Run(b, init);
      Lost(b, init) + if s.Add? && p.writing && Began(b, init) then p.pending else 0
  }

  // The write in flight, if any, began after the sample.
  predicate Began(b: Books, ss: seq<Step>) {
    if ss == [] then false
    else
      var init, s := ss[..|ss| - 1], ss[|ss| - 1];
      if s.Grow? && !Run(b, init).writing then true else if s.Add? then false else Began(b, init)
  }

  // The bytes of a write that grew before the sample and is added after the installation.
  function Twice(b: Books, ss: seq<Step>): nat {
    if Began(b, ss) then 0 else Run(b, ss).pending
  }

  lemma {:induction false} Window(b: Books, ss: seq<Step>)
    requires Covered(b) && Writers(ss)
    ensures Run(b, ss).size - b.size == Lost(b, ss) + if Began(b, ss) then Run(b, ss).pending else 0
    ensures Began(b, ss) ==> Run(b, ss).writing
    ensures !Began(b, ss) && Run(b, ss).writing ==>
              Run(b, ss).pending == b.pending && b.writing && Run(b, ss).size == b.size
  {
    if ss != [] {
      var init := ss[..|ss| - 1];
      Window(b, init);
      WritersKeep(b, init);
    }
  }

  function Recounted(b: Books, ss: seq<Step>): Books { Next(Run(Next(b, Sample), ss), Install) }

  // After a recount the total is off by exactly the write it counted twice, less the writes it
  // lost. It is right if and only if there are neither.
  lemma RecountDrift(b: Books, ss: seq<Step>)
    requires Covered(b) && Writers(ss)
    ensures var w := Next(b, Sample);
            && Drift(Recounted(b, ss)) == Twice(w, ss) - Lost(w, ss)
            && (Twice(w, ss) == 0 || Lost(w, ss) == 0)
            && (Drift(Recounted(b, ss)) == 0 <==> Twice(w, ss) == 0 && Lost(w, ss) == 0)
            && Covered(Recounted(b, ss))
  {
    var w := Next(b, Sample);
    Window(w, ss);
    WritersKeep(w, ss);
    NothingLost(w, ss);
  }

  // A write that spans the recount leaves no room for another.
  lemma {:induction false} NothingLost(b: Books, ss: seq<Step>)
    requires Covered(b) && Writers(ss)
    ensures !Began(b, ss) && Run(b, ss).writing ==> Lost(b, ss) == 0
  {
    if ss != [] {
      NothingLost(b, ss[..|ss| - 1]);
    }
  }

  // --- the clamp -------------------------------------------------------------------------------------

  function DeadBytes(b: Books): nat { if b.total - b.live > 0 then b.total - b.live else 0 }

  // With nothing lost the difference is never negative.
  lemma ClampIdle(b: Books)
    requires Covered(b) && 0 <= Drift(b)
    ensures DeadBytes(b) == b.total - b.live
  {
  }

  // Everything on disk is live. A write grows its file, is added and is indexed while a recount
  // holds its sample: the total ends up short of what is live, with nobody at work any more, and
  // the clamp hides it.
  lemma ClampActs(size: nat, n: nat)
    requires 0 < n
    ensures var b := Recounted(Books(size, size, size, 0, false, 0), [Grow(n), Add, Reindex(size + n)]);
            && !b.writing && b.total == size && b.live == b.size == size + n && Drift(b) + n == 0
            && b.total - b.live < 0 && DeadBytes(b) == 0
  {
    var b, ss := Next(Books(size, size, size, 0, false, 0), Sample), [Grow(n), Add, Reindex(size + n)];
    assert ss[..2] == [Grow(n), Add] && ss[..2][..1] == [Grow(n)] && ss[..2][..1][..0] == [];
    assert Run(b, ss[..2][..1]) == Next(b, Grow(n));
    assert Run(b, ss[..2]) == Next(Next(b, Grow(n)), Add);
  }

  // --- the engine's books -------------------------------------------------------------------------------

  // Between writes: every entry leads to bytes of its own.
  lemma EngineCovered(fs: Files, ix: Index, total: int, sample: nat)
    requires Pointing(fs, ix)
    ensures Covered(Books(Total(fs), total, Sum(ix, Bytes1), 0, false, sample))
  {
    hide Total, Sum;
    LiveWithinTotal(fs, ix);
  }

  // Inside a write: the file has grown, the index does not lead to the new records yet.
  lemma GrowingCovered(fs: Files, ix: Index, id: nat, g: seq<Record>, total: int, sample: nat)
    requires Pointing(fs, ix) && id in fs
    ensures var gs := fs[id := File(fs[id].recs + g, fs[id].tail)];
            Covered(Books(Total(gs), total, Sum(ix, Bytes1), SizeAll(g), true, sample))
  {
    hide Total, Sum, SizeAll;
    LiveWithinTotal(fs, ix);
    TotalPut(fs, id, File(fs[id].recs + g, fs[id].tail));
    SizeAllConcat(fs[id].recs, g);
  }
}
