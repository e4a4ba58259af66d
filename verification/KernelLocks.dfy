/** Which of a kernel's resources are locked, kept as bit masks and reader counts
    (kernel/lockstate.go), and how a task's masks are declared
    (kernel/access.go). */
module KernelLocks {
  import opened KernelBits

  const WORD_BITS: nat := 64

  /** Whether mask has resource r. */
  predicate Has(mask: seq<Word>, r: nat) {
    r / WORD_BITS < |mask| && BitSet(mask[r / WORD_BITS], r % WORD_BITS)
  }

  lemma HasAt(mask: seq<Word>, i: nat, b: nat)
    requires i < |mask| && b < WORD_BITS
    ensures Has(mask, i * WORD_BITS + b) <==> BitSet(mask[i], b)
  {
    assert (i * WORD_BITS + b) / WORD_BITS == i && (i * WORD_BITS + b) % WORD_BITS == b;
  }

  /** A task's locks: a bit for each resource it reads, and each it writes. */
  datatype TaskLocks = TaskLocks(readMask: seq<Word>, writeMask: seq<Word>) {
    predicate LocksNothing() {
      |writeMask| == 0
    }

    ghost predicate Touches(r: nat) {
      Has(readMask, r) || Has(writeMask, r)
    }

    /** Reads and writes are disjoint, and touch only the kernel's resources. */
    ghost predicate ResourceOk(resources: nat, r: nat) {
      && !(Has(readMask, r) && Has(writeMask, r))
      && (Touches(r) ==> r < resources)
    }

    ghost predicate Valid(resources: nat) {
      && |readMask| == |writeMask| && |writeMask| <= WordCount(resources)
      && forall r: nat {:trigger ResourceOk(resources, r)} :: ResourceOk(resources, r)
    }
  }

  function WordCount(resources: nat): nat {
    (resources + 63) / WORD_BITS
  }

  /** Two jobs' locks that cannot be held together at resource r. */
  ghost predicate ConflictAt(a: TaskLocks, b: TaskLocks, r: nat) {
    (Has(a.writeMask, r) && b.Touches(r)) || (Has(b.writeMask, r) && a.Touches(r))
  }

  ghost predicate Conflict(a: TaskLocks, b: TaskLocks) {
    exists r: nat :: ConflictAt(a, b, r)
  }

  /** The jobs of held that read resource r. */
  ghost function Readers(held: map<nat, TaskLocks>, r: nat): set<nat> {
    set t | t in held && Has(held[t].readMask, r)
  }

  ghost predicate Written(held: map<nat, TaskLocks>, r: nat) {
    exists t :: t in held && Has(held[t].writeMask, r)
  }

  /** The lock state's fields; reserved is rebuilt on every pass. */
  datatype LockWords = LockWords(writeHeld: seq<Word>, readHeld: seq<Word>, readers: seq<int>, reserved: seq<Word>) {
    ghost predicate Shape() {
      |writeHeld| == |readHeld| == |reserved| == WordCount(|readers|)
    }

    /** The masks and the count of resource r say what the jobs of held hold. */
    ghost predicate HeldOk(held: map<nat, TaskLocks>, r: nat) {
      && (Has(writeHeld, r) <==> Written(held, r))
      && (Has(readHeld, r) <==> Readers(held, r) != {})
      && (r < |readers| ==> readers[r] == |Readers(held, r)|)
    }

    /** The words refine the set of jobs holding locks, no two of which
        conflict. */
    ghost predicate Refines(held: map<nat, TaskLocks>) {
      && Shape()
      && (forall t {:trigger held[t]} | t in held :: held[t].Valid(|readers|))
      && (forall r: nat {:trigger HeldOk(held, r)} :: HeldOk(held, r))
      && (forall t, u {:trigger held[t], held[u]} | t in held && u in held && t != u :: !Conflict(held[t], held[u]))
    }

    /** What keeps locks from being locked at resource r. */
    ghost predicate BlockedAt(locks: TaskLocks, r: nat) {
      ((Has(writeHeld, r) || Has(reserved, r)) && locks.Touches(r)) || (Has(readHeld, r) && Has(locks.writeMask, r))
    }
  }

  /** locks are free exactly when no job holds a conflicting lock, and nothing
      they touch is reserved. */
  lemma FreeMeansNoConflict(s: LockWords, held: map<nat, TaskLocks>, locks: TaskLocks)
    requires s.Refines(held)
    ensures (forall r: nat :: !s.BlockedAt(locks, r)) <==>
              && (forall t | t in held :: !Conflict(held[t], locks))
              && (forall r: nat :: !(Has(s.reserved, r) && locks.Touches(r)))
  {
    if forall r: nat :: !s.BlockedAt(locks, r) {
      forall t | t in held ensures !Conflict(held[t], locks) {
        forall r: nat ensures !ConflictAt(held[t], locks, r) {
          HolderShows(s, held, t, r);
          assert !s.BlockedAt(locks, r);
        }
      }
      forall r: nat ensures !(Has(s.reserved, r) && locks.Touches(r)) { assert !s.BlockedAt(locks, r); }
    }
    if (forall t | t in held :: !Conflict(held[t], locks))
        && (forall r: nat :: !(Has(s.reserved, r) && locks.Touches(r))) {
      forall r: nat ensures !s.BlockedAt(locks, r) {
        assert s.HeldOk(held, r);
        if s.BlockedAt(locks, r) {
          var t := HolderOf(s, held, locks, r);
        }
      }
    }
  }

  lemma HolderShows(s: LockWords, held: map<nat, TaskLocks>, t: nat, r: nat)
    requires s.Refines(held) && t in held
    ensures Has(held[t].writeMask, r) ==> Has(s.writeHeld, r)
    ensures Has(held[t].readMask, r) ==> Has(s.readHeld, r)
  {
    assert s.HeldOk(held, r);
    if Has(held[t].readMask, r) {
      assert t in Readers(held, r);
    }
  }

  lemma HolderOf(s: LockWords, held: map<nat, TaskLocks>, locks: TaskLocks, r: nat) returns (t: nat)
    requires s.Refines(held) && s.BlockedAt(locks, r) && !(Has(s.reserved, r) && locks.Touches(r))
    ensures t in held && Conflict(held[t], locks)
  {
    assert s.HeldOk(held, r);
    if Has(s.writeHeld, r) && locks.Touches(r) {
      t :| t in held && Has(held[t].writeMask, r);
    } else {
      t :| t in Readers(held, r);
    }
    assert ConflictAt(held[t], locks, r);
  }

  /** The words after job t locks locks. */
  ghost predicate Locks(s: LockWords, after: LockWords, locks: TaskLocks) {
    && after.Shape() && |after.readers| == |s.readers| && after.reserved == s.reserved
    && forall r: nat {:trigger Has(locks.readMask, r)} {:trigger Has(locks.writeMask, r)} ::
         && (Has(after.writeHeld, r) <==> Has(s.writeHeld, r) || Has(locks.writeMask, r))
         && (Has(after.readHeld, r) <==> Has(s.readHeld, r) || Has(locks.readMask, r))
         && (r < |s.readers| ==> after.readers[r] == s.readers[r] + (if Has(locks.readMask, r) then 1 else 0))
  }

  lemma LockRefines(s: LockWords, after: LockWords, held: map<nat, TaskLocks>, t: nat, locks: TaskLocks)
    requires s.Refines(held) && t !in held && locks.Valid(|s.readers|) && Locks(s, after, locks)
    requires forall u | u in held :: !Conflict(held[u], locks)
    ensures after.Refines(held[t := locks])
  {
    var more := held[t := locks];
    forall r: nat ensures after.HeldOk(more, r) {
      assert s.HeldOk(held, r);
      LockAddsReader(held, t, locks, r);
      if Written(held, r) {
        var u :| u in held && Has(held[u].writeMask, r);
        assert u in more && Has(more[u].writeMask, r);
      }
      assert Has(locks.writeMask, r) ==> t in more && Has(more[t].writeMask, r);
    }
    forall u, v | u in more && v in more && u != v ensures !Conflict(more[u], more[v]) {
      ConflictIsMutual(more[u], more[v]);
    }
  }

  lemma LockAddsReader(held: map<nat, TaskLocks>, t: nat, locks: TaskLocks, r: nat)
    requires t !in held
    ensures Readers(held[t := locks], r) == Readers(held, r) + (if Has(locks.readMask, r) then {t} else {})
    ensures |Readers(held[t := locks], r)| == |Readers(held, r)| + (if Has(locks.readMask, r) then 1 else 0)
  {
  }

  lemma ConflictIsMutual(a: TaskLocks, b: TaskLocks)
    ensures Conflict(a, b) <==> Conflict(b, a)
  {
    assert forall r: nat :: ConflictAt(a, b, r) <==> ConflictAt(b, a, r);
  }

  /** The words after a job that held locks unlocks them: a read lock is held
      until its last reader finishes. */
  ghost predicate Unlocks(s: LockWords, after: LockWords, locks: TaskLocks) {
    && after.Shape() && |after.readers| == |s.readers| && after.reserved == s.reserved
    && forall r: nat {:trigger Has(locks.readMask, r)} {:trigger Has(locks.writeMask, r)} ::
         && (Has(after.writeHeld, r) <==> Has(s.writeHeld, r) && !Has(locks.writeMask, r))
         && (r < |s.readers| ==> after.readers[r] == s.readers[r] - (if Has(locks.readMask, r) then 1 else 0))
         && (Has(after.readHeld, r) <==>
               Has(s.readHeld, r) && !(Has(locks.readMask, r) && r < |s.readers| && after.readers[r] == 0))
  }

  lemma UnlockRefines(s: LockWords, after: LockWords, held: map<nat, TaskLocks>, t: nat)
    requires s.Refines(held) && t in held && Unlocks(s, after, held[t])
    ensures after.Refines(held - {t})
  {
    var fewer := held - {t};
    forall r: nat ensures after.HeldOk(fewer, r) {
      assert s.HeldOk(held, r) && held[t].ResourceOk(|s.readers|, r);
      UnlockDropsReader(held, t, r);
      UnlockDropsWriter(s, held, t, r);
    }
  }

  lemma UnlockDropsReader(held: map<nat, TaskLocks>, t: nat, r: nat)
    requires t in held
    ensures Readers(held, r) == Readers(held - {t}, r) + (if Has(held[t].readMask, r) then {t} else {})
    ensures |Readers(held, r)| == |Readers(held - {t}, r)| + (if Has(held[t].readMask, r) then 1 else 0)
  {
  }

  /** No other job holds for write what t does. */
  lemma UnlockDropsWriter(s: LockWords, held: map<nat, TaskLocks>, t: nat, r: nat)
    requires s.Refines(held) && t in held
    ensures Written(held - {t}, r) <==> Written(held, r) && !Has(held[t].writeMask, r)
  {
    forall u | u in held && u != t && Has(held[u].writeMask, r) ensures !Has(held[t].writeMask, r) {
      assert !Conflict(held[u], held[t]);
      assert !ConflictAt(held[u], held[t], r);
    }
    if Written(held, r) && !Has(held[t].writeMask, r) {
      var u :| u in held && Has(held[u].writeMask, r);
      assert u in held - {t};
    }
  }

  /** What stands against a word of locks, as canLock gathers it. */
  function WordConflict(writeHeld: Word, reserved: Word, readHeld: Word, read: Word, write: Word): Word {
    Or(And(Or(writeHeld, reserved), Or(read, write)), And(readHeld, write))
  }

  lemma WordConflictBits(writeHeld: Word, reserved: Word, readHeld: Word, read: Word, write: Word, b: nat)
    ensures BitSet(WordConflict(writeHeld, reserved, readHeld, read, write), b) <==>
              ((BitSet(writeHeld, b) || BitSet(reserved, b)) && (BitSet(read, b) || BitSet(write, b)))
                  || (BitSet(readHeld, b) && BitSet(write, b))
  {
    OrBits(And(Or(writeHeld, reserved), Or(read, write)), And(readHeld, write), b);
    AndBits(Or(writeHeld, reserved), Or(read, write), b);
    OrBits(writeHeld, reserved, b);
    OrBits(read, write, b);
    AndBits(readHeld, write, b);
  }

  function ConflictAtWord(s: LockWords, locks: TaskLocks, i: nat): Word
    requires i < |s.writeHeld| && i < |s.readHeld| && i < |s.reserved| && i < |locks.readMask| && i < |locks.writeMask|
  {
    WordConflict(s.writeHeld[i], s.reserved[i], s.readHeld[i], locks.readMask[i], locks.writeMask[i])
  }

  lemma OrIsZero(x: Word, y: Word)
    ensures Or(x, y) == 0 <==> x == 0 && y == 0
  {
  }

  /** Whether none of locks' resources in word i is blocked. */
  ghost predicate WordFree(s: LockWords, locks: TaskLocks, i: nat) {
    forall r: nat {:trigger s.BlockedAt(locks, r)} | r / WORD_BITS == i :: !s.BlockedAt(locks, r)
  }

  lemma ConflictIsBlocked(s: LockWords, locks: TaskLocks, r: nat)
    requires s.Shape() && locks.Valid(|s.readers|) && r / WORD_BITS < |locks.writeMask|
    ensures BitSet(ConflictAtWord(s, locks, r / WORD_BITS), r % WORD_BITS) <==> s.BlockedAt(locks, r)
  {
    var i := r / WORD_BITS;
    WordConflictBits(s.writeHeld[i], s.reserved[i], s.readHeld[i], locks.readMask[i], locks.writeMask[i],
        r % WORD_BITS);
  }

  lemma WordConflictIsZero(s: LockWords, locks: TaskLocks, i: nat)
    requires s.Shape() && locks.Valid(|s.readers|) && i < |locks.writeMask|
    ensures ConflictAtWord(s, locks, i) == 0 <==> WordFree(s, locks, i)
  {
    SomeBit(ConflictAtWord(s, locks, i));
    if ConflictAtWord(s, locks, i) != 0 {
      var b: nat :| b < WORD_BITS && BitSet(ConflictAtWord(s, locks, i), b);
      HasAt(locks.writeMask, i, b);
      ConflictIsBlocked(s, locks, i * WORD_BITS + b);
      assert s.BlockedAt(locks, i * WORD_BITS + b);
    } else {
      forall r: nat | r / WORD_BITS == i ensures !s.BlockedAt(locks, r) {
        ConflictIsBlocked(s, locks, r);
      }
    }
  }

  lemma WordsFree(s: LockWords, locks: TaskLocks)
    requires s.Shape() && locks.Valid(|s.readers|)
    ensures (forall i: nat {:trigger WordFree(s, locks, i)} | i < |locks.writeMask| :: WordFree(s, locks, i)) <==>
            (forall r: nat :: !s.BlockedAt(locks, r))
  {
    if forall i: nat | i < |locks.writeMask| :: WordFree(s, locks, i) {
      forall r: nat ensures !s.BlockedAt(locks, r) {
        if r / WORD_BITS < |locks.writeMask| {
          assert WordFree(s, locks, r / WORD_BITS);
        }
      }
    }
  }

  /** Resource r of the words once those of locks before the i-th are locked. */
  ghost predicate LockedAt(s: LockWords, t: LockWords, locks: TaskLocks, r: nat, i: nat) {
    var on := r / WORD_BITS < i;
    && (Has(t.writeHeld, r) <==> Has(s.writeHeld, r) || (on && Has(locks.writeMask, r)))
    && (Has(t.readHeld, r) <==> Has(s.readHeld, r) || (on && Has(locks.readMask, r)))
    && (r < |t.readers| && r < |s.readers| ==>
          t.readers[r] == s.readers[r] + (if on && Has(locks.readMask, r) then 1 else 0))
  }

  lemma LockWord(s: LockWords, u: LockWords, t: LockWords, locks: TaskLocks, i: nat, r: nat)
    requires LockedAt(s, u, locks, r, i) && i < |locks.writeMask| == |locks.readMask|
    requires OredAt(u.writeHeld, t.writeHeld, i, locks.writeMask, r)
             && OredAt(u.readHeld, t.readHeld, i, locks.readMask, r)
    requires |t.readers| == |u.readers|
    requires r < |t.readers| ==>
             t.readers[r] == u.readers[r] + (if r / WORD_BITS == i && Has(locks.readMask, r) then 1 else 0)
    ensures LockedAt(s, t, locks, r, i + 1)
  {
  }

  /** Resource r of a mask once word i of more is added to it. */
  ghost predicate OredAt(mask: seq<Word>, after: seq<Word>, i: nat, more: seq<Word>, r: nat) {
    Has(after, r) <==> Has(mask, r) || (r / WORD_BITS == i && Has(more, r))
  }

  /** mask[i] |= more[i]. */
  method OrWord(mask: seq<Word>, i: nat, more: seq<Word>) returns (after: seq<Word>)
    requires i < |mask| && i < |more|
    ensures |after| == |mask|
            && forall r: nat {:trigger OredAt(mask, after, i, more, r)} :: OredAt(mask, after, i, more, r)
  {
    after := mask[i := Or(mask[i], more[i])];
    forall r: nat ensures OredAt(mask, after, i, more, r) {
      OrBits(mask[i], more[i], r % WORD_BITS);
    }
  }

  /** mask[i] &^= less[i]. */
  method AndNotWord(mask: seq<Word>, i: nat, less: seq<Word>) returns (after: seq<Word>)
    requires i < |mask| && i < |less|
    ensures |after| == |mask|
    ensures forall r: nat {:trigger Has(after, r)} ::
            Has(after, r) <==> Has(mask, r) && !(r / WORD_BITS == i && Has(less, r))
  {
    forall r: nat
      ensures Has(mask[i := AndNot(mask[i], less[i])], r) <==> Has(mask, r) && !(r / WORD_BITS == i && Has(less, r))
    {
      AndNotBits(mask[i], less[i], r % WORD_BITS);
    }
    after := mask[i := AndNot(mask[i], less[i])];
  }

  /** mask[i] &^= 1 << bit. */
  method ClearBit(mask: seq<Word>, i: nat, bit: nat) returns (after: seq<Word>)
    requires i < |mask| && bit < WORD_BITS
    ensures |after| == |mask|
    ensures forall r: nat {:trigger Has(after, r)} :: Has(after, r) <==> Has(mask, r) && r != i * WORD_BITS + bit
  {
    forall r: nat
      ensures Has(mask[i := AndNot(mask[i], OneBit(bit))], r) <==> Has(mask, r) && r != i * WORD_BITS + bit
    {
      AndNotBits(mask[i], OneBit(bit), r % WORD_BITS);
      OneBitBits(bit, r % WORD_BITS);
      assert r == i * WORD_BITS + bit <==> r / WORD_BITS == i && r % WORD_BITS == bit;
    }
    after := mask[i := AndNot(mask[i], OneBit(bit))];
  }

  /** One turn of a loop over word's bits: its lowest, and the rest. */
  method TakeLowest(word: Word) returns (bit: nat, rest: Word)
    requires word != 0
    ensures bit < WORD_BITS && BitSet(word, bit) && rest < word
    ensures forall b: nat {:trigger BitSet(rest, b)} {:trigger BitSet(word, b)} ::
            BitSet(rest, b) <==> BitSet(word, b) && b != bit
  {
    bit := TrailingZeros(word);
    BitsBelow(word, bit);
    forall b: nat ensures BitSet(WithoutLowest(word), b) <==> BitSet(word, b) && b != bit {
      WithoutLowestBits(word, b);
    }
    WithoutLowestIsSmaller(word);
    rest := WithoutLowest(word);
  }

  /** Whether the loop over word i of read has come past resource r, with left
      of the word to go. */
  ghost predicate Passed(read: seq<Word>, i: nat, left: Word, r: nat) {
    r / WORD_BITS == i && Has(read, r) && !BitSet(left, r % WORD_BITS)
  }

  /** Resource r of the words with one reader of it less once passed. */
  ghost predicate DroppedAt(s: LockWords, t: LockWords, read: seq<Word>, i: nat, left: Word, r: nat) {
    && (r < |t.readers| && r < |s.readers| ==>
          t.readers[r] == s.readers[r] - (if Passed(read, i, left, r) then 1 else 0))
    && (Has(t.readHeld, r) <==>
          Has(s.readHeld, r) && !(Passed(read, i, left, r) && r < |t.readers| && t.readers[r] == 0))
  }

  lemma DropBit(s: LockWords, u: LockWords, t: LockWords, read: seq<Word>, i: nat, left: Word, rest: Word, bit: nat,
                r: nat)
    requires DroppedAt(s, u, read, i, left, r) && bit < WORD_BITS && i * WORD_BITS + bit < |u.readers| == |s.readers|
    requires i < |read| && BitSet(read[i], bit) && BitSet(left, bit)
    requires BitSet(rest, r % WORD_BITS) <==> BitSet(left, r % WORD_BITS) && r % WORD_BITS != bit
    requires t.readers == u.readers[i * WORD_BITS + bit := u.readers[i * WORD_BITS + bit] - 1]
    requires Has(t.readHeld, r) <==>
             Has(u.readHeld, r) && !(r == i * WORD_BITS + bit && t.readers[i * WORD_BITS + bit] == 0)
    ensures DroppedAt(s, t, read, i, rest, r)
  {
    assert r == i * WORD_BITS + bit <==> r / WORD_BITS == i && r % WORD_BITS == bit;
    assert Passed(read, i, rest, r) <==> Passed(read, i, left, r) || r == i * WORD_BITS + bit;
  }

  class LockState {
    /** Every mask and count, in one record. */
    var s: LockWords
    /** The jobs that hold locks, and what they hold. */
    ghost var held: map<nat, TaskLocks>

    ghost predicate Valid()
      reads this
    {
      s.Refines(held)
    }

    constructor (resources: nat)
      ensures Valid() && held == map[] && |s.readers| == resources
      ensures forall r :: !Has(s.reserved, r)
    {
      var words := seq(WordCount(resources), _ => 0);
      s := LockWords(words, words, seq(resources, _ => 0), words);
      held := map[];
      new;
      forall r: nat ensures !Has(words, r) { NoBits(r % WORD_BITS); }
    }

    /** Whether every lock of locks is free. */
    method CanLock(locks: TaskLocks) returns (free: bool)
      requires Valid() && locks.Valid(|s.readers|)
      ensures free <==>
                && (forall t | t in held :: !Conflict(held[t], locks))
                && (forall r: nat :: !(Has(s.reserved, r) && locks.Touches(r)))
    {
      var conflict: Word := 0;
      for i := 0 to |locks.writeMask|
        invariant conflict == 0 <==> forall k: nat {:trigger WordFree(s, locks, k)} | k < i :: WordFree(s, locks, k)
      {
        WordConflictIsZero(s, locks, i);
        OrIsZero(conflict, ConflictAtWord(s, locks, i));
        conflict := Or(conflict, ConflictAtWord(s, locks, i));
      }
      WordsFree(s, locks);
      FreeMeansNoConflict(s, held, locks);
      free := conflict == 0;
    }

    /** Counts one more reader of each resource in word i of read. */
    method CountReaders(read: seq<Word>, i: nat)
      requires i < |read| && s.Shape() && forall r: nat {:trigger Has(read, r)} :: Has(read, r) ==> r < |s.readers|
      modifies `s
      ensures s == old(s).(readers := s.readers) && |s.readers| == |old(s).readers|
      ensures forall r: nat {:trigger s.readers[r]} | r < |s.readers| ::
                s.readers[r] == old(s).readers[r] + (if r / WORD_BITS == i && Has(read, r) then 1 else 0)
    {
      ghost var before := s;
      var word := read[i];
      while word != 0
        invariant s == before.(readers := s.readers) && |s.readers| == |before.readers|
        invariant forall b: nat {:trigger BitSet(word, b)} :: BitSet(word, b) ==> BitSet(read[i], b)
        invariant forall r: nat {:trigger s.readers[r]} | r < |s.readers| ::
          s.readers[r] ==
              before.readers[r] + (if r / WORD_BITS == i && Has(read, r) && !BitSet(word, r % WORD_BITS) then 1 else 0)
        decreases word
      {
        var bit, rest := TakeLowest(word);
        HasAt(read, i, bit);
        var index := i * WORD_BITS + bit;
        s := s.(readers := s.readers[index := s.readers[index] + 1]);
        assert forall r: nat :: r == index <==> r / WORD_BITS == i && r % WORD_BITS == bit;
        word := rest;
      }
      forall b: nat ensures !BitSet(0, b) { NoBits(b); }
    }

    /** Locks every resource of locks, which are free, for job. */
    method Lock(locks: TaskLocks, ghost job: nat)
      requires Valid() && job !in held && locks.Valid(|s.readers|)
      requires forall t | t in held :: !Conflict(held[t], locks)
      modifies this
      ensures Valid() && held == old(held)[job := locks] && |s.readers| == |old(s).readers|
              && s.reserved == old(s).reserved
    {
      ghost var before := s;
      for i := 0 to |locks.writeMask|
        invariant s.Shape() && |s.readers| == |before.readers| && s.reserved == before.reserved && held == old(held)
        invariant forall r: nat {:trigger LockedAt(before, s, locks, r, i)} :: LockedAt(before, s, locks, r, i)
      {
        ghost var u := s;
        var writeHeld := OrWord(s.writeHeld, i, locks.writeMask);
        var readHeld := OrWord(s.readHeld, i, locks.readMask);
        s := s.(writeHeld := writeHeld, readHeld := readHeld);
        forall r: nat {:trigger Has(locks.readMask, r)} | Has(locks.readMask, r) ensures r < |s.readers| {
          assert locks.ResourceOk(|before.readers|, r);
        }
        CountReaders(locks.readMask, i);
        forall r: nat {:trigger LockedAt(before, s, locks, r, i + 1)} ensures LockedAt(before, s, locks, r, i + 1) {
          assert OredAt(u.writeHeld, writeHeld, i, locks.writeMask, r)
                 && OredAt(u.readHeld, readHeld, i, locks.readMask, r);
          assert LockedAt(before, u, locks, r, i);
          LockWord(before, u, s, locks, i, r);
        }
      }
      forall r: nat
        ensures (Has(s.writeHeld, r) <==> Has(before.writeHeld, r) || Has(locks.writeMask, r))
        ensures (Has(s.readHeld, r) <==> Has(before.readHeld, r) || Has(locks.readMask, r))
        ensures r < |before.readers| ==> s.readers[r] == before.readers[r] + (if Has(locks.readMask, r) then 1 else 0)
      {
        assert LockedAt(before, s, locks, r, |locks.writeMask|);
      }
      LockRefines(before, s, held, job, locks);
      held := held[job := locks];
    }

    /** Counts one reader less of each resource in word i of read, and frees the
        read lock of each that has none left. */
    method DropReaders(read: seq<Word>, i: nat)
      requires i < |read| && i < |s.readHeld| && s.Shape()
      requires forall r: nat {:trigger Has(read, r)} :: Has(read, r) ==> r < |s.readers|
      modifies `s
      ensures s == old(s).(readers := s.readers, readHeld := s.readHeld) && s.Shape() && |s.readers| == |old(s).readers|
      ensures forall r: nat {:trigger DroppedAt(old(s), s, read, i, 0, r)} :: DroppedAt(old(s), s, read, i, 0, r)
    {
      ghost var before := s;
      var word := read[i];
      forall b: nat ensures !BitSet(0, b) { NoBits(b); }
      while word != 0
        invariant s == before.(readers := s.readers, readHeld := s.readHeld) && s.Shape()
                  && |s.readers| == |before.readers|
        invariant forall b: nat {:trigger BitSet(word, b)} :: BitSet(word, b) ==> BitSet(read[i], b)
        invariant forall r: nat {:trigger DroppedAt(before, s, read, i, word, r)} ::
                  DroppedAt(before, s, read, i, word, r)
        decreases word
      {
        ghost var u := s;
        var bit, rest := TakeLowest(word);
        HasAt(read, i, bit);
        var index := i * WORD_BITS + bit;
        s := s.(readers := s.readers[index := s.readers[index] - 1]);
        if s.readers[index] == 0 {
          var readHeld := ClearBit(s.readHeld, i, bit);
          s := s.(readHeld := readHeld);
        }
        forall r: nat ensures DroppedAt(before, s, read, i, rest, r) {
          assert DroppedAt(before, u, read, i, word, r);
          DropBit(before, u, s, read, i, word, rest, bit, r);
        }
        word := rest;
      }
    }

    /** Frees every resource of locks, as job, which locked them,
        finishes. */
    method Unlock(locks: TaskLocks, ghost job: nat)
      requires Valid() && job in held && held[job] == locks
      modifies this
      ensures Valid() && held == old(held) - {job} && |s.readers| == |old(s).readers| && s.reserved == old(s).reserved
    {
      ghost var before := s;
      assert locks.Valid(|s.readers|);
      for i := 0 to |locks.writeMask|
        invariant s.Shape() && |s.readers| == |before.readers| && s.reserved == before.reserved && held == old(held)
        invariant forall r: nat {:trigger UnlockedAt(before, s, locks, r, i)} :: UnlockedAt(before, s, locks, r, i)
      {
        ghost var u := s;
        var writeHeld := AndNotWord(s.writeHeld, i, locks.writeMask);
        s := s.(writeHeld := writeHeld);
        ghost var v := s;
        forall r: nat {:trigger Has(locks.readMask, r)} | Has(locks.readMask, r) ensures r < |s.readers| {
          assert locks.ResourceOk(|before.readers|, r);
        }
        DropReaders(locks.readMask, i);
        forall r: nat {:trigger UnlockedAt(before, s, locks, r, i + 1)} ensures UnlockedAt(before, s, locks, r, i + 1) {
          assert UnlockedAt(before, u, locks, r, i) && DroppedAt(v, s, locks.readMask, i, 0, r);
          NoBits(r % WORD_BITS);
          UnlockWord(before, u, v, s, locks, i, r);
        }
      }
      UnlocksAll(before, s, locks);
      UnlockRefines(before, s, held, job);
      held := held - {job};
    }

    /** Keeps every resource locks writes for it, against the jobs behind it. */
    method Reserve(locks: TaskLocks)
      requires Valid() && locks.Valid(|s.readers|)
      modifies `s
      ensures Valid() && |s.readers| == |old(s).readers|
      ensures forall r: nat {:trigger Has(s.reserved, r)} ::
              Has(s.reserved, r) <==> Has(old(s).reserved, r) || Has(locks.writeMask, r)
    {
      ghost var before := s;
      for i := 0 to |locks.writeMask|
        invariant s == before.(reserved := s.reserved) && s.Shape()
        invariant forall r: nat {:trigger Has(s.reserved, r)} ::
          Has(s.reserved, r) <==> Has(before.reserved, r) || (r / WORD_BITS < i && Has(locks.writeMask, r))
      {
        ghost var u := s;
        var reserved := OrWord(s.reserved, i, locks.writeMask);
        s := s.(reserved := reserved);
        forall r: nat
          ensures Has(s.reserved, r) <==> Has(before.reserved, r) || (r / WORD_BITS < i + 1 && Has(locks.writeMask, r))
        {
          assert OredAt(u.reserved, reserved, i, locks.writeMask, r);
        }
      }
      ReservedKeepsRefines(before, s, held);
    }

    /** Drops every reservation, before a new pass over the waiting jobs. */
    method ClearReservations()
      requires Valid()
      modifies `s
      ensures Valid() && |s.readers| == |old(s).readers|
      ensures forall r: nat {:trigger Has(s.reserved, r)} :: !Has(s.reserved, r)
    {
      ghost var before := s;
      s := s.(reserved := seq(|s.reserved|, _ => 0));
      forall r: nat ensures !Has(s.reserved, r) { NoBits(r % WORD_BITS); }
      ReservedKeepsRefines(before, s, held);
    }
  }

  lemma ReservedKeepsRefines(s: LockWords, t: LockWords, held: map<nat, TaskLocks>)
    requires s.Refines(held) && t == s.(reserved := t.reserved) && t.Shape()
    ensures t.Refines(held)
  {
    forall r: nat ensures t.HeldOk(held, r) { assert s.HeldOk(held, r); }
  }

  /** Resource r of the words once those of locks before the i-th are unlocked. */
  ghost predicate UnlockedAt(s: LockWords, t: LockWords, locks: TaskLocks, r: nat, i: nat) {
    var off := r / WORD_BITS < i;
    && (Has(t.writeHeld, r) <==> Has(s.writeHeld, r) && !(off && Has(locks.writeMask, r)))
    && (r < |t.readers| && r < |s.readers| ==>
          t.readers[r] == s.readers[r] - (if off && Has(locks.readMask, r) then 1 else 0))
    && (Has(t.readHeld, r) <==>
          Has(s.readHeld, r) && !(off && Has(locks.readMask, r) && r < |t.readers| && t.readers[r] == 0))
  }

  lemma UnlockWord(s: LockWords, u: LockWords, v: LockWords, t: LockWords, locks: TaskLocks, i: nat, r: nat)
    requires UnlockedAt(s, u, locks, r, i) && i < |locks.readMask| == |locks.writeMask|
    requires |s.readers| == |u.readers| == |t.readers|
    requires v == u.(writeHeld := v.writeHeld) && t.writeHeld == v.writeHeld
    requires Has(v.writeHeld, r) <==> Has(u.writeHeld, r) && !(r / WORD_BITS == i && Has(locks.writeMask, r))
    requires DroppedAt(v, t, locks.readMask, i, 0, r) && !BitSet(0, r % WORD_BITS)
    ensures UnlockedAt(s, t, locks, r, i + 1)
  {
    assert Passed(locks.readMask, i, 0, r) <==> r / WORD_BITS == i && Has(locks.readMask, r);
  }

  lemma UnlocksAll(s: LockWords, t: LockWords, locks: TaskLocks)
    requires t.Shape() && |t.readers| == |s.readers| && t.reserved == s.reserved
             && |locks.readMask| == |locks.writeMask|
    requires forall r: nat {:trigger UnlockedAt(s, t, locks, r, |locks.writeMask|)} ::
             UnlockedAt(s, t, locks, r, |locks.writeMask|)
    ensures Unlocks(s, t, locks)
  {
    forall r: nat
      ensures (Has(t.writeHeld, r) <==> Has(s.writeHeld, r) && !Has(locks.writeMask, r))
      ensures r < |s.readers| ==> t.readers[r] == s.readers[r] - (if Has(locks.readMask, r) then 1 else 0)
      ensures (Has(t.readHeld, r) <==>
              Has(s.readHeld, r) && !(Has(locks.readMask, r) && r < |s.readers| && t.readers[r] == 0))
    {
      assert UnlockedAt(s, t, locks, r, |locks.writeMask|);
    }
  }

  /** A task's masks while its constructor declares them. */
  class Access {
    var masks: TaskLocks
    const resources: nat

    ghost predicate Valid()
      reads this
    {
      masks.Valid(resources)
    }

    constructor (resources: nat)
      ensures Valid() && this.resources == resources && forall r: nat :: !masks.Touches(r)
    {
      masks := TaskLocks([], []);
      this.resources := resources;
    }

    /** Lengthens the masks to at least words words, the new ones locking
        nothing. */
    method GrowMasks(words: nat)
      requires Valid() && words <= WordCount(resources)
      modifies this
      ensures Valid() && |masks.writeMask| >= words
      ensures forall r: nat :: Has(masks.readMask, r) <==> Has(old(masks).readMask, r)
      ensures forall r: nat :: Has(masks.writeMask, r) <==> Has(old(masks).writeMask, r)
    {
      ghost var before := masks;
      while |masks.writeMask| < words
        invariant |masks.readMask| == |masks.writeMask| <= WordCount(resources)
        invariant forall r: nat {:trigger Has(masks.readMask, r)} :: Has(masks.readMask, r) <==> Has(before.readMask, r)
        invariant forall r: nat {:trigger Has(masks.writeMask, r)} ::
                  Has(masks.writeMask, r) <==> Has(before.writeMask, r)
        decreases words - |masks.writeMask|
      {
        ghost var u := masks;
        masks := TaskLocks(masks.readMask + [0], masks.writeMask + [0]);
        forall r: nat
          ensures Has(masks.readMask, r) <==> Has(u.readMask, r)
          ensures Has(masks.writeMask, r) <==> Has(u.writeMask, r)
        {
          NoBits(r % WORD_BITS);
        }
      }
      forall r: nat ensures masks.ResourceOk(resources, r) { assert before.ResourceOk(resources, r); }
    }

    /** Declares a read lock on resource index, unless it is already written. */
    method Read(index: nat)
      requires Valid() && index < resources
      modifies this
      ensures Valid()
      ensures forall r: nat {:trigger Has(masks.writeMask, r)} ::
              Has(masks.writeMask, r) <==> Has(old(masks).writeMask, r)
      ensures forall r: nat {:trigger Has(masks.readMask, r)} :: Has(masks.readMask, r) <==>
                Has(old(masks).readMask, r) || (r == index && !Has(old(masks).writeMask, r))
    {
      GrowMasks(index / WORD_BITS + 1);
      ghost var before := masks;
      if !Has(masks.writeMask, index) {
        var readMask := SetBit(masks.readMask, index);
        masks := masks.(readMask := readMask);
      }
      forall r: nat ensures masks.ResourceOk(resources, r) { assert before.ResourceOk(resources, r); }
    }

    /** Declares a write lock on resource index, which supersedes a read lock. */
    method Write(index: nat)
      requires Valid() && index < resources
      modifies this
      ensures Valid()
      ensures forall r: nat {:trigger Has(masks.writeMask, r)} ::
              Has(masks.writeMask, r) <==> Has(old(masks).writeMask, r) || r == index
      ensures forall r: nat {:trigger Has(masks.readMask, r)} ::
              Has(masks.readMask, r) <==> Has(old(masks).readMask, r) && r != index
    {
      GrowMasks(index / WORD_BITS + 1);
      ghost var before := masks;
      var writeMask := SetBit(masks.writeMask, index);
      var readMask := ClearBit(masks.readMask, index / WORD_BITS, index % WORD_BITS);
      masks := TaskLocks(readMask, writeMask);
      forall r: nat ensures masks.ResourceOk(resources, r) { assert before.ResourceOk(resources, r); }
    }

    /** Folds in every lock of a task this one calls: what either writes is
        written, and what either reads and neither writes is read. */
    method Use(used: TaskLocks)
      requires Valid() && used.Valid(resources)
      modifies this
      ensures Valid()
      ensures forall r: nat {:trigger Has(masks.writeMask, r)} ::
              Has(masks.writeMask, r) <==> Has(old(masks).writeMask, r) || Has(used.writeMask, r)
      ensures forall r: nat {:trigger Has(masks.readMask, r)} :: Has(masks.readMask, r) <==>
                (Has(old(masks).readMask, r) || Has(used.readMask, r)) && !Has(old(masks).writeMask, r)
                    && !Has(used.writeMask, r)
    {
      GrowMasks(|used.writeMask|);
      ghost var before := masks;
      for i := 0 to |used.writeMask|
        invariant |masks.readMask| == |masks.writeMask| == |before.writeMask|
        invariant forall r: nat {:trigger UsedAt(before, masks, used, i, r)} :: UsedAt(before, masks, used, i, r)
      {
        ghost var u := masks;
        var writeMask := OrWord(masks.writeMask, i, used.writeMask);
        var both := OrWord(masks.readMask, i, used.readMask);
        var readMask := AndNotWord(both, i, writeMask);
        masks := TaskLocks(readMask, writeMask);
        forall r: nat {:trigger UsedAt(before, masks, used, i + 1, r)} ensures UsedAt(before, masks, used, i + 1, r) {
          assert UsedAt(before, u, used, i, r) && before.ResourceOk(resources, r);
          assert OredAt(u.writeMask, writeMask, i, used.writeMask, r) && OredAt(u.readMask, both, i, used.readMask, r);
        }
      }
      forall r: nat
        ensures masks.ResourceOk(resources, r)
        ensures Has(masks.writeMask, r) <==> Has(before.writeMask, r) || Has(used.writeMask, r)
        ensures Has(masks.readMask, r) <==>
                  (Has(before.readMask, r) || Has(used.readMask, r)) && !Has(before.writeMask, r)
                      && !Has(used.writeMask, r)
      {
        assert UsedAt(before, masks, used, |used.writeMask|, r) && before.ResourceOk(resources, r)
               && used.ResourceOk(resources, r);
      }
    }
  }

  /** Resource r of a task's masks once the words of used before the i-th are
      folded in. */
  ghost predicate UsedAt(before: TaskLocks, masks: TaskLocks, used: TaskLocks, i: nat, r: nat) {
    var on := r / WORD_BITS < i;
    && (Has(masks.writeMask, r) <==> Has(before.writeMask, r) || (on && Has(used.writeMask, r)))
    && (Has(masks.readMask, r) <==>
          (Has(before.readMask, r) || (on && Has(used.readMask, r)))
              && !(on && (Has(before.writeMask, r) || Has(used.writeMask, r))))
  }

  /** mask[word] |= bit, for the word and bit of resource index. */
  method SetBit(mask: seq<Word>, index: nat) returns (after: seq<Word>)
    requires index / WORD_BITS < |mask|
    ensures |after| == |mask|
    ensures forall r: nat {:trigger Has(after, r)} :: Has(after, r) <==> Has(mask, r) || r == index
  {
    var word, bit := index / WORD_BITS, index % WORD_BITS;
    after := mask[word := Or(mask[word], OneBit(bit))];
    forall r: nat ensures Has(after, r) <==> Has(mask, r) || r == index {
      OrBits(mask[word], OneBit(bit), r % WORD_BITS);
      OneBitBits(bit, r % WORD_BITS);
      assert r == index <==> r / WORD_BITS == word && r % WORD_BITS == bit;
    }
  }
}
