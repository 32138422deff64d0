/** Token renewal as in section 6 of RFC 6749: one conditional UPDATE to lock, one to replace the
    credential it read, one to unlock. Ciphertexts and lock tokens are never produced twice. */
module Credentials {
  import opened Prelude

  datatype Cipher = Cipher(id: nat)
  datatype Lock = Lock(id: nat)
  datatype Worker = Worker(id: nat)

  const LOCK_DURATION: int := 2 * 60

  /** The credential columns of one provider account. */
  datatype Row = Row(cipher: Option<Cipher>, lock: Option<Lock>, lockUntil: int)

  predicate CanLock(row: Row, original: Cipher, started: int) {
    row.cipher == Some(original) && (row.lock.None? || row.lockUntil < started)
  }

  function Locked(row: Row, original: Cipher, lock: Lock, started: int): Row {
    if CanLock(row, original, started) then row.(lock := Some(lock), lockUntil := started + LOCK_DURATION) else row
  }

  predicate CanCommit(row: Row, original: Cipher, lock: Lock, now: int) {
    row.cipher == Some(original) && row.lock == Some(lock) && row.lockUntil > now
  }

  function Committed(row: Row, original: Cipher, lock: Lock, now: int, renewed: Cipher): Row {
    if CanCommit(row, original, lock, now) then row.(cipher := Some(renewed)) else row
  }

  function Unlocked(row: Row, lock: Lock): Row {
    if row.lock == Some(lock) then row.(lock := None) else row
  }

  /** What a caller of the credential service ends with. */
  datatype Answer = Tokens(of: Cipher) | Raised

  /** The last reads of a renewal: an uncommitted renewal over an unchanged credential raises, and so
      does a credential that was disconnected meanwhile. */
  function Conclude(row: Row, original: Cipher, committed: bool): Answer {
    if !committed && row.cipher == Some(original) then Raised
    else match row.cipher
         case None => Raised
         case Some(c) => Tokens(c)
  }

  class ProviderAccount {
    var cipher: Option<Cipher>
    var lock: Option<Lock>
    var lockUntil: int

    constructor (cipher: Option<Cipher>)
      ensures State() == Row(cipher, None, 0)
    {
      this.cipher, lock, lockUntil := cipher, None, 0;
    }

    function State(): Row
      reads this
    {
      Row(cipher, lock, lockUntil)
    }

    method TakeLock(original: Cipher, token: Lock, started: int) returns (ok: bool)
      modifies this
      ensures ok <==> old(cipher) == Some(original) && (old(lock) == None || old(lockUntil) < started)
      ensures cipher == old(cipher)
      ensures lock == (if ok then Some(token) else old(lock))
      ensures lockUntil == (if ok then started + 120 else old(lockUntil))
      ensures ok <==> CanLock(old(State()), original, started)
      ensures State() == Locked(old(State()), original, token, started)
    {
      ok := cipher == Some(original) && (lock.None? || lockUntil < started);
      if ok {
        lock, lockUntil := Some(token), started + LOCK_DURATION;
      }
    }

    method Replace(original: Cipher, token: Lock, now: int, renewed: Cipher) returns (ok: bool)
      modifies this
      ensures ok <==> old(cipher) == Some(original) && old(lock) == Some(token) && old(lockUntil) > now
      ensures cipher == (if ok then Some(renewed) else old(cipher))
      ensures lock == old(lock) && lockUntil == old(lockUntil)
      ensures ok <==> CanCommit(old(State()), original, token, now)
      ensures State() == Committed(old(State()), original, token, now, renewed)
    {
      ok := cipher == Some(original) && lock == Some(token) && lockUntil > now;
      if ok {
        cipher := Some(renewed);
      }
    }

    method Unlock(token: Lock)
      modifies this
      ensures lock == (if old(lock) == Some(token) then None else old(lock))
      ensures cipher == old(cipher) && lockUntil == old(lockUntil)
      ensures State() == Unlocked(old(State()), token)
    {
      if lock == Some(token) {
        lock := None;
      }
    }
  }

  // ---- Every interleaving of workers, reconnects and disconnects -------------------------------

  /** Where a worker stands in one call. */
  datatype Stage =
    | Read(original: Cipher)
    | Renewing(original: Cipher, lock: Lock)
    | Tried(original: Cipher, lock: Lock, committed: bool)
    | Answered(original: Cipher, lock: Lock, answer: Answer)
    | Done

  /** Who wrote a credential: the operator (reconnect or disconnect), or a renewal of `from` by a worker. */
  datatype Author = Operator | Renewal(worker: Worker, from: Cipher)

  datatype Entry = Entry(cipher: Option<Cipher>, author: Author)

  datatype World = World(row: Row, workers: map<Worker, Stage>, history: seq<Entry>)

  datatype Step =
    | Begin(w: Worker)
    | TakeLock(w: Worker, lock: Lock, started: int)
    | Replace(w: Worker, renewed: Cipher, now: int)
    | Refuse(w: Worker)
    | Reread(w: Worker)
    | Unlock(w: Worker)
    | Crash(w: Worker)
    | Reconnect(cipher: Cipher)
    | Disconnect

  predicate NewCipher(world: World, c: Cipher) {
    forall e :: e in world.history ==> e.cipher != Some(c)
  }

  /** The step is one the code can take; clocks are unconstrained. */
  predicate Enabled(world: World, step: Step) {
    match step
    case Begin(w) => w !in world.workers && world.row.cipher.Some?
    case TakeLock(w, _, _) => w in world.workers && world.workers[w].Read?
    case Replace(w, renewed, _) => w in world.workers && world.workers[w].Renewing? && NewCipher(world, renewed)
    case Refuse(w) => w in world.workers && world.workers[w].Renewing?
    case Reread(w) => w in world.workers && world.workers[w].Tried?
    case Unlock(w) => w in world.workers && world.workers[w].Answered?
    case Crash(w) => w in world.workers
    case Reconnect(c) => NewCipher(world, c)
    case Disconnect => true
  }

  function Next(world: World, step: Step): World
    requires Enabled(world, step)
  {
    match step
    case Begin(w) => world.(workers := world.workers[w := Read(world.row.cipher.value)])
    case TakeLock(w, lock, started) =>
      var o := world.workers[w].original;
      World(Locked(world.row, o, lock, started),
            world.workers[w := if CanLock(world.row, o, started) then Renewing(o, lock) else Done],
            world.history)
    case Replace(w, renewed, now) =>
      var s := world.workers[w];
      var ok := CanCommit(world.row, s.original, s.lock, now);
      World(Committed(world.row, s.original, s.lock, now, renewed),
            world.workers[w := Tried(s.original, s.lock, ok)],
            if ok then world.history + [Entry(Some(renewed), Renewal(w, s.original))] else world.history)
    case Refuse(w) =>
      var s := world.workers[w];
      world.(workers := world.workers[w := Answered(s.original, s.lock, Raised)])
    case Reread(w) =>
      var s := world.workers[w];
      world.(workers := world.workers[w := Answered(s.original, s.lock, Conclude(world.row, s.original, s.committed))])
    case Unlock(w) =>
      World(Unlocked(world.row, world.workers[w].lock), world.workers[w := Done], world.history)
    case Crash(w) => world.(workers := world.workers[w := Done])
    case Reconnect(c) => World(world.row.(cipher := Some(c)), world.workers, world.history + [Entry(Some(c), Operator)])
    case Disconnect => World(world.row.(cipher := None), world.workers, world.history + [Entry(None, Operator)])
  }

  function Initial(c: Option<Cipher>): World {
    World(Row(c, None, 0), map[], [Entry(c, Operator)])
  }

  /** The steps can be taken one after the other, leading to the given world. */
  ghost predicate Leads(from: World, steps: seq<Step>, to: World)
    decreases |steps|
  {
    if steps == [] then from == to
    else Enabled(from, steps[0]) && Leads(Next(from, steps[0]), steps[1..], to)
  }

  // ---- The invariant ---------------------------------------------------------------------------------

  ghost predicate InHistory(world: World, c: Cipher) {
    exists i :: 0 <= i < |world.history| && world.history[i].cipher == Some(c)
  }

  /** No credential appears twice, the last one is in the row, and each renewal directly follows the
      credential it replaced. */
  ghost predicate GoodHistory(world: World) {
    && world.history != []
    && world.history[|world.history| - 1].cipher == world.row.cipher
    && (forall i, j :: 0 <= i < j < |world.history| && world.history[i].cipher.Some? ==>
          world.history[i].cipher != world.history[j].cipher)
    && (forall i :: 0 <= i < |world.history| && world.history[i].author.Renewal? ==>
          i > 0 && world.history[i - 1].cipher == Some(world.history[i].author.from))
  }

  /** The credential a worker read was once current, and one it replaced no longer is. */
  ghost predicate GoodWorker(world: World, s: Stage) {
    match s
    case Read(o) => InHistory(world, o)
    case Renewing(o, _) => InHistory(world, o)
    case Tried(o, _, committed) => InHistory(world, o) && (committed ==> world.row.cipher != Some(o))
    case Answered(o, _, answer) => answer.Tokens? ==> answer.of != o
    case Done => true
  }

  ghost predicate Good(world: World) {
    GoodHistory(world) && forall w :: w in world.workers ==> GoodWorker(world, world.workers[w])
  }

  lemma NotTheOld(world: World, c: Cipher, renewed: Option<Cipher>, author: Author)
    requires GoodHistory(world) && InHistory(world, c)
    requires renewed.Some? ==> NewCipher(world, renewed.value)
    requires author.Renewal? ==> world.row.cipher == Some(author.from)
    ensures renewed != Some(c)
    ensures var w := World(world.row.(cipher := renewed), world.workers, world.history + [Entry(renewed, author)]);
            GoodHistory(w) && forall o :: InHistory(world, o) ==> InHistory(w, o)
  {
    var w := World(world.row.(cipher := renewed), world.workers, world.history + [Entry(renewed, author)]);
    var i :| 0 <= i < |world.history| && world.history[i].cipher == Some(c);
    assert world.history[i] in world.history;
    forall o | InHistory(world, o) ensures InHistory(w, o) {
      var j :| 0 <= j < |world.history| && world.history[j].cipher == Some(o);
      assert w.history[j].cipher == Some(o);
    }
  }

  lemma GoodWrite(world: World, renewed: Option<Cipher>, author: Author)
    requires Good(world)
    requires renewed.Some? ==> NewCipher(world, renewed.value)
    requires author.Renewal? ==> world.row.cipher == Some(author.from)
    ensures Good(World(world.row.(cipher := renewed), world.workers, world.history + [Entry(renewed, author)]))
  {
    var v := World(world.row.(cipher := renewed), world.workers, world.history + [Entry(renewed, author)]);
    assert GoodHistory(v) by {
      forall i, j | 0 <= i < j < |v.history| && v.history[i].cipher.Some?
        ensures v.history[i].cipher != v.history[j].cipher
      {
        assert v.history[i] in world.history;
      }
    }
    forall w | w in v.workers ensures GoodWorker(v, v.workers[w]) {
      assert GoodWorker(world, world.workers[w]);
      if v.workers[w].Read? || v.workers[w].Renewing? || v.workers[w].Tried? {
        NotTheOld(world, v.workers[w].original, renewed, author);
      }
    }
  }

  /** A step that writes no credential and moves one worker. */
  lemma GoodMove(world: World, row: Row, w: Worker, s: Stage)
    requires Good(world) && row.cipher == world.row.cipher && GoodWorker(world, s)
    ensures Good(World(row, world.workers[w := s], world.history))
  {
    var v := World(row, world.workers[w := s], world.history);
    assert forall o :: InHistory(world, o) ==> InHistory(v, o);
    forall x | x in v.workers ensures GoodWorker(v, v.workers[x]) {
      assert x != w ==> GoodWorker(world, world.workers[x]);
    }
  }

  lemma GoodReplace(world: World, w: Worker, renewed: Cipher, now: int)
    requires Good(world) && Enabled(world, Replace(w, renewed, now))
    ensures Good(Next(world, Replace(w, renewed, now)))
  {
    var s := world.workers[w];
    assert GoodWorker(world, s);
    if CanCommit(world.row, s.original, s.lock, now) {
      NotTheOld(world, s.original, Some(renewed), Renewal(w, s.original));
      GoodWrite(world, Some(renewed), Renewal(w, s.original));
      var v := World(world.row.(cipher := Some(renewed)), world.workers,
                     world.history + [Entry(Some(renewed), Renewal(w, s.original))]);
      GoodMove(v, v.row, w, Tried(s.original, s.lock, true));
    } else {
      GoodMove(world, world.row, w, Tried(s.original, s.lock, false));
    }
  }

  lemma GoodStep(world: World, step: Step)
    requires Good(world) && Enabled(world, step)
    ensures Good(Next(world, step)) && world.history <= Next(world, step).history
  {
    match step
    case Begin(w) =>
      assert world.history[|world.history| - 1].cipher == Some(world.row.cipher.value);
      GoodMove(world, world.row, w, Read(world.row.cipher.value));
    case TakeLock(w, lock, started) =>
      var o := world.workers[w].original;
      assert GoodWorker(world, world.workers[w]);
      GoodMove(world, Locked(world.row, o, lock, started), w,
               if CanLock(world.row, o, started) then Renewing(o, lock) else Done);
    case Replace(w, renewed, now) =>
      GoodReplace(world, w, renewed, now);
    case Refuse(w) =>
      GoodMove(world, world.row, w, Answered(world.workers[w].original, world.workers[w].lock, Raised));
    case Reread(w) =>
      var s := world.workers[w];
      assert GoodWorker(world, s);
      GoodMove(world, world.row, w, Answered(s.original, s.lock, Conclude(world.row, s.original, s.committed)));
    case Unlock(w) =>
      GoodMove(world, Unlocked(world.row, world.workers[w].lock), w, Done);
    case Crash(w) =>
      GoodMove(world, world.row, w, Done);
    case Reconnect(c) =>
      GoodWrite(world, Some(c), Operator);
    case Disconnect =>
      GoodWrite(world, None, Operator);
  }

  lemma {:induction false} GoodRun(world: World, steps: seq<Step>, to: World)
    requires Good(world) && Leads(world, steps, to)
    ensures Good(to) && world.history <= to.history
    decreases |steps|
  {
    if steps != [] {
      GoodStep(world, steps[0]);
      GoodRun(Next(world, steps[0]), steps[1..], to);
    }
  }

  lemma GoodInitial(c: Option<Cipher>)
    ensures Good(Initial(c))
  {
  }

  // ---- The lock -----------------------------------------------------------------------------------------

  /** A worker is granted the lock exactly over the credential it read and while no lock is recorded or the
      recorded one has ended; then the row has its lock for two minutes, and otherwise nothing changes. */
  lemma LockGrantedIff(world: World, w: Worker, lock: Lock, started: int)
    requires Enabled(world, TakeLock(w, lock, started))
    ensures var row, o, after := world.row, world.workers[w].original, Next(world, TakeLock(w, lock, started));
            var granted := row.cipher == Some(o) && (row.lock == None || row.lockUntil < started);
            && (after.workers[w] == Renewing(o, lock) <==> granted)
            && (after.workers[w] == Done <==> !granted)
            && after.row == (if granted then Row(row.cipher, Some(lock), started + 120) else row)
            && after.history == world.history
  {
  }

  /** Nobody whose reading is past the end takes the lock, and no worker that was given it unlocks. */
  ghost predicate Undisturbed(world: World, steps: seq<Step>, lock: Lock, end: int)
    decreases |steps|
  {
    steps != [] && Enabled(world, steps[0]) ==>
      && (steps[0].TakeLock? ==> steps[0].started <= end)
      && (steps[0].Unlock? ==> world.workers[steps[0].w].lock != lock)
      && Undisturbed(Next(world, steps[0]), steps[1..], lock, end)
  }

  lemma {:induction false} LockStays(world: World, steps: seq<Step>, to: World, lock: Lock, end: int)
    requires world.row.lock == Some(lock) && world.row.lockUntil == end
    requires Leads(world, steps, to) && Undisturbed(world, steps, lock, end)
    ensures to.row.lock == Some(lock) && to.row.lockUntil == end
    decreases |steps|
  {
    if steps != [] {
      LockStays(Next(world, steps[0]), steps[1..], to, lock, end);
    }
  }

  /** The lock excludes: from a grant to the end of its two minutes, whatever else happens, no second worker is
      granted it, unless the holder unlocked. */
  lemma LockExcludes(world: World, w: Worker, lock: Lock, started: int, between: seq<Step>, to: World, v: Worker,
                     other: Lock, later: int)
    requires Enabled(world, TakeLock(w, lock, started))
    requires Next(world, TakeLock(w, lock, started)).workers[w].Renewing?
    requires Leads(Next(world, TakeLock(w, lock, started)), between, to)
    requires Undisturbed(Next(world, TakeLock(w, lock, started)), between, lock, started + 120)
    requires Enabled(to, TakeLock(v, other, later)) && later <= started + 120
    ensures Next(to, TakeLock(v, other, later)).workers[v] == Done
    ensures Next(to, TakeLock(v, other, later)).row == to.row
  {
    LockGrantedIff(world, w, lock, started);
    LockStays(Next(world, TakeLock(w, lock, started)), between, to, lock, started + 120);
    LockGrantedIff(to, v, other, later);
  }

  /** A renewal is committed exactly over the credential that its worker read, under its own lock, before that
      lock's end; then the new credential replaces it, and nothing else in the row changes. */
  lemma CommittedIff(world: World, w: Worker, renewed: Cipher, now: int)
    requires Enabled(world, Replace(w, renewed, now))
    ensures var row, s, after := world.row, world.workers[w], Next(world, Replace(w, renewed, now));
            var committed := row.cipher == Some(s.original) && row.lock == Some(s.lock) && row.lockUntil > now;
            && after.workers[w] == Tried(s.original, s.lock, committed)
            && after.row == (if committed then Row(Some(renewed), row.lock, row.lockUntil) else row)
            && after.history
               == (if committed then world.history + [Entry(Some(renewed), Renewal(w, s.original))] else world.history)
  {
  }

  /** What a call answers after its attempt: the credential now in the row, unless there is none or an
      uncommitted attempt finds the one it read still there. Unlocking then clears exactly its own lock. */
  lemma AnsweredWith(world: World, w: Worker, c: Cipher)
    requires Enabled(world, Reread(w))
    ensures var s, after := world.workers[w], Next(world, Reread(w));
            && (after.workers[w] == Answered(s.original, s.lock, Tokens(c))
                <==> world.row.cipher == Some(c) && (s.committed || c != s.original))
            && after.row == world.row
            && Enabled(after, Unlock(w))
            && Next(after, Unlock(w)).row
               == Row(world.row.cipher, if world.row.lock == Some(s.lock) then None else world.row.lock,
                      world.row.lockUntil)
  {
  }

  /** Who may act, in every world whatever: the operator at any time, with a credential never seen before if any; a
      worker without a call exactly if there is a credential to read; and a worker in a call with whatever comes
      next in it, or it may stop for good. */
  lemma MayAct(world: World, w: Worker, lock: Lock, c: Cipher, at: int)
    ensures Enabled(world, Disconnect)
    ensures Enabled(world, Reconnect(c)) <==> forall e :: e in world.history ==> e.cipher != Some(c)
    ensures Enabled(world, Begin(w)) <==> w !in world.workers && world.row.cipher != None
    ensures Enabled(world, Crash(w)) <==> w in world.workers
    ensures w in world.workers ==>
              match world.workers[w]
              case Read(_) => Enabled(world, TakeLock(w, lock, at))
              case Renewing(_, _) =>
                && Enabled(world, Refuse(w))
                && (Enabled(world, Replace(w, c, at)) <==> forall e :: e in world.history ==> e.cipher != Some(c))
              case Tried(_, _, _) => Enabled(world, Reread(w))
              case Answered(_, _, _) => Enabled(world, Unlock(w))
              case Done => true
  {
  }

  // ---- The promises ---------------------------------------------------------------------------------------

  /** No lost update: in every reachable history each renewal directly replaces the very credential its
      worker read, so nothing an operator wrote during the network call is ever overwritten. */
  lemma RenewalsReplaceWhatTheyRead(c: Option<Cipher>, steps: seq<Step>, to: World, i: nat)
    requires Leads(Initial(c), steps, to) && i < |to.history| && to.history[i].author.Renewal?
    ensures i > 0 && to.history[i - 1].cipher == Some(to.history[i].author.from)
  {
    GoodInitial(c);
    GoodRun(Initial(c), steps, to);
  }

  /** Two renewals never both commit from one credential. */
  lemma OneRenewalPerCredential(c: Option<Cipher>, steps: seq<Step>, to: World, i: nat, j: nat)
    requires Leads(Initial(c), steps, to) && i < |to.history| && j < |to.history| && i != j
    requires to.history[i].author.Renewal? && to.history[j].author.Renewal?
    ensures to.history[i].author.from != to.history[j].author.from
  {
    GoodInitial(c);
    GoodRun(Initial(c), steps, to);
    assert to.history[i - 1].cipher.Some? && to.history[j - 1].cipher.Some?;
  }

  /** A reconnect or disconnect made while a worker is renewing survives that worker's commit attempt:
      the attempt changes nothing, at any later time. */
  lemma OperatorWriteSurvives(world: World, between: seq<Step>, to: World, w: Worker, write: Step, renewed: Cipher,
                              now: int)
    requires Good(world) && w in world.workers && world.workers[w].Renewing?
    requires (write.Reconnect? || write.Disconnect?) && Enabled(world, write)
    requires Leads(Next(world, write), between, to)
    requires w in to.workers && to.workers[w] == world.workers[w] && Enabled(to, Replace(w, renewed, now))
    ensures Next(to, Replace(w, renewed, now)).row == to.row && Next(to, Replace(w, renewed, now)).history == to.history
  {
    var o := world.workers[w].original;
    assert GoodWorker(world, world.workers[w]);
    var i :| 0 <= i < |world.history| && world.history[i].cipher == Some(o);
    GoodStep(world, write);
    assert |world.history| < |Next(world, write).history|;
    GoodRun(Next(world, write), between, to);
    PrefixTransitive(world.history, Next(world, write).history, to.history);
    OldCipherIsGone(to, i, o);
    NoCommitOverAnother(to, w, renewed, now);
  }

  /** A credential that is no longer the newest is not the one in the row: ciphertexts are unique. */
  lemma OldCipherIsGone(world: World, i: nat, c: Cipher)
    requires Good(world) && i < |world.history| - 1 && world.history[i].cipher == Some(c)
    ensures world.row.cipher != Some(c)
  {
  }

  lemma NoCommitOverAnother(world: World, w: Worker, renewed: Cipher, now: int)
    requires Enabled(world, Replace(w, renewed, now)) && world.row.cipher != Some(world.workers[w].original)
    ensures Next(world, Replace(w, renewed, now)).row == world.row
              && Next(world, Replace(w, renewed, now)).history == world.history
  {
  }

  /** A call that set out to renew never hands back the credential it started from: it returns a
      different one or raises. */
  lemma NeverTheOldToken(c: Option<Cipher>, steps: seq<Step>, to: World, w: Worker)
    requires Leads(Initial(c), steps, to) && w in to.workers && to.workers[w].Answered?
    ensures to.workers[w].answer.Tokens? ==> to.workers[w].answer.of != to.workers[w].original
  {
    GoodInitial(c);
    GoodRun(Initial(c), steps, to);
    assert GoodWorker(to, to.workers[w]);
  }
}
