/** The saved-match table: left and right occurrences aligned by saved identity. */
module MatchedRows {
  import opened Prelude

  type Key = Name

  /** One displayed row. An occurrence is told apart from an equal one by its index. */
  datatype Row = Row(left: Option<nat>, right: Option<nat>)

  function Occurrences(keys: seq<Key>, k: Key): nat {
    |Filter((x: Key) => x == k, keys)|
  }

  /** How many earlier occurrences share the key of occurrence i. */
  function Rank(keys: seq<Key>, i: nat): nat
    requires i < |keys|
  {
    Occurrences(keys[..i], keys[i])
  }

  lemma OccurrencesStep(keys: seq<Key>, i: nat, k: Key)
    requires i < |keys|
    ensures Occurrences(keys[..i + 1], k) == Occurrences(keys[..i], k) + if keys[i] == k then 1 else 0
  {
    var p := (x: Key) => x == k;
    assert keys[..i + 1] == keys[..i] + [keys[i]];
    FilterAppend(p, keys[..i], [keys[i]]);
    FilterOne(p, keys[i]);
  }

  lemma {:induction false} OccurrencesMonotone(keys: seq<Key>, i: nat, j: nat, k: Key)
    requires i <= j <= |keys|
    ensures Occurrences(keys[..i], k) <= Occurrences(keys[..j], k)
    decreases j - i
  {
    if i < j {
      OccurrencesStep(keys, j - 1, k);
      OccurrencesMonotone(keys, i, j - 1, k);
    }
  }

  /** The indices at which k occurs, in order. */
  function Positions(keys: seq<Key>, k: Key): seq<nat> {
    if keys == [] then []
    else Positions(keys[..|keys| - 1], k) + if keys[|keys| - 1] == k then [|keys| - 1] else []
  }

  lemma PositionsStep(keys: seq<Key>, i: nat, k: Key)
    requires i < |keys|
    ensures Positions(keys[..i + 1], k) == Positions(keys[..i], k) + if keys[i] == k then [i] else []
  {
    assert keys[..i + 1][..i] == keys[..i];
  }

  /** The n-th position of k has key k and n earlier occurrences of it. */
  lemma {:induction false} PositionRank(keys: seq<Key>, i: nat, k: Key)
    requires i <= |keys|
    ensures |Positions(keys[..i], k)| == Occurrences(keys[..i], k)
    ensures forall n :: 0 <= n < |Positions(keys[..i], k)| ==>
              Positions(keys[..i], k)[n] < i && keys[Positions(keys[..i], k)[n]] == k
                && Rank(keys, Positions(keys[..i], k)[n]) == n
  {
    if i > 0 {
      PositionRank(keys, i - 1, k);
      PositionsStep(keys, i - 1, k);
      OccurrencesStep(keys, i - 1, k);
    }
  }

  lemma RankUnique(keys: seq<Key>, i: nat, j: nat)
    requires i < |keys| && j < |keys| && keys[i] == keys[j] && Rank(keys, i) == Rank(keys, j)
    ensures i == j
  {
    if i < j {
      OccurrencesStep(keys, i, keys[i]);
      OccurrencesMonotone(keys, i + 1, j, keys[i]);
    } else if j < i {
      OccurrencesStep(keys, j, keys[j]);
      OccurrencesMonotone(keys, j + 1, i, keys[j]);
    }
  }

  lemma RankBelow(keys: seq<Key>, j: nat)
    requires j < |keys|
    ensures Rank(keys, j) < Occurrences(keys, keys[j])
  {
    OccurrencesStep(keys, j, keys[j]);
    OccurrencesMonotone(keys, j + 1, |keys|, keys[j]);
    assert keys[..|keys|] == keys;
  }

  /** Left occurrence i and right occurrence j belong together: same key, and the same number of
      earlier occurrences of it on their own side. */
  predicate Together(left: seq<Key>, right: seq<Key>, i: nat, j: nat) {
    i < |left| && j < |right| && left[i] == right[j] && Rank(left, i) == Rank(right, j)
  }

  // ---- The program -------------------------------------------------------------------------

  function Drop(xs: seq<nat>, n: nat): seq<nat> {
    if n <= |xs| then xs[n..] else []
  }

  function Get(queues: map<Key, seq<nat>>, k: Key): seq<nat> {
    if k in queues then queues[k] else []
  }

  /** The first of the queue a left occurrence finds. */
  function Partner(left: seq<Key>, right: seq<Key>, i: nat): Option<nat>
    requires i < |left|
  {
    var q := Drop(Positions(right, left[i]), Rank(left, i));
    if q != [] then Some(q[0]) else None
  }

  function LeftRows(left: seq<Key>, right: seq<Key>, i: nat): seq<Row>
    requires i <= |left|
  {
    if i == 0 then [] else LeftRows(left, right, i - 1) + [Row(Some(i - 1), Partner(left, right, i - 1))]
  }

  function Taken(left: seq<Key>, right: seq<Key>, i: nat): set<nat>
    requires i <= |left|
  {
    if i == 0 then {}
    else Taken(left, right, i - 1) + match Partner(left, right, i - 1) { case None => {} case Some(j) => {j} }
  }

  function RightRows(used: set<nat>, n: nat): seq<Row> {
    if n == 0 then [] else RightRows(used, n - 1) + if n - 1 in used then [] else [Row(None, Some(n - 1))]
  }

  ghost predicate Queued(queues: map<Key, seq<nat>>, keys: seq<Key>) {
    forall k :: Get(queues, k) == Positions(keys, k)
  }

  lemma Enqueue(queues: map<Key, seq<nat>>, right: seq<Key>, i: nat)
    requires i < |right| && Queued(queues, right[..i])
    ensures Queued(queues[right[i] := Get(queues, right[i]) + [i]], right[..i + 1])
  {
    var after := queues[right[i] := Get(queues, right[i]) + [i]];
    forall k ensures Get(after, k) == Positions(right[..i + 1], k) {
      PositionsStep(right, i, k);
      assert Get(queues, k) == Positions(right[..i], k);
    }
  }

  method FillQueues(right: seq<Key>) returns (queues: map<Key, seq<nat>>)
    ensures Queued(queues, right)
  {
    queues := map[];
    for index := 0 to |right|
      invariant Queued(queues, right[..index])
    {
      Enqueue(queues, right, index);
      queues := queues[right[index] := Get(queues, right[index]) + [index]];
    }
    assert right[..|right|] == right;
  }

  /** After the first i left occurrences each queue has lost one index for each of them with its key. */
  ghost predicate PoppedTo(queues: map<Key, seq<nat>>, left: seq<Key>, right: seq<Key>, i: nat)
    requires i <= |left|
  {
    forall k :: Get(queues, k) == Drop(Positions(right, k), Occurrences(left[..i], k))
  }

  lemma NothingPopped(queues: map<Key, seq<nat>>, left: seq<Key>, right: seq<Key>)
    requires Queued(queues, right)
    ensures PoppedTo(queues, left, right, 0)
  {
    assert left[..0] == [];
  }

  /** popleft() on the queue of left[i]. */
  lemma PopLeft(queues: map<Key, seq<nat>>, left: seq<Key>, right: seq<Key>, i: nat)
    requires i < |left| && PoppedTo(queues, left, right, i)
    ensures Get(queues, left[i]) == Drop(Positions(right, left[i]), Rank(left, i))
    ensures PoppedTo(queues[left[i] := Drop(Get(queues, left[i]), 1)], left, right, i + 1)
  {
    var after := queues[left[i] := Drop(Get(queues, left[i]), 1)];
    forall k ensures Get(after, k) == Drop(Positions(right, k), Occurrences(left[..i + 1], k)) {
      OccurrencesStep(left, i, k);
      assert Get(queues, k) == Drop(Positions(right, k), Occurrences(left[..i], k));
    }
  }

  /** The queue that left[i] finds gives its row and, if there is one, the partner it takes. */
  lemma PopsPartner(left: seq<Key>, right: seq<Key>, i: nat, q: seq<nat>)
    requires i < |left| && q == Drop(Positions(right, left[i]), Rank(left, i))
    ensures LeftRows(left, right, i + 1)
            == LeftRows(left, right, i) + [Row(Some(i), if q != [] then Some(q[0]) else None)]
    ensures q != [] ==> Taken(left, right, i + 1) == Taken(left, right, i) + {q[0]}
    ensures q == [] ==> Taken(left, right, i + 1) == Taken(left, right, i)
  {
  }

  /** The loop over the left group. */
  method PairLeft(left: seq<Key>, right: seq<Key>) returns (rows: seq<Row>, used: set<nat>)
    ensures rows == LeftRows(left, right, |left|) && used == Taken(left, right, |left|)
  {
    var queues := FillQueues(right);
    rows, used := [], {};
    NothingPopped(queues, left, right);
    for i := 0 to |left|
      invariant PoppedTo(queues, left, right, i)
      invariant rows == LeftRows(left, right, i)
      invariant used == Taken(left, right, i)
    {
      PopLeft(queues, left, right, i);
      var q := Get(queues, left[i]);
      PopsPartner(left, right, i, q);
      if q != [] {
        used := used + {q[0]};
      }
      rows := rows + [Row(Some(i), if q != [] then Some(q[0]) else None)];
      queues := queues[left[i] := Drop(q, 1)];
    }
  }

  /** matched_track_rows for the tracks of the first two groups; the right side is empty when there
      is only one group. */
  method MatchedTrackRows(left: seq<Key>, right: seq<Key>) returns (rows: seq<Row>)
    ensures rows == Table(left, right)
  {
    var paired, used := PairLeft(left, right);
    rows := paired;
    for index := 0 to |right|
      invariant rows == paired + RightRows(used, index)
    {
      if index !in used {
        rows := rows + [Row(None, Some(index))];
      }
    }
  }

  function Table(left: seq<Key>, right: seq<Key>): seq<Row> {
    LeftRows(left, right, |left|) + RightRows(Taken(left, right, |left|), |right|)
  }

  // ---- What the table means ---------------------------------------------------------------------

  /** Popping queues finds exactly the right occurrence that belongs with the left one. */
  lemma PartnerIsTogether(left: seq<Key>, right: seq<Key>, i: nat, j: nat)
    requires i < |left|
    ensures Partner(left, right, i) == Some(j) <==> Together(left, right, i, j)
    ensures Partner(left, right, i).Some? <==> Rank(left, i) < Occurrences(right, left[i])
  {
    var k := left[i];
    assert right[..|right|] == right;
    PositionRank(right, |right|, k);
    if Together(left, right, i, j) {
      RankBelow(right, j);
      RankUnique(right, j, Positions(right, k)[Rank(left, i)]);
    }
  }

  lemma {:induction false} LeftRowsAt(left: seq<Key>, right: seq<Key>, n: nat, i: nat)
    requires i < n <= |left|
    ensures |LeftRows(left, right, n)| == n && LeftRows(left, right, n)[i] == Row(Some(i), Partner(left, right, i))
  {
    if n > 1 {
      LeftRowsAt(left, right, n - 1, if i < n - 1 then i else 0);
    }
  }

  lemma {:induction false} TakenMembers(left: seq<Key>, right: seq<Key>, n: nat, j: nat)
    requires n <= |left|
    ensures j in Taken(left, right, n) <==> exists i: nat :: i < n && Together(left, right, i, j)
  {
    if n > 0 {
      TakenMembers(left, right, n - 1, j);
      PartnerIsTogether(left, right, n - 1, j);
    }
  }

  /** The leftover rows are the untaken right occurrences below n, each once, in order. */
  lemma {:induction false} RightRowsAre(used: set<nat>, n: nat)
    ensures forall m :: 0 <= m < |RightRows(used, n)| ==>
              var r := RightRows(used, n)[m];
              r.left.None? && r.right.Some? && r.right.value < n && r.right.value !in used
    ensures forall l, m :: 0 <= l < m < |RightRows(used, n)|
              ==> RightRows(used, n)[l].right.value < RightRows(used, n)[m].right.value
    ensures forall j: nat :: j < n && j !in used ==> Row(None, Some(j)) in RightRows(used, n)
  {
    if n > 0 {
      RightRowsAre(used, n - 1);
    }
  }

  lemma TableSize(left: seq<Key>, right: seq<Key>)
    ensures |LeftRows(left, right, |left|)| == |left| <= |Table(left, right)|
  {
    if left != [] {
      LeftRowsAt(left, right, |left|, 0);
    }
  }

  /** Row i shows left occurrence i beside exactly the right occurrence that belongs with it, and no
      other row shows it. */
  lemma EveryLeftOnce(left: seq<Key>, right: seq<Key>, i: nat, j: nat)
    requires i < |left|
    ensures |left| <= |Table(left, right)| && Table(left, right)[i].left == Some(i)
    ensures Table(left, right)[i].right == Some(j) <==> Together(left, right, i, j)
    ensures forall n :: 0 <= n < |Table(left, right)| && n != i ==> Table(left, right)[n].left != Some(i)
  {
    TableSize(left, right);
    LeftRowsAt(left, right, |left|, i);
    PartnerIsTogether(left, right, i, j);
    RightRowsAre(Taken(left, right, |left|), |right|);
    forall n: nat | n < |left| ensures Table(left, right)[n].left == Some(n) {
      LeftRowsAt(left, right, |left|, n);
    }
  }

  /** Every right occurrence is in exactly one row. */
  lemma EveryRightOnce(left: seq<Key>, right: seq<Key>, j: nat) returns (n: nat)
    requires j < |right|
    ensures n < |Table(left, right)| && Table(left, right)[n].right == Some(j)
    ensures forall m: nat :: m < |Table(left, right)| && m != n ==> Table(left, right)[m].right != Some(j)
  {
    var used := Taken(left, right, |left|);
    var rest := RightRows(used, |right|);
    TableSize(left, right);
    TakenMembers(left, right, |left|, j);
    RightRowsAre(used, |right|);
    if i: nat :| i < |left| && Together(left, right, i, j) {
      n := i;
      EveryLeftOnce(left, right, i, j);
    } else {
      var m :| 0 <= m < |rest| && rest[m] == Row(None, Some(j));
      n := |left| + m;
    }
    forall m: nat | m < |Table(left, right)| && m != n ensures Table(left, right)[m].right != Some(j) {
      if m < |left| {
        EveryLeftOnce(left, right, m, j);
        if Together(left, right, m, j) && n < |left| {
          RankUnique(left, m, n);
        }
      }
    }
  }

  lemma RestRow(left: seq<Key>, right: seq<Key>, m: nat)
    requires |left| <= m < |Table(left, right)|
    ensures var rest := RightRows(Taken(left, right, |left|), |right|);
            m - |left| < |rest| && Table(left, right)[m] == rest[m - |left|]
  {
    TableSize(left, right);
  }

  lemma RightRowAt(used: set<nat>, n: nat, l: nat, m: nat)
    requires l <= m < |RightRows(used, n)|
    ensures var r, s := RightRows(used, n)[l], RightRows(used, n)[m];
            && r.left == None && r.right.Some? && r.right.value < n && r.right.value !in used && s.right.Some?
            && (l < m ==> r.right.value < s.right.value)
  {
    RightRowsAre(used, n);
  }

  /** After the rows of the left occurrences come right occurrences alone, in order. */
  lemma RestInOrder(left: seq<Key>, right: seq<Key>, m: nat, n: nat)
    requires |left| <= m <= n < |Table(left, right)|
    ensures var r, s := Table(left, right)[m], Table(left, right)[n];
            && r.left == None && r.right.Some? && r.right.value < |right| && s.right.Some?
            && (m < n ==> r.right.value < s.right.value)
  {
    RestRow(left, right, m);
    RestRow(left, right, n);
    RightRowAt(Taken(left, right, |left|), |right|, m - |left|, n - |left|);
  }

  /** None of them belongs with a left occurrence. */
  lemma RestIsAlone(left: seq<Key>, right: seq<Key>, m: nat, i: nat)
    requires |left| <= m < |Table(left, right)|
    ensures Table(left, right)[m].right.Some? && !Together(left, right, i, Table(left, right)[m].right.value)
  {
    RestRow(left, right, m);
    RightRowAt(Taken(left, right, |left|), |right|, m - |left|, m - |left|);
    TakenMembers(left, right, |left|, Table(left, right)[m].right.value);
  }

  /** Same-key occurrences are paired in order on both sides. */
  lemma PairedInOrder(left: seq<Key>, right: seq<Key>, i: nat, i': nat, j: nat, j': nat)
    requires Together(left, right, i, j) && Together(left, right, i', j') && left[i] == left[i'] && i < i'
    ensures j < j'
  {
    var k := left[i];
    OccurrencesStep(left, i, k);
    OccurrencesMonotone(left, i + 1, i', k);
    assert Rank(right, j) < Rank(right, j');
    if j' <= j {
      OccurrencesMonotone(right, j', j, k);
    }
  }

  /** The left occurrences of k among the first n whose row has a right track. */
  function PairedRows(left: seq<Key>, right: seq<Key>, k: Key, n: nat): nat
    requires n <= |left| <= |Table(left, right)|
  {
    if n == 0 then 0
    else PairedRows(left, right, k, n - 1) + if left[n - 1] == k && Table(left, right)[n - 1].right.Some? then 1 else 0
  }

  /** A left occurrence is paired exactly when the right side has as many of its key. */
  lemma PairedAt(left: seq<Key>, right: seq<Key>, i: nat)
    requires i < |left| <= |Table(left, right)|
    ensures Table(left, right)[i].right.Some? <==> Occurrences(left[..i], left[i]) < Occurrences(right, left[i])
  {
    TableSize(left, right);
    LeftRowsAt(left, right, |left|, i);
    PartnerIsTogether(left, right, i, 0);
  }

  /** Each key has exactly as many paired rows as the smaller of its two counts. */
  lemma {:induction false} PairedCount(left: seq<Key>, right: seq<Key>, k: Key, n: nat)
    requires n <= |left| <= |Table(left, right)|
    ensures PairedRows(left, right, k, n) == Min(Occurrences(left[..n], k), Occurrences(right, k))
  {
    if n == 0 {
      assert left[..0] == [];
    } else {
      PairedCount(left, right, k, n - 1);
      OccurrencesStep(left, n - 1, k);
      PairedAt(left, right, n - 1);
    }
  }
}
