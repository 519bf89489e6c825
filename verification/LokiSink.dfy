/**
 The Loki sink's push (src/sf2loki/sinks/loki/sink.py): one POST per batch, split in halves on 400 and 413.
 The server is any function from the number of the POST to its answer, so it may answer however it likes.
 */
module LokiSink {
  /** The status of one POST after its internal retries; `Exhausted` when every attempt failed transiently. */
  datatype Answer = Status(code: int) | Exhausted

  type Loki = nat -> Answer

  /** How `push` ends: normally, with the retryable error or with the permanent one. */
  datatype Verdict = Delivered | Retryable | Permanent(code: int)

  datatype Post<T> = Post(batch: seq<T>, answer: Answer)

  /** Where entries ended: in a batch that Loki took, or dropped after being refused alone. */
  datatype Leaf<T> = Accepted(batch: seq<T>) | Dropped(entry: T, code: int) {
    function Entries(): seq<T> {
      if Accepted? then batch else [entry]
    }
  }

  datatype Report<T> = Report(verdict: Verdict, posts: seq<Post<T>>, leaves: seq<Leaf<T>>)

  predicate Success(code: int) {
    200 <= code < 300
  }

  predicate Poison(code: int) {
    code == 400 || code == 413
  }

  /** The whole run of `push` on a batch when `n` POSTs went before. */
  function Push<T>(batch: seq<T>, loki: Loki, n: nat): Report<T>
    decreases |batch|, 1
  {
    if batch == [] then Report(Delivered, [], [])
    else
      var post := Post(batch, loki(n));
      if post.answer.Exhausted? then Report(Retryable, [post], [])
      else if Success(post.answer.code) then Report(Delivered, [post], [Accepted(batch)])
      else if !Poison(post.answer.code) then Report(Retryable, [post], [])
      else if |batch| == 1 then Report(Permanent(post.answer.code), [post], [])
      else
        var mid := |batch| / 2;
        var left := PushHalf(batch[..mid], loki, n + 1);
        if left.verdict.Retryable? then Report(Retryable, [post] + left.posts, left.leaves)
        else
          var right := PushHalf(batch[mid..], loki, n + 1 + |left.posts|);
          Report(right.verdict, [post] + left.posts + right.posts, left.leaves + right.leaves)
  }

  /** A half whose push ends permanently is dropped and counted by its parent. */
  function PushHalf<T>(half: seq<T>, loki: Loki, n: nat): Report<T>
    decreases |half|, 2
  {
    var r := Push(half, loki, n);
    if r.verdict.Permanent? && half != [] then Report(Delivered, r.posts, r.leaves + [Dropped(half[0], r.verdict.code)])
    else r
  }

  function Flatten<T>(leaves: seq<Leaf<T>>): seq<T> {
    if leaves == [] then [] else leaves[0].Entries() + Flatten(leaves[1..])
  }

  lemma {:induction false} FlattenAppend<T>(a: seq<Leaf<T>>, b: seq<Leaf<T>>)
    ensures Flatten(a + b) == Flatten(a) + Flatten(b)
  {
    if a == [] {
      assert a + b == b;
    } else {
      FlattenAppend(a[1..], b);
      assert (a + b)[1..] == a[1..] + b;
    }
  }

  /** Only a push of a single entry ends permanently, and it has then settled nothing itself. */
  lemma {:induction false} OnlySingleEntryIsPermanent<T>(batch: seq<T>, loki: Loki, n: nat)
    ensures var r := Push(batch, loki, n);
            r.verdict.Permanent? ==> |batch| == 1 && Poison(r.verdict.code) && r.leaves == []
                                     && r.posts == [Post(batch, Status(r.verdict.code))]
    decreases |batch|
  {
    if |batch| > 1 {
      OnlySingleEntryIsPermanent(batch[..|batch| / 2], loki, n + 1);
      var left := PushHalf(batch[..|batch| / 2], loki, n + 1);
      OnlySingleEntryIsPermanent(batch[|batch| / 2..], loki, n + 1 + |left.posts|);
    }
  }

  /** At most 2n-1 batches are posted for n entries. */
  lemma {:induction false} PostsAreBounded<T>(batch: seq<T>, loki: Loki, n: nat)
    requires batch != []
    ensures |Push(batch, loki, n).posts| <= 2 * |batch| - 1
    decreases |batch|
  {
    if |batch| > 1 {
      var mid := |batch| / 2;
      PostsAreBounded(batch[..mid], loki, n + 1);
      PostsAreBounded(batch[mid..], loki, n + 1 + |PushHalf(batch[..mid], loki, n + 1).posts|);
    }
  }

  /**
   On normal return the batches accepted and the entries dropped are together the batch, in order and each once;
   on the retryable error they are a prefix of it.
   */
  ghost predicate Covers<T>(leaves: seq<Leaf<T>>, verdict: Verdict, batch: seq<T>) {
    && (verdict.Delivered? ==> Flatten(leaves) == batch)
    && (verdict.Retryable? ==> Flatten(leaves) <= batch)
  }

  lemma {:induction false} LeavesCoverBatch<T>(batch: seq<T>, loki: Loki, n: nat)
    ensures Covers(Push(batch, loki, n).leaves, Push(batch, loki, n).verdict, batch)
    decreases |batch|, 1
  {
    if |batch| > 1 && loki(n).Status? && Poison(loki(n).code) {
      SplitCovers(batch, loki, n);
    } else if batch != [] {
      WholeBatch(batch);
    }
  }

  lemma {:induction false} SplitCovers<T>(batch: seq<T>, loki: Loki, n: nat)
    requires |batch| > 1 && loki(n).Status? && Poison(loki(n).code)
    ensures Covers(Push(batch, loki, n).leaves, Push(batch, loki, n).verdict, batch)
    decreases |batch|, 0
  {
    var mid := |batch| / 2;
    var left := PushHalf(batch[..mid], loki, n + 1);
    HalfCoversBatch(batch[..mid], loki, n + 1);
    if left.verdict.Retryable? {
      assert Flatten(left.leaves) <= batch[..mid] <= batch;
    } else {
      var right := PushHalf(batch[mid..], loki, n + 1 + |left.posts|);
      HalfCoversBatch(batch[mid..], loki, n + 1 + |left.posts|);
      JoinHalves(batch, mid, left.leaves, right.leaves, right.verdict);
    }
  }

  lemma {:induction false} WholeBatch<T>(batch: seq<T>)
    ensures Flatten([Accepted(batch)]) == batch
  {
    assert [Accepted(batch)][1..] == [];
  }

  lemma {:induction false} JoinHalves<T>(batch: seq<T>, mid: nat, left: seq<Leaf<T>>, right: seq<Leaf<T>>, verdict: Verdict)
    requires mid <= |batch| && Covers(left, Delivered, batch[..mid]) && Covers(right, verdict, batch[mid..])
    ensures Covers(left + right, verdict, batch)
  {
    FlattenAppend(left, right);
    assert batch == batch[..mid] + batch[mid..];
  }

  lemma {:induction false} HalfCoversBatch<T>(half: seq<T>, loki: Loki, n: nat)
    requires half != []
    ensures var r := PushHalf(half, loki, n); !r.verdict.Permanent? && Covers(r.leaves, r.verdict, half)
    decreases |half|, 2
  {
    OnlySingleEntryIsPermanent(half, loki, n);
    var r := Push(half, loki, n);
    if r.verdict.Permanent? {
      var drop := Dropped(half[0], r.verdict.code);
      assert r.leaves + [drop] == [drop];
      assert Flatten([drop]) == [half[0]] + Flatten([]);
    } else {
      LeavesCoverBatch(half, loki, n);
    }
  }

  /** The POST that justifies a leaf: accepted with 2xx, or refused alone with 400 or 413. */
  predicate Justified<T(==)>(leaf: Leaf<T>, posts: seq<Post<T>>) {
    match leaf
    case Accepted(batch) => exists p :: p in posts && p.batch == batch && p.answer.Status? && Success(p.answer.code)
    case Dropped(entry, code) => Poison(code) && Post([entry], Status(code)) in posts
  }

  predicate AllJustified<T(==)>(leaves: seq<Leaf<T>>, posts: seq<Post<T>>) {
    forall i :: 0 <= i < |leaves| ==> Justified(leaves[i], posts)
  }

  lemma {:induction false} JustifiedMore<T>(leaves: seq<Leaf<T>>, posts: seq<Post<T>>, more: seq<Post<T>>)
    requires AllJustified(leaves, posts) && forall p :: p in posts ==> p in more
    ensures AllJustified(leaves, more)
  {
    forall i | 0 <= i < |leaves|
      ensures Justified(leaves[i], more)
    {
      assert Justified(leaves[i], posts);
    }
  }

  /** Nothing is dropped beside a poison entry: a dropped entry was itself refused alone. */
  lemma {:induction false} LeavesAreJustified<T>(batch: seq<T>, loki: Loki, n: nat)
    ensures var r := Push(batch, loki, n);
            AllJustified(r.leaves, r.posts)
    decreases |batch|, 0
  {
    var r := Push(batch, loki, n);
    if |batch| > 1 && loki(n).Status? && Poison(loki(n).code) {
      var mid := |batch| / 2;
      HalfIsJustified(batch[..mid], loki, n + 1);
      var left := PushHalf(batch[..mid], loki, n + 1);
      HalfIsJustified(batch[mid..], loki, n + 1 + |left.posts|);
      var right := PushHalf(batch[mid..], loki, n + 1 + |left.posts|);
      JustifiedMore(left.leaves, left.posts, r.posts);
      if !left.verdict.Retryable? {
        JustifiedMore(right.leaves, right.posts, r.posts);
      }
    } else if r.leaves != [] {
      assert r.posts[0].batch == batch;
    }
  }

  lemma {:induction false} HalfIsJustified<T>(half: seq<T>, loki: Loki, n: nat)
    requires half != []
    ensures var r := PushHalf(half, loki, n);
            AllJustified(r.leaves, r.posts)
    decreases |half|, 1
  {
    LeavesAreJustified(half, loki, n);
    OnlySingleEntryIsPermanent(half, loki, n);
    var r := Push(half, loki, n);
    if r.verdict.Permanent? {
      assert [half[0]] == half;
      assert Justified(Dropped(half[0], r.verdict.code), r.posts);
    }
  }

  /** A push of two or more entries never raises the permanent error, so the pipeline never discards a whole batch for one. */
  lemma {:induction false} PushSettlesBatch<T>(batch: seq<T>, loki: Loki, n: nat)
    requires |batch| > 1
    ensures var r := Push(batch, loki, n);
            && !r.verdict.Permanent?
            && |r.posts| <= 2 * |batch| - 1
            && (r.verdict.Delivered? ==> Flatten(r.leaves) == batch)
            && AllJustified(r.leaves, r.posts)
  {
    OnlySingleEntryIsPermanent(batch, loki, n);
    PostsAreBounded(batch, loki, n);
    LeavesCoverBatch(batch, loki, n);
    LeavesAreJustified(batch, loki, n);
  }

  /** The sink object: it posts, recurses on halves and counts the entries it drops. */
  class Sink<T> {
    var posted: nat
    var dropped: nat

    constructor ()
      ensures posted == 0 && dropped == 0
    {
      posted, dropped := 0, 0;
    }

    method PushBatch(batch: seq<T>, loki: Loki) returns (verdict: Verdict, leaves: seq<Leaf<T>>)
      modifies this
      ensures var r := Push(batch, loki, old(posted));
              && verdict == r.verdict && leaves == r.leaves
              && posted == old(posted) + |r.posts|
              && dropped == old(dropped) + Drops(leaves)
      decreases |batch|, 0
    {
      if batch == [] {
        return Delivered, [];
      }
      var answer := loki(posted);
      posted := posted + 1;
      if answer.Exhausted? {
        return Retryable, [];
      }
      if Success(answer.code) {
        return Delivered, [Accepted(batch)];
      }
      if !Poison(answer.code) {
        return Retryable, [];
      }
      if |batch| == 1 {
        return Permanent(answer.code), [];
      }
      var mid := |batch| / 2;
      var first := PushPart(batch[..mid], loki);
      verdict, leaves := first.verdict, first.leaves;
      if verdict.Retryable? {
        return;
      }
      var second := PushPart(batch[mid..], loki);
      DropsAppend(leaves, second.leaves);
      verdict, leaves := second.verdict, leaves + second.leaves;
    }

    method PushPart(half: seq<T>, loki: Loki) returns (part: Report<T>)
      modifies this
      ensures part == PushHalf(half, loki, old(posted)).(posts := [])
      ensures posted == old(posted) + |PushHalf(half, loki, old(posted)).posts|
      ensures dropped == old(dropped) + Drops(part.leaves)
      decreases |half|, 1
    {
      var verdict, leaves := PushBatch(half, loki);
      if verdict.Permanent? && half != [] {
        var drop := Dropped(half[0], verdict.code);
        dropped := dropped + 1;
        DropsAppend(leaves, [drop]);
        verdict, leaves := Delivered, leaves + [drop];
      }
      part := Report(verdict, [], leaves);
    }
  }

  function Drops<T>(leaves: seq<Leaf<T>>): nat {
    if leaves == [] then 0 else (if leaves[0].Dropped? then 1 else 0) + Drops(leaves[1..])
  }

  lemma {:induction false} DropsAppend<T>(a: seq<Leaf<T>>, b: seq<Leaf<T>>)
    ensures Drops(a + b) == Drops(a) + Drops(b)
  {
    if a == [] {
      assert a + b == b;
    } else {
      DropsAppend(a[1..], b);
      assert (a + b)[1..] == a[1..] + b;
    }
  }
}
