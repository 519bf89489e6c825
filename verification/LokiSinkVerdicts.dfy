/**
 How a push ends and what it costs (src/sf2loki/sinks/loki/sink.py): the verdict follows from the answers alone, and
 splitting in halves keeps the entries sent within a logarithmic factor of the batch.
 */
module LokiSinkVerdicts {
  import opened LokiSink

  /** An answer after which a POST is not tried again: taken, or refused for what it holds. */
  predicate Conclusive(answer: Answer) {
    answer.Status? && (200 <= answer.code < 300 || answer.code == 400 || answer.code == 413)
  }

  predicate AllConclusive<T>(posts: seq<Post<T>>) {
    forall i :: 0 <= i < |posts| ==> Conclusive(posts[i].answer)
  }

  /** A lone entry was refused for what it holds. */
  predicate RefusedAlone<T>(batch: seq<T>, posts: seq<Post<T>>) {
    |batch| == 1 && |posts| == 1 && posts[0].answer.Status? && (posts[0].answer.code == 400 || posts[0].answer.code == 413)
  }

  /** What the answers say about the end of a push. */
  ghost predicate EndsAs<T>(batch: seq<T>, r: Report<T>) {
    && (r.verdict.Retryable? <==> !AllConclusive(r.posts))
    && (r.verdict.Permanent? <==> RefusedAlone(batch, r.posts))
    && (r.verdict.Permanent? ==> Status(r.verdict.code) == r.posts[0].answer)
    && (batch != [] ==> r.posts != [] && r.posts[0].batch == batch)
  }

  lemma {:induction false} JoinedPosts<T>(first: Post<T>, left: seq<Post<T>>, right: seq<Post<T>>)
    ensures AllConclusive([first] + left + right) <==> Conclusive(first.answer) && AllConclusive(left) && AllConclusive(right)
  {
    var all := [first] + left + right;
    if AllConclusive(all) {
      assert all[0] == first;
      assert forall i :: 0 <= i < |left| ==> all[1 + i] == left[i];
      assert forall i :: 0 <= i < |right| ==> all[1 + |left| + i] == right[i];
    }
  }

  /**
   For any server: a push ends retryably exactly if one of its POSTs was not answered conclusively, permanently exactly if
   it was one entry refused alone, and normally otherwise. So a batch of two or more with all answers 2xx, 400 or 413 is
   delivered.
   */
  lemma {:induction false} VerdictExactly<T>(batch: seq<T>, loki: Loki, n: nat)
    ensures EndsAs(batch, Push(batch, loki, n))
    decreases |batch|, 0
  {
    if |batch| > 1 && loki(n).Status? && Poison(loki(n).code) {
      var mid, post := |batch| / 2, Post(batch, loki(n));
      var left := PushHalf(batch[..mid], loki, n + 1);
      HalfVerdict(batch[..mid], loki, n + 1);
      if left.verdict.Retryable? {
        JoinedPosts(post, left.posts, []);
        assert [post] + left.posts + [] == [post] + left.posts;
      } else {
        var right := PushHalf(batch[mid..], loki, n + 1 + |left.posts|);
        HalfVerdict(batch[mid..], loki, n + 1 + |left.posts|);
        JoinedPosts(post, left.posts, right.posts);
      }
    } else if batch != [] {
      assert Push(batch, loki, n).posts[0].answer == loki(n);
    }
  }

  lemma {:induction false} HalfVerdict<T>(half: seq<T>, loki: Loki, n: nat)
    requires half != []
    ensures var r := PushHalf(half, loki, n);
            !r.verdict.Permanent? && (r.verdict.Retryable? <==> !AllConclusive(r.posts)) && r.posts == Push(half, loki, n).posts
    decreases |half|, 1
  {
    VerdictExactly(half, loki, n);
  }

  // ----- what a push sends -----

  /** How many entries are sent, counted once for every POST they are in. */
  function Sent<T>(posts: seq<Post<T>>): nat {
    if posts == [] then 0 else |posts[0].batch| + Sent(posts[1..])
  }

  function Power(k: nat): nat {
    if k == 0 then 1 else 2 * Power(k - 1)
  }

  lemma {:induction false} SentAppend<T>(a: seq<Post<T>>, b: seq<Post<T>>)
    ensures Sent(a + b) == Sent(a) + Sent(b)
  {
    if a == [] {
      assert a + b == b;
    } else {
      SentAppend(a[1..], b);
      assert (a + b)[1..] == a[1..] + b;
    }
  }

  /** The product, by addition. */
  function Times(n: nat, k: nat): nat {
    if k == 0 then 0 else n + Times(n, k - 1)
  }

  lemma {:induction false} TimesIsProduct(n: nat, k: nat)
    ensures Times(n, k) == n * k
  {
    if k > 0 {
      TimesIsProduct(n, k - 1);
      assert n * k == n + n * (k - 1);
    }
  }

  lemma {:induction false} TimesAdds(a: nat, b: nat, k: nat)
    ensures Times(a + b, k) == Times(a, k) + Times(b, k)
  {
    if k > 0 {
      TimesAdds(a, b, k - 1);
    }
  }

  lemma {:induction false} SentFirst<T>(post: Post<T>, rest: seq<Post<T>>)
    ensures Sent([post] + rest) == |post.batch| + Sent(rest)
  {
    assert ([post] + rest)[1..] == rest;
  }

  /** A split sends the batch and then what its halves send. */
  lemma {:induction false} SplitSends<T>(batch: seq<T>, loki: Loki, n: nat)
    requires |batch| > 1 && loki(n).Status? && Poison(loki(n).code)
    ensures var first := PushHalf(batch[..|batch| / 2], loki, n + 1);
            var second := PushHalf(batch[|batch| / 2..], loki, n + 1 + |first.posts|);
            Sent(Push(batch, loki, n).posts) <= |batch| + Sent(first.posts) + Sent(second.posts)
  {
    var mid, post := |batch| / 2, Post(batch, loki(n));
    var first := PushHalf(batch[..mid], loki, n + 1);
    var second := PushHalf(batch[mid..], loki, n + 1 + |first.posts|);
    SentFirst(post, first.posts);
    SentAppend([post] + first.posts, second.posts);
  }

  lemma {:induction false} OnePostSends<T>(batch: seq<T>, loki: Loki, n: nat)
    requires !(|batch| > 1 && loki(n).Status? && Poison(loki(n).code))
    ensures Sent(Push(batch, loki, n).posts) <= |batch|
  {
    if batch != [] {
      SentFirst(Post(batch, loki(n)), []);
      assert [Post(batch, loki(n))] + [] == [Post(batch, loki(n))];
    }
  }

  lemma {:induction false} HalvesAddUp(size: nat, k: nat, left: nat, right: nat)
    requires left <= Times(size / 2, k) && right <= Times(size - size / 2, k)
    ensures size + left + right <= Times(size, k + 1)
  {
    TimesAdds(size / 2, size - size / 2, k);
  }

  /** What a half sends when it is halved at most `k` times more. */
  lemma {:induction false} HalfAtMost<T>(half: seq<T>, loki: Loki, n: nat, size: nat, k: nat) returns (sent: nat)
    requires |half| == size <= Power(k)
    ensures sent == Sent(PushHalf(half, loki, n).posts) && sent <= Times(size, k + 1)
    decreases k, 2
  {
    SentAtMost(half, loki, n, k);
    sent := Sent(Push(half, loki, n).posts);
  }

  lemma {:induction false} HalvesFit(size: nat, k: nat)
    requires 1 < size <= Power(k)
    ensures k > 0 && size / 2 <= Power(k - 1) && size - size / 2 <= Power(k - 1)
  {
  }

  lemma {:induction false} SplitAtMost<T>(batch: seq<T>, loki: Loki, n: nat, mid: nat, k: nat) returns (left: nat, right: nat)
    requires mid == |batch| / 2 && mid <= Power(k) && |batch| - mid <= Power(k)
    requires |batch| > 1 && loki(n).Status? && Poison(loki(n).code)
    ensures left <= Times(mid, k + 1) && right <= Times(|batch| - mid, k + 1)
    ensures Sent(Push(batch, loki, n).posts) <= |batch| + left + right
    decreases k, 3
  {
    var first := PushHalf(batch[..mid], loki, n + 1);
    SplitSends(batch, loki, n);
    left := HalfAtMost(batch[..mid], loki, n + 1, mid, k);
    right := HalfAtMost(batch[mid..], loki, n + 1 + |first.posts|, |batch| - mid, k);
  }

  lemma {:induction false} SentAtMost<T>(batch: seq<T>, loki: Loki, n: nat, k: nat)
    requires |batch| <= Power(k)
    ensures Sent(Push(batch, loki, n).posts) <= Times(|batch|, k + 1)
    decreases k, 1
  {
    if |batch| > 1 && loki(n).Status? && Poison(loki(n).code) {
      HalvesFit(|batch|, k);
      var left, right := SplitAtMost(batch, loki, n, |batch| / 2, k - 1);
      HalvesAddUp(|batch|, k, left, right);
    } else {
      OnePostSends(batch, loki, n);
    }
  }

  /** A push of at most 2^k entries sends each of them k + 1 times on average at most, whatever the server refuses. */
  lemma {:induction false} SentIsBounded<T>(batch: seq<T>, loki: Loki, n: nat, k: nat)
    requires |batch| <= Power(k)
    ensures Sent(Push(batch, loki, n).posts) <= |batch| * (k + 1)
  {
    SentAtMost(batch, loki, n, k);
    TimesIsProduct(|batch|, k + 1);
  }
}
