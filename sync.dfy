/** The transmitting flush: post every queued item in order, then remove the queue.
    A failing post throws out of the loop, so the queue is left as it was. */
module Sync {
  import opened Seqs
  import opened Storage

  /** How a flush ends. */
  datatype FlushOutcome = AllPosted | PostFailed(index: nat)

  /** A post outcome that is a failure. */
  predicate FailedPost(ok: bool)
  {
    !ok
  }

  /** Posts the queue's items one after another; `posts[i]` is the outcome of the
      i-th post. `sent` lists the items posted, the failing one included. */
  method PostEach(queue: seq<Item>, posts: seq<bool>) returns (sent: seq<Item>, outcome: FlushOutcome)
    requires |posts| == |queue|
    ensures var k := FirstIndex(FailedPost, posts);
      && (outcome == AllPosted <==> k == |queue|)
      && (outcome.PostFailed? ==> outcome.index == k)
      && sent == (if k == |queue| then queue else queue[..k + 1])
  {
    sent := [];
    var i := 0;
    while i < |queue|
      invariant 0 <= i <= |queue|
      invariant i <= FirstIndex(FailedPost, posts)
      invariant sent == queue[..i]
    {
      sent := sent + [queue[i]];
      if !posts[i] {
        return sent, PostFailed(i);
      }
      i := i + 1;
    }
    outcome := AllPosted;
  }

  /** `syncNow` of the sync utility. When every post succeeds, all items were sent in
      queue order and the queue reads back empty; when the k-th post fails, items 0..k
      were sent and the whole queue stays, including the items already sent. */
  method SyncNow(store: LocalStore, posts: seq<bool>) returns (sent: seq<Item>, outcome: FlushOutcome)
    requires |posts| == |store.syncQueue|
    modifies store
    ensures var k := FirstIndex(FailedPost, posts);
      && (outcome == AllPosted <==> k == |old(store.syncQueue)|)
      && (outcome.PostFailed? ==> outcome.index == k)
      && sent == (if k == |old(store.syncQueue)| then old(store.syncQueue) else old(store.syncQueue)[..k + 1])
    ensures store.syncQueue == if outcome == AllPosted then [] else old(store.syncQueue)
    ensures store.inventoryItems == old(store.inventoryItems)
  {
    var queue := store.syncQueue;
    sent, outcome := PostEach(queue, posts);
    if outcome == AllPosted {
      store.syncQueue := [];
    }
  }

  /** Every post succeeds exactly when the flush posts the whole queue. */
  lemma AllPostedIffNoFailure(posts: seq<bool>)
    ensures FirstIndex(FailedPost, posts) == |posts| <==> forall i :: 0 <= i < |posts| ==> posts[i]
  {
  }

  /** After a failed flush, the next flush posts again the items the failed one had
      already delivered: the queue has no per-item acknowledgement. */
  method RetryResends(store: LocalStore, first: seq<bool>, second: seq<bool>)
      returns (sent1: seq<Item>, sent2: seq<Item>)
    requires |first| == |store.syncQueue| == |second|
    requires FirstIndex(FailedPost, first) > 0 && FirstIndex(FailedPost, first) < |first|
    modifies store
    ensures |sent1| > 1 && sent1[0] == old(store.syncQueue)[0]
    ensures sent2 != [] && sent2[0] == sent1[0]
  {
    var o1, o2;
    sent1, o1 := SyncNow(store, first);
    sent2, o2 := SyncNow(store, second);
  }
}
