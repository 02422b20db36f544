/** How the audit manager splits the subclouds to audit into requests for its workers. */
module AuditBatches {

  function Concat(batches: seq<seq<int>>): seq<int> {
    if batches == [] then [] else Concat(batches[..|batches| - 1]) + batches[|batches| - 1]
  }

  lemma {:induction false} TimesMonotone(a: nat, b: nat, c: nat)
    ensures a <= b ==> a * c <= b * c
    decreases c
  {
    if c > 0 {
      TimesMonotone(a, b, c - 1);
      assert a * c == a * (c - 1) + a && b * c == b * (c - 1) + b;
    }
  }

  lemma QuotientIs(n: nat, w: nat, q: nat, r: nat)
    requires r < w && n == q * w + r
    ensures n / w == q
  {
    var p, s := n / w, n % w;
    assert n == p * w + s;
    TimesMonotone(p + 1, q, w);
    TimesMonotone(q + 1, p, w);
    assert (p + 1) * w == p * w + w && (q + 1) * w == q * w + w;
  }

  /** The chunk size is at least one, and enough for the workers together. */
  lemma ChunkSize(n: nat, w: nat)
    requires w >= 1
    ensures (n + w) / w == n / w + 1 && (n + w) / w * w > n
  {
    var q, r := n / w, n % w;
    assert n == q * w + r;
    assert n + w == (q + 1) * w + r;
    QuotientIs(n + w, w, q + 1, r);
  }

  lemma {:induction false} ConcatLength(batches: seq<seq<int>>, c: nat)
    requires forall i :: 0 <= i < |batches| ==> |batches[i]| == c
    ensures |Concat(batches)| == |batches| * c
    decreases |batches|
  {
    if batches != [] {
      ConcatLength(batches[..|batches| - 1], c);
      OneMoreTime(|batches| - 1, c);
    }
  }

  lemma OneMoreTime(k: nat, c: nat)
    ensures (k + 1) * c == k * c + c
  {
  }

  /** Full batches are never more than fit. */
  lemma FewBatches(full: nat, c: nat, workers: nat, n: nat, rest: nat)
    requires full * c + rest == n < c * workers
    ensures full < workers
  {
    TimesMonotone(workers, full, c);
  }

  /** The loop: a full batch is sent at once, the rest at the end. */
  method SendInChunks(subcloudAudits: seq<int>, chunksize: nat) returns (sent: seq<seq<int>>)
    requires chunksize >= 1
    ensures Concat(sent) == subcloudAudits
    ensures forall i :: 0 <= i < |sent| ==> 1 <= |sent[i]| <= chunksize
    ensures forall i :: 0 <= i < |sent| - 1 ==> |sent[i]| == chunksize
  {
    sent := [];
    var subcloudIds := [];
    for i := 0 to |subcloudAudits|
      invariant Concat(sent) + subcloudIds == subcloudAudits[..i]
      invariant forall k :: 0 <= k < |sent| ==> |sent[k]| == chunksize
      invariant |subcloudIds| < chunksize
    {
      subcloudIds := subcloudIds + [subcloudAudits[i]];
      assert Concat(sent) + subcloudIds == subcloudAudits[..i + 1];
      if |subcloudIds| == chunksize {
        sent := Sent(sent, subcloudIds);
        subcloudIds := [];
      }
    }
    assert subcloudAudits[..|subcloudAudits|] == subcloudAudits;
    if |subcloudIds| > 0 {
      sent := Sent(sent, subcloudIds);
    }
  }

  /** The batches are sent in order: together they are the input, none is empty, all but the last
      are full, and there are at most as many as there are workers. */
  method SendBatches(subcloudAudits: seq<int>, workers: nat) returns (sent: seq<seq<int>>)
    requires workers >= 1
    ensures Concat(sent) == subcloudAudits
    ensures forall i :: 0 <= i < |sent| ==> 1 <= |sent[i]| <= |subcloudAudits| / workers + 1
    ensures forall i :: 0 <= i < |sent| - 1 ==> |sent[i]| == |subcloudAudits| / workers + 1
    ensures |sent| <= workers
  {
    ChunkSize(|subcloudAudits|, workers);
    var chunksize := (|subcloudAudits| + workers) / workers;
    sent := SendInChunks(subcloudAudits, chunksize);
    if sent != [] {
      var full := sent[..|sent| - 1];
      ConcatLength(full, chunksize);
      FewBatches(|full|, chunksize, workers, |subcloudAudits|, |sent[|sent| - 1]|);
    }
  }

  /** The requests so far and one more. */
  function Sent(sent: seq<seq<int>>, batch: seq<int>): (r: seq<seq<int>>)
    ensures Concat(r) == Concat(sent) + batch
    ensures r == sent + [batch]
  {
    assert (sent + [batch])[..|sent|] == sent;
    sent + [batch]
  }
}
